/**
 The DHCPv4 lease clock: lease, T1 and T2 taken from whatever options a server sent, the renew and
 rebind timeouts that halve the time that remains, and the correction for clock jumps.
 */
module Dhcp4Lease {
  import opened Common

  type UInt32 = n: nat | n < 0x1_0000_0000

  const INFINITE: UInt32 := 0xffff_ffff
  const DEFAULT_LEASE: UInt32 := 3600
  const MIN_LEASE: UInt32 := 3
  const MIN_T1: UInt32 := 2
  const MIN_T2: UInt32 := 2
  const MIN_WAIT: real := 60.0

  // ---------------------------------------------------------------- the three options

  /** Seconds from the start of the lease. */
  datatype Spans = Spans(lease: UInt32, t1: UInt32, t2: UInt32)

  function AtLeast(o: UInt32, least: UInt32): UInt32 { if o < least then least else o }

  function LeaseSpan(lease: Option<UInt32>, t1: Option<UInt32>, t2: Option<UInt32>): UInt32 {
    if lease.Some? then AtLeast(lease.value, MIN_LEASE)
    else if t1.Some? then AtLeast(t1.value, MIN_T1)
    else if t2.Some? then AtLeast(t2.value, MIN_T2)
    else DEFAULT_LEASE
  }

  /** The server sent T1 and T2, and they lie in order within the lease. */
  predicate Usable(length: UInt32, t1: Option<UInt32>, t2: Option<UInt32>) {
    t1.Some? && t2.Some? && AtLeast(t1.value, MIN_T1) <= AtLeast(t2.value, MIN_T2) < length
  }

  function FromOptions(lease: Option<UInt32>, t1: Option<UInt32>, t2: Option<UInt32>): Spans {
    var length := LeaseSpan(lease, t1, t2);
    if length == INFINITE then Spans(length, 0, 0)
    else if Usable(length, t1, t2) then Spans(length, AtLeast(t1.value, MIN_T1), AtLeast(t2.value, MIN_T2))
    else Spans(length, length / 2, length * 7 / 8)
  }

  /** An infinite lease has no T1 or T2; any other has them in order, strictly inside it. */
  predicate Normal(x: Spans) {
    if x.lease == INFINITE then x.t1 == x.t2 == 0 else 1 <= x.t1 <= x.t2 < x.lease
  }

  lemma AlwaysNormal(lease: Option<UInt32>, t1: Option<UInt32>, t2: Option<UInt32>)
    ensures Normal(FromOptions(lease, t1, t2))
  {
    var length: int := LeaseSpan(lease, t1, t2);
    assert 1 <= length / 2 <= length * 7 / 8 < length;
  }

  /** What a server asked for is kept to the second exactly when it is coherent; the rest is repaired. */
  lemma HonouredIff(lease: UInt32, t1: UInt32, t2: UInt32)
    ensures FromOptions(Some(lease), Some(t1), Some(t2)) == Spans(lease, t1, t2) <==>
            || (lease == INFINITE && t1 == t2 == 0)
            || (lease != INFINITE && MIN_T1 <= t1 <= t2 < lease)
  {
    AlwaysNormal(Some(lease), Some(t1), Some(t2));
  }

  // ---------------------------------------------------------------- the lease on the clock

  datatype Lease = Lease(start: real, length: UInt32, t1: real, t2: real, expiration: real)

  function WithSpans(start: real, x: Spans): Lease {
    if x.lease == INFINITE then Lease(start, x.lease, 0.0, 0.0, 0.0)
    else Lease(start, x.lease, start + x.t1 as real, start + x.t2 as real, start + x.lease as real)
  }

  function Shifted(l: Lease, delta: real): Lease {
    Lease(l.start + delta, l.length, l.t1 + delta, l.t2 + delta, l.expiration + delta)
  }

  /** Times in order, and as long as the lease says. */
  predicate InOrder(l: Lease) {
    l.length != INFINITE ==> l.start < l.t1 <= l.t2 < l.expiration == l.start + l.length as real
  }

  /** A lease set or recovered from any options is in order, and no clock correction disturbs that: it ends
      its length after its start, later or earlier by all corrections together. */
  lemma {:induction false} LeasesInOrder(lease: Option<UInt32>, t1: Option<UInt32>, t2: Option<UInt32>, start: real, deltas: seq<real>)
    ensures InOrder(ShiftedBy(WithSpans(start, FromOptions(lease, t1, t2)), deltas))
    ensures var l := ShiftedBy(WithSpans(start, FromOptions(lease, t1, t2)), deltas);
            l.length != INFINITE ==> l.expiration == start + Total(deltas) + l.length as real
  {
    AlwaysNormal(lease, t1, t2);
    ShiftsKeepOrder(WithSpans(start, FromOptions(lease, t1, t2)), deltas);
    ShiftsAdd(WithSpans(start, FromOptions(lease, t1, t2)), deltas);
  }

  function Total(deltas: seq<real>): real
    decreases |deltas|
  {
    if deltas == [] then 0.0 else deltas[0] + Total(deltas[1..])
  }

  function ShiftedBy(l: Lease, deltas: seq<real>): Lease
    decreases |deltas|
  {
    if deltas == [] then l else ShiftedBy(Shifted(l, deltas[0]), deltas[1..])
  }

  /** Corrections add up. */
  lemma {:induction false} ShiftsAdd(l: Lease, deltas: seq<real>)
    ensures ShiftedBy(l, deltas) == Shifted(l, Total(deltas))
    decreases |deltas|
  {
    if deltas != [] {
      ShiftsAdd(Shifted(l, deltas[0]), deltas[1..]);
    }
  }

  lemma {:induction false} ShiftsKeepOrder(l: Lease, deltas: seq<real>)
    requires InOrder(l)
    ensures InOrder(ShiftedBy(l, deltas))
    decreases |deltas|
  {
    if deltas != [] {
      ShiftsKeepOrder(Shifted(l, deltas[0]), deltas[1..]);
    }
  }

  // ---------------------------------------------------------------- one timeout

  datatype Action = Unbind | Renew | Rebind

  /** `next` is when the timer should fire by the lease clock, `wait` the whole seconds it is set to. */
  datatype Turn = Turn(action: Action, lease: Lease, next: real, wait: real)

  function Wait(left: real): real {
    if left / 2.0 < MIN_WAIT then MIN_WAIT else (left / 2.0).Floor as real
  }

  function NextWake(now: real, left: real): real {
    if left / 2.0 < MIN_WAIT then now + MIN_WAIT else now + left / 2.0
  }

  function Limit(l: Lease, now: real): real { if now < l.t2 then l.t2 else l.expiration }

  /** `planned` is when the timer was to fire; a jumped clock moves the whole lease by the difference. */
  function Timeout(was: Lease, planned: real, now: real, jumped: bool): Turn {
    var l := if jumped then Shifted(was, now - planned) else was;
    if now >= l.expiration then Turn(Unbind, l, planned, 0.0)
    else Turn(if now < l.t2 then Renew else Rebind, l, NextWake(now, Limit(l, now) - now), Wait(Limit(l, now) - now))
  }

  /** A detected jump changes nothing but the reading of the clock. */
  lemma ClockJumpEquivariance(l: Lease, planned: real, now: real)
    ensures var jumped, still := Timeout(l, planned, now, true), Timeout(l, planned, planned, false);
            var delta := now - planned;
            && jumped.action == still.action && jumped.wait == still.wait
            && jumped.lease == Shifted(still.lease, delta)
            && (still.action != Unbind ==> jumped.next == still.next + delta)
  {
    var moved := Shifted(l, now - planned);
    assert Limit(moved, now) - now == Limit(l, planned) - planned;
  }

  /** While the lease lasts the pending wake comes within a minute of its end, and a minute on at least. */
  lemma WakeWithinAMinute(l: Lease, planned: real, now: real, jumped: bool)
    requires l.t2 <= l.expiration
    ensures var turn := Timeout(l, planned, now, jumped);
            turn.action != Unbind ==>
              && now + MIN_WAIT <= now + turn.wait <= turn.next < turn.lease.expiration + MIN_WAIT
              && turn.next < now + turn.wait + 1.0
  {
  }

  // ---------------------------------------------------------------- how many requests a limit allows

  /** Requests sent before `limit` at the given moments, each timer firing on time or late. */
  ghost predicate Schedule(at: seq<real>, limit: real) {
    && (forall k :: 0 <= k < |at| ==> at[k] < limit)
    && (forall k :: 0 <= k < |at| - 1 ==> at[k] + Wait(limit - at[k]) <= at[k + 1])
  }

  function Pow2(k: nat): (r: nat)
    ensures r >= 1
  {
    if k == 0 then 1 else 2 * Pow2(k - 1)
  }

  /** The longest time that is sure to see at most `k + 1` requests. */
  function Threshold(k: nat): nat { if k == 0 then 60 else 119 * Pow2(k - 1) + 1 }

  lemma ScheduleTail(at: seq<real>, limit: real)
    requires Schedule(at, limit) && at != []
    ensures Schedule(at[1..], limit)
  {
    forall k | 0 <= k < |at[1..]| - 1 ensures at[1..][k] + Wait(limit - at[1..][k]) <= at[1..][k + 1] {
      assert at[k + 1] + Wait(limit - at[k + 1]) <= at[k + 2];
    }
  }

  lemma WaitLeaves(left: real, k: nat)
    requires 0.0 < left <= Threshold(k) as real
    ensures left - Wait(left) <= if k == 0 then 0.0 else Threshold(k - 1) as real
  {
    if k > 1 && left / 2.0 >= MIN_WAIT {
      assert Threshold(k) == 2 * Threshold(k - 1) - 1;
      HalfLeaves(left, Threshold(k - 1));
    }
  }

  lemma HalfLeaves(left: real, d: nat)
    requires 0.0 < left <= (2 * d - 1) as real
    ensures left - (left / 2.0).Floor as real <= d as real
  {
    var f := (left / 2.0).Floor;
    assert f <= d - 1;
    if f < d - 1 {
      assert left < 2.0 * (f + 1) as real;
    }
  }

  /** At most `k + 1` requests go out in the threshold's time, however late the timers. */
  lemma {:induction false} RequestsBounded(at: seq<real>, limit: real, k: nat)
    requires Schedule(at, limit)
    requires at != [] ==> limit - at[0] <= Threshold(k) as real
    ensures |at| <= k + 1
    decreases k
  {
    if |at| > 1 {
      assert at[0] + Wait(limit - at[0]) <= at[1];
      WaitLeaves(limit - at[0], k);
      assert at[1] < limit;
      if k > 0 {
        ScheduleTail(at, limit);
        RequestsBounded(at[1..], limit, k - 1);
      }
    }
  }

  /** With clocks in whole seconds the time doubles with every request, from sixty seconds on. */
  ghost predicate WholeSeconds(at: seq<real>, limit: real) {
    forall k :: 0 <= k < |at| ==> (limit - at[k]).Floor as real == limit - at[k]
  }

  lemma {:induction false} RequestsInWholeSeconds(at: seq<real>, limit: real, k: nat)
    requires Schedule(at, limit) && WholeSeconds(at, limit)
    requires at != [] ==> limit - at[0] <= (60 * Pow2(k)) as real
    ensures |at| <= k + 1
    decreases k
  {
    if |at| > 1 {
      assert at[0] + Wait(limit - at[0]) <= at[1];
      WholeHalf((limit - at[0]).Floor, k);
      assert at[1] < limit;
      if k > 0 {
        ScheduleTail(at, limit);
        RequestsInWholeSeconds(at[1..], limit, k - 1);
      }
    }
  }

  lemma WholeHalf(left: int, k: nat)
    requires 0 < left <= 60 * Pow2(k)
    ensures left as real - Wait(left as real) <= if k == 0 then 0.0 else (60 * Pow2(k - 1)) as real
  {
    var f := (left as real / 2.0).Floor;
    assert left <= 2 * f + 1;
  }

  /** Requests sent in the given time when every timer fires on time. */
  function Requests(left: real): nat
    decreases if left <= 0.0 then 0 else left.Floor + 1
  {
    if left <= 0.0 then 0
    else
      assert Wait(left) >= 60.0;
      1 + Requests(left - Wait(left))
  }

  lemma {:induction false} JustAboveThreshold(k: nat, more: real)
    requires 0.0 < more < 1.0
    ensures Requests(Threshold(k) as real + more) >= k + 2
  {
    var left := Threshold(k) as real + more;
    if k == 0 {
      assert Wait(left) == 60.0;
      assert Requests(more) >= 1;
    } else {
      JustAboveThreshold(k - 1, more);
      AboveLeaves(k, more);
      assert left - Wait(left) == Threshold(k - 1) as real + more;
    }
  }

  lemma AboveLeaves(k: nat, more: real)
    requires 0.0 < more < 1.0 && k > 0
    ensures var left := Threshold(k) as real + more;
            left - Wait(left) == Threshold(k - 1) as real + more
  {
    var left := Threshold(k) as real + more;
    if k == 1 {
      assert left / 2.0 == 60.0 + more / 2.0 && (left / 2.0).Floor == 60;
    } else {
      var d := Threshold(k - 1);
      assert Threshold(k) == 2 * d - 1;
      assert Pow2(k - 2) >= 1 && d >= 120;
      assert left / 2.0 == (d - 1) as real + (1.0 + more) / 2.0;
      assert (left / 2.0).Floor == d - 1;
    }
  }

  lemma {:induction false} OnTimeSchedule(left: real, k: nat)
    requires left <= Threshold(k) as real
    ensures Requests(left) <= k + 1
    decreases k
  {
    if left > 0.0 {
      WaitLeaves(left, k);
      if k > 0 {
        OnTimeSchedule(left - Wait(left), k - 1);
      }
    }
  }

  /** The threshold is exact: it is the longest time for which every shorter one keeps to the bound. */
  lemma ThresholdIsExact(left: real, k: nat)
    ensures (forall d :: d <= left ==> Requests(d) <= k + 1) <==> left <= Threshold(k) as real
  {
    if left <= Threshold(k) as real {
      forall d | d <= left ensures Requests(d) <= k + 1 {
        OnTimeSchedule(d, k);
      }
    } else {
      var above := left - Threshold(k) as real;
      var more := if above < 0.5 then above else 0.5;
      JustAboveThreshold(k, more);
      assert Threshold(k) as real + more <= left;
    }
  }

  /** On a clock with fractions, four minutes can see a fourth request. */
  lemma FourMinutesFourRequests()
    ensures 239.5 <= (60 * Pow2(2)) as real && Requests(239.5) == 4
  {
    assert Wait(239.5) == 119.0 by { assert (119.75).Floor == 119; }
    assert Wait(120.5) == 60.0 by { assert (60.25).Floor == 60; }
    assert Requests(0.5) == 1;
    assert Requests(60.5) == 2;
    assert Requests(120.5) == 3;
  }

  // ---------------------------------------------------------------- an unanswered lease runs out

  /** Successive timeouts on one lease, none answered, no jumps: each fires when it was set to, or later. */
  ghost predicate Unanswered(l: Lease, at: seq<real>) {
    && (forall k :: 0 <= k < |at| ==> Timeout(l, at[k], at[k], false).action != Unbind)
    && (forall k :: 0 <= k < |at| - 1 ==> at[k] + Timeout(l, at[k], at[k], false).wait <= at[k + 1])
  }

  /** So there are at most as many of them as minutes left. */
  lemma {:induction false} ServerSilentEndsLease(l: Lease, at: seq<real>)
    requires Unanswered(l, at) && at != []
    ensures 60.0 * (|at| - 1) as real < l.expiration - at[0]
    decreases |at|
  {
    assert Timeout(l, at[0], at[0], false).action != Unbind;
    if |at| > 1 {
      assert at[0] + Timeout(l, at[0], at[0], false).wait <= at[1];
      UnansweredTail(l, at);
      ServerSilentEndsLease(l, at[1..]);
    }
  }

  lemma UnansweredTail(l: Lease, at: seq<real>)
    requires Unanswered(l, at) && at != []
    ensures Unanswered(l, at[1..])
  {
    forall k | 0 <= k < |at[1..]| - 1
      ensures at[1..][k] + Timeout(l, at[1..][k], at[1..][k], false).wait <= at[1..][k + 1]
    {
      assert at[k + 1] + Timeout(l, at[k + 1], at[k + 1], false).wait <= at[k + 2];
    }
  }

  /** Unanswered requests before T2 follow the schedule to T2. */
  lemma RenewsFollowSchedule(l: Lease, at: seq<real>)
    requires Unanswered(l, at) && l.t2 <= l.expiration
    requires forall k :: 0 <= k < |at| ==> at[k] < l.t2
    ensures Schedule(at, l.t2)
  {
    forall k | 0 <= k < |at| - 1 ensures at[k] + Wait(l.t2 - at[k]) <= at[k + 1] {
      assert at[k] + Timeout(l, at[k], at[k], false).wait <= at[k + 1];
    }
  }

  /** Those after it follow the schedule to the end. */
  lemma RebindsFollowSchedule(l: Lease, at: seq<real>)
    requires Unanswered(l, at)
    requires forall k :: 0 <= k < |at| ==> at[k] >= l.t2
    ensures Schedule(at, l.expiration)
  {
    forall k | 0 <= k < |at| ensures at[k] < l.expiration {
      assert Timeout(l, at[k], at[k], false).action != Unbind;
    }
    forall k | 0 <= k < |at| - 1 ensures at[k] + Wait(l.expiration - at[k]) <= at[k + 1] {
      assert at[k] + Timeout(l, at[k], at[k], false).wait <= at[k + 1];
    }
  }

  /** With at most the threshold's time to T2, at most `k + 1` RENEWs go out before T2. */
  lemma RenewsBounded(l: Lease, at: seq<real>, k: nat)
    requires Unanswered(l, at) && l.t2 <= l.expiration && at != []
    requires forall j :: 0 <= j < |at| ==> Timeout(l, at[j], at[j], false).action == Renew
    requires l.t2 - at[0] <= Threshold(k) as real
    ensures |at| <= k + 1
  {
    forall j | 0 <= j < |at| ensures at[j] < l.t2 {
      assert Timeout(l, at[j], at[j], false).action == Renew;
    }
    RenewsFollowSchedule(l, at);
    RequestsBounded(at, l.t2, k);
  }

  /** And with at most that time to the end, at most `k + 1` REBINDs. */
  lemma RebindsBounded(l: Lease, at: seq<real>, k: nat)
    requires Unanswered(l, at) && at != []
    requires forall j :: 0 <= j < |at| ==> Timeout(l, at[j], at[j], false).action == Rebind
    requires l.expiration - at[0] <= Threshold(k) as real
    ensures |at| <= k + 1
  {
    forall j | 0 <= j < |at| ensures at[j] >= l.t2 {
      assert Timeout(l, at[j], at[j], false).action == Rebind;
    }
    RebindsFollowSchedule(l, at);
    RequestsBounded(at, l.expiration, k);
  }

  // ---------------------------------------------------------------- the code

  class LeaseClock {
    var start: real
    var length: UInt32
    var t1: real
    var t2: real
    var expiration: real
    var renewRebindTime: real

    function View(): Lease
      reads this
    {
      Lease(start, length, t1, t2, expiration)
    }

    constructor ()
    {
      start, length, t1, t2, expiration, renewRebindTime := 0.0, 0, 0.0, 0.0, 0.0, 0.0;
    }

    static method GetLeaseFromOptions(leaseOpt: Option<UInt32>, t1Opt: Option<UInt32>, t2Opt: Option<UInt32>)
      returns (lease: UInt32, r1: UInt32, r2: UInt32)
      ensures Spans(lease, r1, r2) == FromOptions(leaseOpt, t1Opt, t2Opt)
    {
      lease, r1, r2 := 0, 0, 0;
      if leaseOpt.Some? {
        lease := leaseOpt.value;
        if lease < MIN_LEASE {
          lease := MIN_LEASE;
        }
      }
      if t1Opt.Some? {
        r1 := t1Opt.value;
        if r1 < MIN_T1 {
          r1 := MIN_T1;
        }
      }
      if t2Opt.Some? {
        r2 := t2Opt.value;
        if r2 < MIN_T2 {
          r2 := MIN_T2;
        }
      }
      if leaseOpt.None? {
        if t1Opt.Some? {
          lease := r1;
        } else if t2Opt.Some? {
          lease := r2;
        } else {
          lease := DEFAULT_LEASE;
        }
      }
      if lease == INFINITE {
        r1, r2 := 0, 0;
      } else if t1Opt.None? || r1 >= lease || t2Opt.None? || r2 >= lease || r2 < r1 {
        r1 := lease / 2;
        r2 := lease * 7 / 8;
      }
    }

    method SetLeaseParams(leaseStart: real, spans: Spans)
      modifies this
      ensures View() == WithSpans(leaseStart, spans) && renewRebindTime == old(renewRebindTime)
    {
      start := leaseStart;
      length := spans.lease;
      if length == INFINITE {
        t1, t2, expiration := 0.0, 0.0, 0.0;
      } else {
        expiration := start + length as real;
        t1 := start + spans.t1 as real;
        t2 := start + spans.t2 as real;
      }
    }

    method AdjustLeaseInfo(delta: real)
      modifies this
      ensures View() == Shifted(old(View()), delta) && renewRebindTime == old(renewRebindTime)
    {
      expiration := expiration + delta;
      start := start + delta;
      t1 := t1 + delta;
      t2 := t2 + delta;
    }

    /** The times of a lease switched to, taken afresh from its packet. */
    method Recover(leaseStart: real, leaseOpt: Option<UInt32>, t1Opt: Option<UInt32>, t2Opt: Option<UInt32>)
      modifies this
      ensures View() == WithSpans(leaseStart, FromOptions(leaseOpt, t1Opt, t2Opt))
    {
      var lease, r1, r2 := GetLeaseFromOptions(leaseOpt, t1Opt, t2Opt);
      SetLeaseParams(leaseStart, Spans(lease, r1, r2));
    }

    method RenewRebindTimeout(now: real, stillPending: bool, timeChanged: bool) returns (action: Action, wait: real)
      modifies this
      ensures var turn := Timeout(old(View()), old(renewRebindTime), now, !stillPending && timeChanged);
              && action == turn.action && wait == turn.wait
              && View() == turn.lease && renewRebindTime == turn.next
    {
      wait := 0.0;
      if !stillPending && timeChanged {
        AdjustLeaseInfo(now - renewRebindTime);
      }
      if now >= expiration {
        action := Unbind;
        return;
      }
      if now < t2 {
        action := Renew;
        renewRebindTime, wait := HalfTime(now, t2);
      } else {
        action := Rebind;
        renewRebindTime, wait := HalfTime(now, expiration);
      }
    }

    /** Half the time to the limit from now, a minute at least; the timer is set in whole seconds. */
    static method HalfTime(now: real, limit: real) returns (next: real, wait: real)
      ensures next == NextWake(now, limit - now) && wait == Wait(limit - now)
    {
      var wakeup := now + (limit - now) / 2.0;
      if wakeup - now < MIN_WAIT {
        wait := MIN_WAIT;
        next := now + wait;
      } else {
        wait := (wakeup - now).Floor as real;
        next := wakeup;
      }
    }

    /** The four times of a lease record moved alike. */
    static method MoveLease(l: Lease, delta: real) returns (r: Lease)
      ensures r == Shifted(l, delta)
    {
      r := l.(expiration := l.expiration + delta);
      r := r.(start := r.start + delta);
      r := r.(t1 := r.t1 + delta);
      r := r.(t2 := r.t2 + delta);
    }
  }
}
