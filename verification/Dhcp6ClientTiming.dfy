/** How long a DHCPv6 client waits while it holds a lease, and that a silent server ends the lease. */
module Dhcp6ClientTiming {
  import opened Common
  import opened Dhcp6Lease
  import opened Dhcp6Backoff
  import opened Dhcp6Client
  import opened Dhcp6ClientLaws

  /** Holding a finite lease whose T2 is within its valid lifetime, which the client does not check. */
  predicate Live(s: State) {
    && BoundRenewOrRebind(s.cstate) && s.lease.valid
    && s.lease.times.valid != INFINITE && s.lease.times.t2 <= s.lease.times.valid
  }

  function Expiry(s: State): real { s.lease.start + s.lease.times.valid as real }

  /** The latest the pending timer may be set for. */
  function Deadline(s: State): real {
    match s.cstate
    case Bound => Expiry(s) + 10.0
    case Renew => s.lease.start + s.lease.times.t2 as real + 1.0
    case _ => Expiry(s) + 1.0
  }

  predicate IsRenewTimeout(t: Option<Timer>) {
    t.Some? && t.value.handler == OnRenewRebind && !t.value.start
  }

  ghost predicate Timed(s: State) {
    && (IsRenewTimeout(s.timer) ==> s.tries >= 1 && s.retransmit >= 9.0)
    && (Live(s) ==>
          && s.timer.Some? && s.timer.value.handler == OnRenewRebind
          && s.timer.value.at == s.renewTime <= Deadline(s))
  }

  lemma ElapsedBounds(l: Lease, now: real)
    requires l.start <= now
    ensures l.start + Elapsed(l, now) as real <= now < l.start + Elapsed(l, now) as real + 1.0
  {
  }

  lemma RetransmitAtLeastNine(s: State, d: Draw)
    requires s.tries > 0 ==> s.retransmit >= 9.0
    ensures NextRetransmit(s, 10.0, 600.0, d).retransmit >= 9.0
  {
    JitterBounds(10.0, d.double);
    if s.tries > 0 {
      CappedStep(9.0, if s.retransmit > 660.0 then 660.0 else s.retransmit, 600.0, d);
      DoublingBounds(s.retransmit, d.double);
      JitterBounds(600.0, d.cap);
    }
  }

  /** The wait is at least a second, and set for no later than the deadline. */
  ghost predicate WaitsWell(s: State, q: State, env: Env) {
    && Timed(q)
    && (q.cstate != Solicit && s.lease.times.valid != INFINITE ==>
          q.lease == s.lease && q.renewTime >= env.now + 1.0 && env.now < Expiry(s))
  }

  /** What is left up to `limit`, in whole seconds, ends within a second of it. */
  lemma LeftEnds(l: Lease, limit: nat, now: real)
    requires l.start <= now && Elapsed(l, now) < limit
    ensures 1.0 <= (limit - Elapsed(l, now)) as real
    ensures now + (limit - Elapsed(l, now)) as real <= l.start + limit as real + 1.0
  {
    ElapsedBounds(l, now);
  }

  lemma UnexpiredLeft(l: Lease, now: real)
    requires l.times.valid != INFINITE && !Expired(l, now)
    ensures l.start <= now < l.start + l.times.valid as real && Elapsed(l, now) < l.times.valid
  {
    ElapsedBounds(l, now);
  }

  lemma WaitingTimed(s: State, n: State, wait: real, env: Env)
    requires n.lease == s.lease && n.tries >= 1 && n.retransmit >= 9.0
    requires s.lease.times.valid != INFINITE ==> wait >= 1.0 && env.now < Expiry(s)
    requires Live(n) ==> env.now + wait <= Deadline(n)
    ensures WaitsWell(s, Waiting(n, wait, env), env)
  {
  }

  lemma RenewSentTimed(s: State, env: Env)
    requires s.lease.valid && !Expired(s.lease, env.now) && (s.tries > 0 ==> s.retransmit >= 9.0)
    requires Elapsed(s.lease, env.now) < s.lease.times.t2
    ensures WaitsWell(s, RenewSent(s, Elapsed(s.lease, env.now), env), env)
  {
    RetransmitAtLeastNine(s, env.draw);
    if s.lease.times.valid != INFINITE {
      UnexpiredLeft(s.lease, env.now);
      LeftEnds(s.lease, s.lease.times.t2, env.now);
    }
    var n := NextRetransmit(s, 10.0, 600.0, env.draw);
    var wait := Lower(n.retransmit, (s.lease.times.t2 - Elapsed(s.lease, env.now)) as real);
    WaitingTimed(s, n, wait, env);
    assert RenewSent(s, Elapsed(s.lease, env.now), env) == Waiting(n, wait, env);
  }

  lemma RebindSentTimed(s: State, env: Env)
    requires s.lease.valid && !Expired(s.lease, env.now) && (s.tries > 0 ==> s.retransmit >= 9.0)
    ensures WaitsWell(s, RebindSent(s, Elapsed(s.lease, env.now), env), env)
  {
    RetransmitAtLeastNine(RebindEntered(s, env), env.draw);
    if s.lease.times.valid != INFINITE {
      UnexpiredLeft(s.lease, env.now);
      LeftEnds(s.lease, s.lease.times.valid, env.now);
    }
    var n := NextRetransmit(RebindEntered(s, env), 10.0, 600.0, env.draw);
    var wait := Lower(n.retransmit, (s.lease.times.valid - Elapsed(s.lease, env.now)) as real);
    WaitingTimed(s, n, wait, env);
    assert RebindSent(s, Elapsed(s.lease, env.now), env) == Waiting(n, wait, env);
  }

  lemma SolicitTimed(s: State, env: Env)
    ensures Timed(SolicitStarted(s, env))
  {
  }

  lemma ConfirmTimed(s: State, env: Env)
    ensures Timed(ConfirmStarted(s, env))
  {
  }

  lemma DeclineTimed(s: State, env: Env)
    ensures Timed(DeclineStarted(s, env))
  {
  }

  lemma InformTimed(s: State, env: Env)
    ensures Timed(InformStarted(s, env))
  {
  }

  lemma UnboundTimed(s: State, env: Env)
    ensures UnboundStarted(s, env).cstate == Solicit && Timed(UnboundStarted(s, env))
  {
  }

  /** Every wait in Renew or Rebind is at least a second, and ends by the deadline. */
  lemma RenewTimedOutTimed(s: State, env: Env)
    requires s.tries > 0 ==> s.retransmit >= 9.0
    ensures WaitsWell(s, RenewTimedOut(s, env), env)
  {
    var c := LeaseChecked(s, env.now);
    if !c.lease.valid {
      UnboundTimed(c, env);
    } else if Elapsed(c.lease, env.now) < c.lease.times.t2 {
      RenewSentTimed(c, env);
    } else {
      RebindSentTimed(c, env);
    }
  }

  lemma BoundTimed(s: State, env: Env)
    requires Coherent(s) && Stateful(s.mode)
    ensures Timed(BoundStarted(s, env))
  {
    var b := BoundEntered(s);
    if HasLease(s) {
      CoherentNormal(s);
      var elapsed := if b.lease.times.valid == INFINITE then 0 else Elapsed(b.lease, env.now);
      InstalledOk(b, elapsed, env);
      InstalledTimed(b, elapsed, env);
      if env.now >= s.lease.start {
        ElapsedBounds(s.lease, env.now);
      }
    }
  }

  lemma InstalledTimed(s: State, elapsed: nat, env: Env)
    requires s.timer == None
    ensures !IsRenewTimeout(Installed(s, elapsed, env).timer)
  {
  }

  lemma SavedThenBoundTimed(s: State, p: Packet, env: Env)
    requires Inv(s) && Choose(IAOf(p, s.mode)).Some? && Stateful(s.mode) && p.server.Some?
    ensures Timed(BoundStarted(PacketSaved(s, p, env), env))
  {
    PacketSavedBacks(s, p, env);
    BoundTimed(PacketSaved(s, p, env), env);
  }

  lemma RequestReceivedTimed(s: State, p: Packet, env: Env)
    requires Inv(s) && Timed(s) && s.receive == Some(OnRequest)
    ensures Timed(RequestReceived(s, p, env))
  {
    if Choose(IAOf(p, s.mode)).Some? && Stateful(s.mode) && p.server.Some? {
      SavedThenBoundTimed(s, p, env);
    }
  }

  lemma RenewReceivedTimed(s: State, p: Packet, env: Env)
    requires Inv(s) && Timed(s) && s.receive == Some(OnRenewRebind)
    ensures Timed(RenewReceived(s, p, env))
  {
    if Choose(IAOf(p, s.mode)).Some? && Stateful(s.mode) && p.server.Some? {
      SavedThenBoundTimed(s, p, env);
    }
  }

  lemma ConfirmReceivedTimed(s: State, p: Packet, env: Env)
    requires Inv(s) && Timed(s) && s.receive == Some(OnConfirm)
    ensures Timed(ConfirmReceived(s, p, env))
  {
    if Choose(IAOf(p, s.mode)).Some? && Stateful(s.mode) && p.server.Some? {
      SavedThenBoundTimed(s, p, env);
    }
    BoundTimed(s, env);
  }

  lemma ReceivedTimed(s: State, p: Packet, env: Env)
    requires Inv(s) && Timed(s) && s.receive.Some?
    ensures Timed(Received(s, p, env))
  {
    match s.receive.value
    case OnSolicit =>
    case OnRequest => RequestReceivedTimed(s, p, env);
    case OnRenewRebind => RenewReceivedTimed(s, p, env);
    case OnConfirm => ConfirmReceivedTimed(s, p, env);
    case OnDecline =>
    case OnInform =>
  }

  lemma RenewStartedTimed(s: State, env: Env)
    requires Coherent(s)
    ensures Timed(RenewStarted(s, env))
  {
    RenewTimedOutTimed(RenewEntered(s, env), env);
  }

  lemma ConfirmTimedOutTimed(s: State, env: Env)
    requires Inv(s) && Stateful(s.mode) && s.timer == None && !Live(s)
    ensures Timed(ConfirmTimedOut(s, env))
  {
    LeaseCheckedOk(s, env.now);
    var c := LeaseChecked(s, env.now);
    if c.lease.valid {
      BoundTimed(c, env);
    } else {
      SolicitTimed(c, env);
    }
  }

  lemma TimerRunTimed(s: State, env: Env)
    requires Inv(s) && Timed(s) && s.timer.Some?
    ensures Timed(TimerRun(s, env))
  {
    var q := s.(timer := None);
    match s.timer.value.handler
    case OnRenewRebind => if s.timer.value.start { RenewStartedTimed(q, env); } else { RenewTimedOutTimed(q, env); }
    case OnConfirm => ConfirmTimedOutTimed(q, env);
    case _ =>
  }

  lemma WokenTimed(s: State, w: Wake, env: Env)
    requires Inv(s) && Timed(s) && Stateful(s.mode)
    ensures Timed(Woken(s, w, env))
  {
    LeaseCheckedOk(s, env.now);
    RenewStartedTimed(LeaseChecked(s, env.now), env);
  }

  lemma StartedTimed(s: State, env: Env)
    requires Timed(s)
    ensures Timed(Started(s, env))
  {
    if s.mode == Stateless {
      InformTimed(s, env);
    } else {
      var c := if SavedInfoValid(s) then LeaseChecked(s, env.now) else s;
      SolicitTimed(c, env);
      ConfirmTimed(c, env);
    }
  }

  lemma ReleasedTimed(s: State, env: Env)
    ensures Timed(ClientReleased(s, env))
  {
  }

  lemma RoamedTimed(s: State, env: Env)
    requires Timed(s)
    ensures Timed(Roamed(s, env))
  {
    ConfirmTimed(LeaseChecked(s, env.now), env);
  }

  /** Every event leaves the pending timer within its bound; waking sets it for the same instant again. */
  lemma StepKeepsTimed(s: State, e: Event, env: Env)
    requires Inv(s) && Timed(s) && Enabled(s, e)
    ensures Timed(Step(s, e, env))
  {
    match e
    case TimerFires => TimerRunTimed(s, env);
    case Receive(p) => ReceivedTimed(s, p, env);
    case WakeEvent(w) => WokenTimed(s, w, env);
    case SetMode(_) =>
    case Stop =>
    case Discard =>
    case Release => ReleasedTimed(s, env);
    case AddressEvent => DeclineTimed(s, env);
    case Roam => RoamedTimed(s, env);
    case SetModeAndStart(m) => StartedTimed(ModeSet(s, m), env);
    case LinkActive => StartedTimed(s, env);
  }

  lemma {:induction false} RunKeepsTimed(s: State, hs: seq<Happening>)
    requires Inv(s) && Timed(s) && CanRun(s, hs)
    ensures Timed(Run(s, hs))
    decreases |hs|
  {
    if hs != [] {
      StepKeepsInv(s, hs[0].e, hs[0].env);
      StepKeepsTimed(s, hs[0].e, hs[0].env);
      RunKeepsTimed(Step(s, hs[0].e, hs[0].env), hs[1..]);
    }
  }

  // ---------------------------------------------------------------- retransmissions

  /** One retransmission for each draw. */
  function Retransmissions(s: State, irt: real, mrt: real, draws: seq<Draw>): State {
    if draws == [] then s
    else NextRetransmit(Retransmissions(s, irt, mrt, draws[..|draws| - 1]), irt, mrt, draws[|draws| - 1])
  }

  lemma {:induction false} RetransmitIsNthTimeout(s: State, irt: real, mrt: real, draws: seq<Draw>)
    requires s.tries == 0 && draws != []
    ensures var q := Retransmissions(s, irt, mrt, draws);
            q.tries == |draws| && q.retransmit == TimeoutAfter(irt, mrt, draws)
  {
    if |draws| > 1 {
      RetransmitIsNthTimeout(s, irt, mrt, draws[..|draws| - 1]);
    } else {
      assert Retransmissions(s, irt, mrt, draws[..0]) == s;
    }
  }

  /** From a cleared counter, the client's n-th wait lies in the envelope, whatever is drawn. */
  lemma {:induction false} ClientWaitsInEnvelope(s: State, irt: real, mrt: real, draws: seq<Draw>)
    requires s.tries == 0 && draws != [] && 0.0 < irt <= mrt
    ensures Lower(Term(0.9 * irt, 1.9, |draws| - 1), 0.9 * mrt)
            <= Retransmissions(s, irt, mrt, draws).retransmit <= 1.1 * mrt
  {
    RetransmitIsNthTimeout(s, irt, mrt, draws);
    CappedEnvelope(irt, mrt, draws);
  }

  // ---------------------------------------------------------------- a silent server

  /** Timer after timer with nothing else happening, each firing on time or late. */
  ghost predicate Silence(s: State, envs: seq<Env>)
    decreases |envs|
  {
    envs == [] || (Live(s) && s.timer.Some? && envs[0].now >= s.timer.value.at
                   && Silence(TimerRun(s, envs[0]), envs[1..]))
  }

  /** A firing either keeps the lease and waits another second at least, or unbinds for good. */
  lemma LiveTimerRun(s: State, env: Env)
    requires Inv(s) && Timed(s) && Live(s) && s.timer.Some?
    ensures var q := TimerRun(s, env);
            if env.now < s.lease.start || env.now >= Expiry(s)
            then q.cstate == Solicit && q.ourIp == 0 && q.lease == NoLease && q.saved == None
            else Live(q) && q.lease == s.lease && q.renewTime >= env.now + 1.0
  {
    var q := s.(timer := None);
    if s.timer.value.start {
      RenewTimedOutTimed(RenewEntered(q, env), env);
    } else {
      RenewTimedOutTimed(q, env);
    }
  }

  /** So a silent server leaves no lease after as many firings as there are seconds left. */
  lemma {:induction false} SilentServerEndsLease(s: State, envs: seq<Env>)
    requires Inv(s) && Timed(s) && Live(s) && Silence(s, envs) && envs != []
    ensures |envs| > 1 ==> envs[0].now + (|envs| - 2) as real < Expiry(s)
    decreases |envs|
  {
    if |envs| > 1 {
      var q := TimerRun(s, envs[0]);
      LiveTimerRun(s, envs[0]);
      assert Live(q);
      StepKeepsInv(s, TimerFires, envs[0]);
      StepKeepsTimed(s, TimerFires, envs[0]);
      SilentServerEndsLease(q, envs[1..]);
      assert envs[1..][0].now >= envs[0].now + 1.0;
    }
  }

  /** The pending timer fires at each of these moments, as long as the lease is held. */
  function Firings(s: State, envs: seq<Env>): State
    requires Inv(s) && Timed(s)
    decreases |envs|
  {
    if envs == [] || !Live(s) then s
    else
      StepKeepsInv(s, TimerFires, envs[0]);
      StepKeepsTimed(s, TimerFires, envs[0]);
      Firings(TimerRun(s, envs[0]), envs[1..])
  }

  predicate NothingHeld(s: State) {
    s.cstate == Solicit && s.ourIp == 0 && s.lease == NoLease && s.saved == None
  }

  /** Firings a second or more apart, up to the end of the lease: a silent server leaves the client in
      Solicit with no address, lease or packet. */
  lemma {:induction false} SilentServerUnbinds(s: State, envs: seq<Env>)
    requires Inv(s) && Timed(s) && Live(s) && envs != []
    requires forall k :: 0 <= k < |envs| - 1 ==> envs[k].now + 1.0 <= envs[k + 1].now
    requires envs[0].now + (|envs| - 1) as real >= Expiry(s)
    ensures NothingHeld(Firings(s, envs))
    decreases |envs|
  {
    var q := TimerRun(s, envs[0]);
    LiveTimerRun(s, envs[0]);
    StepKeepsInv(s, TimerFires, envs[0]);
    StepKeepsTimed(s, TimerFires, envs[0]);
    if envs[0].now < s.lease.start || envs[0].now >= Expiry(s) {
      assert !Live(q) && Firings(q, envs[1..]) == q;
    } else {
      assert envs[0].now + 1.0 <= envs[1].now;
      forall k | 0 <= k < |envs[1..]| - 1 ensures envs[1..][k].now + 1.0 <= envs[1..][k + 1].now {
        assert envs[k + 1].now + 1.0 <= envs[k + 2].now;
      }
      SilentServerUnbinds(q, envs[1..]);
    }
  }

  // ---------------------------------------------------------------- choosing a server

  /** The best Advertise of a list: a later one replaces an earlier only if strictly preferred. */
  function Best(ps: seq<Packet>, m: Mode): Option<Packet> {
    if ps == [] then None
    else
      var b := Best(ps[..|ps| - 1], m);
      var p := ps[|ps| - 1];
      if Usable6(p, m) && (b.None? || b.value.preference < p.preference) then Some(p) else b
  }

  /** That is: the earliest usable one of the greatest preference. */
  lemma {:induction false} BestIsEarliestOfGreatest(ps: seq<Packet>, m: Mode) returns (k: nat)
    requires exists j :: 0 <= j < |ps| && Usable6(ps[j], m)
    ensures k < |ps| && Best(ps, m) == Some(ps[k]) && Usable6(ps[k], m)
    ensures forall j :: 0 <= j < |ps| && Usable6(ps[j], m) ==>
              ps[j].preference <= ps[k].preference && (j < k ==> ps[j].preference < ps[k].preference)
  {
    var last := |ps| - 1;
    var before := ps[..last];
    if exists j :: 0 <= j < last && Usable6(before[j], m) {
      var i := BestIsEarliestOfGreatest(before, m);
      k := if Best(ps, m) == Best(before, m) && !(Usable6(ps[last], m) && before[i].preference < ps[last].preference) then i else last;
      forall j | 0 <= j < |ps| && Usable6(ps[j], m)
        ensures ps[j].preference <= ps[k].preference && (j < k ==> ps[j].preference < ps[k].preference)
      {
        if j < last {
          assert before[j] == ps[j];
        }
      }
    } else {
      NoneUsable(before, m);
      k := last;
      assert forall j :: 0 <= j < last ==> ps[j] == before[j];
    }
  }

  lemma {:induction false} NoneUsable(ps: seq<Packet>, m: Mode)
    requires forall j :: 0 <= j < |ps| ==> !Usable6(ps[j], m)
    ensures Best(ps, m) == None
  {
    if ps != [] {
      NoneUsable(ps[..|ps| - 1], m);
    }
  }

  datatype Arrival = Arrival(p: Packet, env: Env)

  function Packets(arrivals: seq<Arrival>): (ps: seq<Packet>)
    ensures |ps| == |arrivals| && forall k :: 0 <= k < |ps| ==> ps[k] == arrivals[k].p
  {
    seq(|arrivals|, k requires 0 <= k < |arrivals| => arrivals[k].p)
  }

  /** A wait in Solicit: packets arrive, each in its own moment, and nothing else happens. */
  function Advertised(s: State, arrivals: seq<Arrival>): State {
    if arrivals == [] then s
    else
      var last := arrivals[|arrivals| - 1];
      SolicitReceived(Advertised(s, arrivals[..|arrivals| - 1]), last.p, last.env)
  }

  /**
   During the first wait the saved packet is always the best so far, and the client stays in Solicit
   as long as no usable one of the greatest possible preference arrives.
   */
  lemma {:induction false} SavedIsBest(s: State, arrivals: seq<Arrival>)
    requires s.cstate == Solicit && Stateful(s.mode) && s.saved == None && s.tries <= 1
    requires forall a :: a in arrivals && Usable6(a.p, s.mode) ==> a.p.preference != MAX_PREFERENCE
    ensures var q := Advertised(s, arrivals);
            && q.cstate == Solicit && q.mode == s.mode && q.tries == s.tries
            && q.saved == Best(Packets(arrivals), s.mode)
  {
    if arrivals != [] {
      var before := arrivals[..|arrivals| - 1];
      SavedIsBest(s, before);
      assert Packets(arrivals)[..|before|] == Packets(before);
    }
  }

  lemma {:induction false} BestIsOneOf(ps: seq<Packet>, m: Mode)
    ensures Best(ps, m).Some? ==> Usable6(Best(ps, m).value, m) && Best(ps, m).value in ps
  {
    if ps != [] {
      BestIsOneOf(ps[..|ps| - 1], m);
    }
  }

  /** The first wait is cut short by the first usable Advertise of the greatest preference and by no
      other, and that is the one requested. */
  lemma {:induction false} FirstWaitEndsIff(s: State, arrivals: seq<Arrival>, a: Arrival)
    requires s.cstate == Solicit && Stateful(s.mode) && s.saved == None && s.tries <= 1
    requires forall b :: b in arrivals && Usable6(b.p, s.mode) ==> b.p.preference != MAX_PREFERENCE
    ensures var q := SolicitReceived(Advertised(s, arrivals), a.p, a.env);
            && (q.cstate != Solicit <==> Usable6(a.p, s.mode) && a.p.preference == MAX_PREFERENCE)
            && (q.cstate != Solicit ==> q.cstate == Request && q.saved == Some(a.p))
  {
    SavedIsBest(s, arrivals);
    BestIsOneOf(Packets(arrivals), s.mode);
    var q := Advertised(s, arrivals);
    assert q.saved.Some? ==> q.saved.value.preference < MAX_PREFERENCE;
  }

  /** A usable Advertise moves to Request at once exactly when it is saved and is of the greatest
      preference or comes after the first wait; Request then answers that packet. */
  lemma MovesToRequestIff(s: State, p: Packet, env: Env)
    requires Inv(s) && s.cstate == Solicit
    ensures var q := SolicitReceived(s, p, env);
            && (q.cstate == Request <==>
                  && Usable6(p, s.mode) && (s.saved.Some? ==> s.saved.value.preference < p.preference)
                  && (s.tries > 1 || p.preference == MAX_PREFERENCE))
            && (q.cstate == Request ==> q.saved == Some(p) && q.serverId == p.server && q.lastSent == RequestMessage)
  {
    if Usable6(p, s.mode) {
      PacketSavedBacks(s, p, env);
    }
  }

  /** When the wait is over, Request is entered with what was saved, if anything was. */
  lemma WaitOverRequestsIff(s: State, env: Env)
    requires Inv(s) && s.cstate == Solicit && !(s.tries > 0 && env.linkInactive)
    ensures SolicitTimedOut(s, env).cstate == Request <==> s.saved.Some?
    ensures SolicitTimedOut(s, env).saved == s.saved
  {
  }
}
