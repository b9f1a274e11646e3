/**
 The DHCPv6 lease a packet carries: which address or prefix is taken from its identity association,
 and how T1, T2 and the lifetimes are normalised before they are saved.
 */
module Dhcp6Lease {
  import opened Common

  type UInt32 = n: nat | n < 0x1_0000_0000

  const INFINITE: UInt32 := 0xffff_ffff

  /** An IAADDR or IAPREFIX option, perhaps too short to read, or any other option. */
  datatype SubOption =
    | Address(short: bool, address: nat, preferred: UInt32, valid: UInt32)
    | Other

  /** An IA_NA or IA_PD option: `long` when there is something after its fixed part, whose options may
      not parse; `status` is None when the status code option is malformed. */
  datatype IA = IA(long: bool, t1: UInt32, t2: UInt32, options: Option<seq<SubOption>>, status: Option<nat>)

  datatype Chosen = Chosen(ia: IA, address: SubOption)

  // ---------------------------------------------------------------- the option the code takes

  function FindFrom(subs: seq<SubOption>, i: nat): (r: nat)
    ensures i <= |subs| ==> i <= r <= |subs|
    ensures i >= |subs| ==> r == |subs|
    ensures r < |subs| ==> subs[r].Address?
    ensures forall k :: i <= k < r ==> subs[k].Other?
    decreases |subs| - i
  {
    if i >= |subs| then |subs|
    else if subs[i].Address? then i
    else FindFrom(subs, i + 1)
  }

  predicate Zero(o: SubOption) { o.Address? && !o.short && (o.valid == 0 || o.preferred == 0) }

  predicate Usable(o: SubOption) { o.Address? && !o.short && 0 < o.preferred <= o.valid }

  /** The scan as written: a lookup leaves the index after the option found, and the loop adds one more. */
  function Scan(subs: seq<SubOption>, i: nat): (r: Option<nat>)
    ensures r.Some? ==> i <= r.value < |subs| && Usable(subs[r.value])
    decreases |subs| + 1 - i
  {
    var j := FindFrom(subs, i);
    if j == |subs| || subs[j].short then None
    else if Zero(subs[j]) then Scan(subs, j + 2)
    else if subs[j].preferred > subs[j].valid then None
    else Some(j)
  }

  // ---------------------------------------------------------------- the option it should take

  /** The option that decides: the first address option that cannot be passed over for a zero lifetime. */
  predicate Decisive(o: SubOption) { o.Address? && !Zero(o) }

  ghost predicate FirstDecisive(subs: seq<SubOption>, d: nat) {
    d < |subs| && Decisive(subs[d]) && forall k :: 0 <= k < d ==> !Decisive(subs[k])
  }

  /** How many zero-lifetime options come immediately before position `d`. */
  function ZeroRun(subs: seq<SubOption>, d: nat): nat
    requires d <= |subs|
  {
    if d > 0 && Zero(subs[d - 1]) then 1 + ZeroRun(subs, d - 1) else 0
  }

  lemma ScanPasses(subs: seq<SubOption>, i: nat)
    requires i <= |subs| && FindFrom(subs, i) < |subs| && Zero(subs[FindFrom(subs, i)])
    ensures Scan(subs, i) == Scan(subs, FindFrom(subs, i) + 2)
  {
  }

  lemma {:induction false} ScanSkips(subs: seq<SubOption>, i: nat, k: nat)
    requires i <= k <= FindFrom(subs, i) && i <= |subs|
    ensures Scan(subs, i) == Scan(subs, k)
  {
    FindSkips(subs, i, k);
  }

  lemma {:induction false} FindSkips(subs: seq<SubOption>, i: nat, k: nat)
    requires i <= k <= FindFrom(subs, i) && i <= |subs|
    ensures FindFrom(subs, k) == FindFrom(subs, i)
    decreases k - i
  {
    if i < k {
      FindSkips(subs, i + 1, k);
    }
  }

  /** Before the run, what the scan finds is a zero option that is not the run's neighbour. */
  lemma {:induction false} PassedBeforeRun(subs: seq<SubOption>, i: nat, d: nat)
    requires d < |subs| && ZeroRun(subs, d) <= d && i <= FindFrom(subs, i) < d - ZeroRun(subs, d)
    requires forall k :: i <= k < d ==> !Decisive(subs[k])
    ensures Zero(subs[FindFrom(subs, i)]) && FindFrom(subs, i) + 2 <= d - ZeroRun(subs, d)
  {
    RunIsMaximal(subs, d);
  }

  lemma {:induction false} ScanReachesRun(subs: seq<SubOption>, i: nat, d: nat)
    requires d < |subs| && Decisive(subs[d])
    requires forall k :: i <= k < d ==> !Decisive(subs[k])
    requires i <= d - ZeroRun(subs, d)
    ensures Scan(subs, i) == Scan(subs, d - ZeroRun(subs, d))
    decreases d - i
  {
    var start := d - ZeroRun(subs, d);
    if FindFrom(subs, i) >= start {
      ScanSkips(subs, i, start);
    } else {
      PassedBeforeRun(subs, i, d);
      ScanPasses(subs, i);
      ScanReachesRun(subs, FindFrom(subs, i) + 2, d);
    }
  }

  lemma {:induction false} RunIsMaximal(subs: seq<SubOption>, d: nat)
    requires d <= |subs|
    ensures ZeroRun(subs, d) <= d
    ensures var start := d - ZeroRun(subs, d);
            && (start > 0 ==> !Zero(subs[start - 1]))
            && (forall k :: start <= k < d ==> Zero(subs[k]))
  {
    if d > 0 && Zero(subs[d - 1]) {
      RunIsMaximal(subs, d - 1);
    }
  }

  lemma {:induction false} ScanInRun(subs: seq<SubOption>, i: nat, d: nat)
    requires i <= d < |subs| && Decisive(subs[d])
    requires forall k :: i <= k < d ==> Zero(subs[k])
    ensures Scan(subs, i) == if (d - i) % 2 == 0 then Scan(subs, d) else Scan(subs, d + 1)
    decreases d - i
  {
    if i < d {
      assert FindFrom(subs, i) == i;
      if i + 1 < d {
        ScanInRun(subs, i + 2, d);
      }
    }
  }

  /** The scan sees the first option that decides exactly when an even run of zeros leads up to it. */
  lemma {:induction false} ScanSkipsOddRun(subs: seq<SubOption>, d: nat)
    requires FirstDecisive(subs, d)
    ensures Scan(subs, 0) ==
            if ZeroRun(subs, d) % 2 == 1 then Scan(subs, d + 1)
            else if Usable(subs[d]) then Some(d) else None
  {
    RunIsMaximal(subs, d);
    ScanReachesRun(subs, 0, d);
    ScanInRun(subs, d - ZeroRun(subs, d), d);
  }

  /** So the first address with non-zero lifetimes is the one taken if and only if that run is even. */
  lemma {:induction false} FirstUsableTakenIff(subs: seq<SubOption>, d: nat)
    requires FirstDecisive(subs, d) && Usable(subs[d])
    ensures Scan(subs, 0) == Some(d) <==> ZeroRun(subs, d) % 2 == 0
  {
    ScanSkipsOddRun(subs, d);
  }

  lemma {:induction false} NoneDecisive(subs: seq<SubOption>, i: nat)
    requires forall k :: i <= k < |subs| ==> !Decisive(subs[k])
    ensures Scan(subs, i) == None
    decreases |subs| + 1 - i
  {
    var j := FindFrom(subs, i);
    if j < |subs| {
      NoneDecisive(subs, j + 2);
    }
  }

  /** One withdrawn address is enough to hide a good one. */
  lemma WithdrawnHidesGood()
    ensures Scan([Address(false, 1, 0, 0), Address(false, 2, 300, 600)], 0) == None
  {
    var subs := [Address(false, 1, 0, 0), Address(false, 2, 300, 600)];
    assert FirstDecisive(subs, 1) && ZeroRun(subs, 1) == 1;
    ScanSkipsOddRun(subs, 1);
  }

  // ---------------------------------------------------------------- the identity association

  function Choose(ia: Option<IA>): (r: Option<Chosen>)
    ensures r.Some? ==> ia == Some(r.value.ia) && Usable(r.value.address) && T1BeforeT2(r.value.ia)
  {
    if ia.None? || !ia.value.long || !T1BeforeT2(ia.value) || ia.value.options.None? || ia.value.status.None? then None
    else
      match Scan(ia.value.options.value, 0)
      case None => None
      case Some(j) => Some(Chosen(ia.value, ia.value.options.value[j]))
  }

  predicate T1BeforeT2(ia: IA) { ia.t1 != 0 && ia.t2 != 0 ==> ia.t1 <= ia.t2 }

  /** The status code reported beside the choice: success when nothing was read. */
  function StatusOf(ia: Option<IA>): nat {
    if ia.None? || !ia.value.long || !T1BeforeT2(ia.value) || ia.value.options.None? || ia.value.status.None? then 0
    else ia.value.status.value
  }

  method GetIA(ia: Option<IA>) returns (chosen: Option<Chosen>, code: nat)
    ensures chosen == Choose(ia) && code == StatusOf(ia)
  {
    code := 0;
    if ia.None? || !ia.value.long {
      return None, code;
    }
    if ia.value.t1 != 0 && ia.value.t2 != 0 {
      if ia.value.t1 > ia.value.t2 {
        return None, code;
      }
    }
    if ia.value.options.None? {
      return None, code;
    }
    var subs := ia.value.options.value;
    if ia.value.status.None? {
      return None, code;
    }
    code := ia.value.status.value;
    var start := 0;
    while true
      invariant Scan(subs, start) == Scan(subs, 0)
      decreases |subs| + 1 - start
    {
      var found: Option<SubOption>;
      found, start := GetOption(subs, start);
      if found.None? || found.value.short {
        return None, code;
      }
      var a := found.value;
      if a.valid == 0 || a.preferred == 0 {
        start := start + 1;
      } else if a.preferred > a.valid {
        return None, code;
      } else {
        return Some(Chosen(ia.value, a)), code;
      }
    }
  }

  /** The next address option, and the index one past it. */
  method GetOption(subs: seq<SubOption>, start: nat) returns (found: Option<SubOption>, next: nat)
    ensures var j := FindFrom(subs, start);
            if j == |subs| then found == None else found == Some(subs[j]) && next == j + 1
  {
    var i := start;
    while i < |subs|
      invariant FindFrom(subs, i) == FindFrom(subs, start)
    {
      if subs[i].Address? {
        return Some(subs[i]), i + 1;
      }
      i := i + 1;
    }
    return None, start;
  }

  // ---------------------------------------------------------------- normalisation

  datatype Times = Times(t1: UInt32, t2: UInt32, preferred: UInt32, valid: UInt32)

  function Normalised(c: Chosen): Times
    requires c.address.Address?
  {
    var valid := c.address.valid;
    var preferred := if c.address.preferred == 0 then valid else c.address.preferred;
    var unset := c.ia.t1 == 0 || c.ia.t2 == 0;
    var forever := !unset && (c.ia.t1 == INFINITE || c.ia.t2 == INFINITE);
    if forever || valid == INFINITE then Times(0, 0, INFINITE, INFINITE)
    else if !unset then Times(c.ia.t1, c.ia.t2, preferred, valid)
    else if preferred == INFINITE then Times(0, 0, preferred, valid)
    else Times(preferred / 2, preferred * 4 / 5, preferred, valid)
  }

  predicate Normal(x: Times) {
    && x.t1 <= x.t2
    && 0 < x.preferred <= x.valid
    && (x.valid == INFINITE <==> x.preferred == INFINITE)
    && (x.valid == INFINITE ==> x.t1 == x.t2 == 0)
  }

  lemma ChosenIsNormal(ia: Option<IA>)
    requires Choose(ia).Some?
    ensures Normal(Normalised(Choose(ia).value))
  {
    var c := Choose(ia).value;
    var p: int := c.address.preferred;
    assert p / 2 <= p * 4 / 5;
  }

  /** T1 and T2 lie within the preferred lifetime whenever the client computes them; a server's own
      values are only checked against each other. */
  lemma T2WithinPreferredIff(ia: Option<IA>)
    requires Choose(ia).Some?
    ensures var c := Choose(ia).value; var x := Normalised(c);
            x.t2 <= x.preferred <==>
              || c.ia.t1 == 0 || c.ia.t1 == INFINITE || c.ia.t2 == INFINITE || c.address.valid == INFINITE
              || c.ia.t2 <= c.address.preferred
  {
    var p: int := Choose(ia).value.address.preferred;
    assert p * 4 / 5 <= p;
  }

  method Normalise(c: Chosen) returns (x: Times)
    requires c.address.Address?
    ensures x == Normalised(c)
  {
    var t1, t2 := c.ia.t1, c.ia.t2;
    var valid, preferred := c.address.valid, c.address.preferred;
    if preferred == 0 {
      preferred := valid;
    }
    if t1 == 0 || t2 == 0 {
      if preferred == INFINITE {
        t1, t2 := 0, 0;
      } else {
        var p: int := preferred;
        t1 := p / 2;
        t2 := p * 4 / 5;
      }
    } else if t1 == INFINITE || t2 == INFINITE {
      t1, t2 := 0, 0;
      preferred := INFINITE;
      valid := INFINITE;
    }
    if valid == INFINITE {
      x := Times(0, 0, INFINITE, valid);
    } else {
      x := Times(t1, t2, preferred, valid);
    }
  }
}
