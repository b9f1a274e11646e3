/**
 The pool of CLAT46 IPv4 addresses 192.0.0.2 to 192.0.0.5 shared by the router-advertisement
 services.  Four use counters, 16 bits wide, stand beside the address each service remembers.
 */
module Clat46 {
  const ADDRESS_START: nat := 2
  const ADDRESS_COUNT: nat := 4
  const COUNTER_MODULUS: nat := 0x1_0000

  type ServiceId = nat

  /** `partial` is the last byte of the address a service holds, 0 for none. */
  datatype Service = Service(partial: nat, active: bool)

  datatype Pool = Pool(use: seq<nat>, services: map<ServiceId, Service>)

  datatype Event =
    | AddService(id: ServiceId)
    | SetAddress(id: ServiceId, addressAdded: bool, translationStarted: bool)
    | RemoveAddress(id: ServiceId)
    | ServiceFailed(id: ServiceId)
    | StopService(id: ServiceId)

  // ---------------------------------------------------------------- what the code computes

  /** The first unused index, or index 0 when all are in use. */
  function PickFrom(use: seq<nat>, i: nat): (which: nat)
    requires |use| == ADDRESS_COUNT && i <= ADDRESS_COUNT
    ensures which < ADDRESS_COUNT
    ensures use[which] != 0 ==> which == 0 && forall j :: i <= j < ADDRESS_COUNT ==> use[j] != 0
    decreases ADDRESS_COUNT - i
  {
    if i == ADDRESS_COUNT then 0
    else if use[i] == 0 then i
    else PickFrom(use, i + 1)
  }

  function Allocated(use: seq<nat>): (r: seq<nat>)
    requires |use| == ADDRESS_COUNT
    ensures |r| == ADDRESS_COUNT
  {
    var which := PickFrom(use, 0);
    use[which := (use[which] + 1) % COUNTER_MODULUS]
  }

  function Released(use: seq<nat>, partial: nat): (r: seq<nat>)
    requires |use| == ADDRESS_COUNT
    ensures |r| == ADDRESS_COUNT
  {
    var which := partial - ADDRESS_START;
    if which < 0 || which >= ADDRESS_COUNT || use[which] == 0 then use
    else use[which := use[which] - 1]
  }

  function AfterSet(p: Pool, id: ServiceId, addressAdded: bool, translationStarted: bool): (r: Pool)
    requires |p.use| == ADDRESS_COUNT && id in p.services
    ensures |r.use| == ADDRESS_COUNT && r.services.Keys == p.services.Keys
  {
    if p.services[id].active then p
    else
      var partial := PickFrom(p.use, 0) + ADDRESS_START;
      if addressAdded && translationStarted then
        Pool(Allocated(p.use), p.services[id := Service(partial, true)])
      else
        Pool(Released(Allocated(p.use), partial), p.services)
  }

  function AfterRemove(p: Pool, id: ServiceId): (r: Pool)
    requires |p.use| == ADDRESS_COUNT && id in p.services
    ensures |r.use| == ADDRESS_COUNT && r.services.Keys == p.services.Keys
  {
    var partial := p.services[id].partial;
    Pool(if partial != 0 then Released(p.use, partial) else p.use,
         p.services[id := Service(0, false)])
  }

  predicate Enabled(p: Pool, e: Event) {
    && |p.use| == ADDRESS_COUNT
    && (if e.AddService? then e.id !in p.services else e.id in p.services)
  }

  function Step(p: Pool, e: Event): (r: Pool)
    requires Enabled(p, e)
  {
    match e
    case AddService(id) => p.(services := p.services[id := Service(0, false)])
    case SetAddress(id, added, started) => AfterSet(p, id, added, started)
    case RemoveAddress(id) => AfterRemove(p, id)
    case ServiceFailed(id) => AfterRemove(p, id)
    case StopService(id) =>
      var q := AfterRemove(p, id);
      q.(services := q.services - {id})
  }

  // ---------------------------------------------------------------- the code

  class AddressPool {
    const useCount: array<nat>
    var services: map<ServiceId, Service>

    ghost predicate Valid()
      reads this
    {
      useCount.Length == ADDRESS_COUNT
    }

    ghost function View(): Pool
      reads this, useCount
    {
      Pool(useCount[..], services)
    }

    constructor ()
      ensures Valid() && fresh(useCount)
      ensures View() == Pool([0, 0, 0, 0], map[])
    {
      useCount := new nat[ADDRESS_COUNT](_ => 0);
      services := map[];
    }

    method Allocate() returns (partial: nat)
      requires Valid()
      modifies useCount
      ensures useCount[..] == Allocated(old(useCount[..]))
      ensures partial == PickFrom(old(useCount[..]), 0) + ADDRESS_START
    {
      var which := 0;
      var i := 0;
      while i < ADDRESS_COUNT
        invariant 0 <= i <= ADDRESS_COUNT && which == 0
        invariant PickFrom(useCount[..], i) == PickFrom(useCount[..], 0)
      {
        if useCount[i] == 0 {
          which := i;
          break;
        }
        i := i + 1;
      }
      partial := which + ADDRESS_START;
      assert which == PickFrom(useCount[..], 0);
      useCount[which] := (useCount[which] + 1) % COUNTER_MODULUS;
    }

    method Release(partial: nat)
      requires Valid()
      modifies useCount
      ensures useCount[..] == Released(old(useCount[..]), partial)
    {
      if partial < ADDRESS_START || partial > ADDRESS_START + ADDRESS_COUNT - 1 {
        return;
      }
      var which := partial - ADDRESS_START;
      if useCount[which] == 0 {
        return;
      }
      useCount[which] := useCount[which] - 1;
    }

    method SetAddress(id: ServiceId, addressAdded: bool, translationStarted: bool) returns (success: bool)
      requires Valid() && id in services
      modifies this, useCount
      ensures Valid() && View() == AfterSet(old(View()), id, addressAdded, translationStarted)
      ensures success == (old(services[id].active) || (addressAdded && translationStarted))
    {
      success := false;
      if services[id].active {
        return true;
      }
      var partial := Allocate();
      var active := false;
      if addressAdded {
        if translationStarted {
          active := true;
          success := true;
        }
      }
      if success {
        services := services[id := Service(partial, active)];
      } else if partial != 0 {
        Release(partial);
      }
    }

    method RemoveAddressOnly(id: ServiceId)
      requires Valid() && id in services
      modifies this, useCount
      ensures Valid()
      ensures View() == AfterRemove(old(View()), id).(services := old(services)[id := old(services[id]).(partial := 0)])
    {
      var partial := services[id].partial;
      if partial != 0 {
        Release(partial);
        services := services[id := services[id].(partial := 0)];
      }
      assert services == old(services)[id := old(services[id]).(partial := 0)];
    }

    /** The flag is cleared after the address; `ServiceFailed` unpublishes in between. */
    method RemoveAddress(id: ServiceId)
      requires Valid() && id in services
      modifies this, useCount
      ensures Valid() && View() == AfterRemove(old(View()), id)
    {
      RemoveAddressOnly(id);
      services := services[id := services[id].(active := false)];
    }

    method Stop(id: ServiceId)
      requires Valid() && id in services
      modifies this, useCount
      ensures Valid() && View() == Step(old(View()), StopService(id))
    {
      RemoveAddress(id);
      services := services - {id};
    }
  }

  // ---------------------------------------------------------------- conservation

  /** The services holding the address of counter `which`. */
  ghost function HolderSet(services: map<ServiceId, Service>, which: nat): set<ServiceId> {
    set id | id in services && services[id].partial == which + ADDRESS_START
  }

  ghost function Holders(p: Pool): set<ServiceId> {
    set id | id in p.services && p.services[id].partial != 0
  }

  /** Every counter is the number of services holding that address; active means holding one. */
  ghost predicate Conserved(p: Pool) {
    && |p.use| == ADDRESS_COUNT
    && (forall i :: 0 <= i < ADDRESS_COUNT ==>
          p.use[i] == |HolderSet(p.services, i)| < COUNTER_MODULUS)
    && (forall id :: id in p.services ==>
          && p.services[id].active == (p.services[id].partial != 0)
          && (p.services[id].partial != 0 ==>
                ADDRESS_START <= p.services[id].partial < ADDRESS_START + ADDRESS_COUNT))
  }

  /** The step would increment a counter that has reached its 16-bit maximum. */
  predicate CounterWraps(p: Pool, e: Event)
    requires Enabled(p, e)
  {
    && e.SetAddress?
    && !p.services[e.id].active
    && p.use[PickFrom(p.use, 0)] == COUNTER_MODULUS - 1
  }

  lemma HolderSetUpdate(services: map<ServiceId, Service>, id: ServiceId, s: Service, which: nat)
    ensures var after := HolderSet(services[id := s], which);
            after == if s.partial == which + ADDRESS_START then HolderSet(services, which) + {id}
                     else HolderSet(services, which) - {id}
  {
  }

  /** Each step keeps the books exactly unless it overflows a counter. */
  lemma StepConserves(p: Pool, e: Event)
    requires Conserved(p) && Enabled(p, e)
    ensures Conserved(Step(p, e)) <==> !CounterWraps(p, e)
  {
    match e {
      case AddService(id) =>
        FreshHoldsNothing(p, id);
      case SetAddress(id, added, started) =>
        SetConserves(p, id, added, started);
      case RemoveAddress(id) =>
        RemoveConserves(p, id);
      case ServiceFailed(id) =>
        RemoveConserves(p, id);
      case StopService(id) =>
        RemoveConserves(p, id);
        var q := AfterRemove(p, id);
        forall i: nat ensures HolderSet(q.services - {id}, i) == HolderSet(q.services, i) {}
    }
  }

  lemma FreshHoldsNothing(p: Pool, id: ServiceId)
    requires Conserved(p) && id !in p.services
    ensures Conserved(p.(services := p.services[id := Service(0, false)]))
  {
    forall i | 0 <= i < ADDRESS_COUNT
      ensures HolderSet(p.services[id := Service(0, false)], i)
              == HolderSet(p.services, i)
    {
      HolderSetUpdate(p.services, id, Service(0, false), i);
    }
  }

  lemma SetConserves(p: Pool, id: ServiceId, added: bool, started: bool)
    requires Conserved(p) && id in p.services
    ensures Conserved(AfterSet(p, id, added, started)) <==> !CounterWraps(p, SetAddress(id, added, started))
  {
    var which := PickFrom(p.use, 0);
    if !p.services[id].active && added && started {
      var s := Service(which + ADDRESS_START, true);
      var q := AfterSet(p, id, added, started);
      forall i | 0 <= i < ADDRESS_COUNT
        ensures |HolderSet(q.services, i)|
                == |HolderSet(p.services, i)| + if i == which then 1 else 0
      {
        HolderSetUpdate(p.services, id, s, i);
        assert id !in HolderSet(p.services, i);
      }
    }
  }

  lemma RemoveConserves(p: Pool, id: ServiceId)
    requires Conserved(p) && id in p.services
    ensures Conserved(AfterRemove(p, id))
    ensures p.services[id].partial != 0 ==> p.use[p.services[id].partial - ADDRESS_START] != 0
  {
    var partial := p.services[id].partial;
    var q := AfterRemove(p, id);
    if partial != 0 {
      assert id in HolderSet(p.services, partial - ADDRESS_START);
    }
    forall i | 0 <= i < ADDRESS_COUNT
      ensures |HolderSet(q.services, i)|
              == |HolderSet(p.services, i)| - if partial == i + ADDRESS_START then 1 else 0
    {
      HolderSetUpdate(p.services, id, Service(0, false), i);
    }
  }

  /** Overflow needs more services than the counter can hold. */
  lemma WrapNeedsManyServices(p: Pool, e: Event)
    requires Conserved(p) && Enabled(p, e) && CounterWraps(p, e)
    ensures |p.services| >= COUNTER_MODULUS
  {
    var which := PickFrom(p.use, 0);
    var holding := HolderSet(p.services, which);
    assert e.id !in holding;
    SubsetSize(holding + {e.id}, p.services.Keys);
  }

  lemma SubsetSize(a: set<ServiceId>, b: set<ServiceId>)
    requires a <= b
    ensures |a| <= |b|
  {
    assert b == a + (b - a);
  }

  // ---------------------------------------------------------------- runs and the pigeonhole

  ghost predicate RunOf(states: seq<Pool>, events: seq<Event>) {
    && |states| == |events| + 1
    && states[0] == Pool([0, 0, 0, 0], map[])
    && forall k {:trigger events[k]} :: 0 <= k < |events| ==>
         Enabled(states[k], events[k]) && states[k + 1] == Step(states[k], events[k])
  }

  /** Over any run with fewer than 65536 services, the counters are exact in every state. */
  lemma {:induction false} RunConserves(states: seq<Pool>, events: seq<Event>, k: nat)
    requires RunOf(states, events) && k < |states|
    requires forall j :: 0 <= j < |states| ==> |states[j].services| < COUNTER_MODULUS
    ensures Conserved(states[k])
  {
    if k > 0 {
      RunConserves(states, events, k - 1);
      StepConserves(states[k - 1], events[k - 1]);
      if CounterWraps(states[k - 1], events[k - 1]) {
        WrapNeedsManyServices(states[k - 1], events[k - 1]);
        assert false;
      }
    } else {
      forall i | 0 <= i < ADDRESS_COUNT ensures HolderSet(states[0].services, i) == {} {}
    }
  }

  /** Pairwise disjoint sets have as many elements together as apart. */
  lemma SizeOfFour(a: set<ServiceId>, b: set<ServiceId>, c: set<ServiceId>, d: set<ServiceId>)
    requires a !! b && (a + b) !! c && (a + b + c) !! d
    ensures |a + b + c + d| == |a| + |b| + |c| + |d|
  {
    assert |a + b| == |a| + |b|;
    assert |a + b + c| == |a + b| + |c|;
  }

  lemma HoldersByAddress(p: Pool)
    requires Conserved(p)
    ensures Holders(p) == HolderSet(p.services, 0) + HolderSet(p.services, 1)
                          + HolderSet(p.services, 2) + HolderSet(p.services, 3)
  {
  }

  lemma HoldersAreTheSum(p: Pool)
    requires Conserved(p)
    ensures |Holders(p)| == p.use[0] + p.use[1] + p.use[2] + p.use[3]
  {
    HoldersByAddress(p);
    SizeOfFour(HolderSet(p.services, 0), HolderSet(p.services, 1), HolderSet(p.services, 2), HolderSet(p.services, 3));
    forall i | 0 <= i < ADDRESS_COUNT ensures p.use[i] == |HolderSet(p.services, i)| {}
  }

  ghost predicate NoneShared(p: Pool) {
    forall i :: 0 <= i < |p.use| ==> p.use[i] <= 1
  }

  /** With at most three holders some counter is zero, so a new holder gets its own address. */
  lemma StepKeepsUnshared(p: Pool, e: Event)
    requires Conserved(p) && Enabled(p, e) && NoneShared(p)
    requires Conserved(Step(p, e)) && |Holders(Step(p, e))| <= ADDRESS_COUNT
    ensures NoneShared(Step(p, e))
  {
    HoldersAreTheSum(p);
    HoldersAreTheSum(Step(p, e));
    if e.SetAddress? && !p.services[e.id].active && p.use[PickFrom(p.use, 0)] != 0 {
      assert p.use[0] == 1 && p.use[1] == 1 && p.use[2] == 1 && p.use[3] == 1;
    }
  }

  lemma UnsharedMeansDistinct(p: Pool, a: ServiceId, b: ServiceId)
    requires Conserved(p) && NoneShared(p)
    requires a in Holders(p) && b in Holders(p) && a != b
    ensures p.services[a].partial != p.services[b].partial
  {
    if p.services[a].partial == p.services[b].partial {
      var which := p.services[a].partial - ADDRESS_START;
      assert p.use[which] <= 1;
      SubsetSize({a, b}, HolderSet(p.services, which));
      assert false;
    }
  }

  ghost predicate Distinct(p: Pool) {
    forall a, b :: a in Holders(p) && b in Holders(p) && a != b ==> p.services[a].partial != p.services[b].partial
  }

  lemma UnsharedIffDistinct(p: Pool)
    requires Conserved(p)
    ensures NoneShared(p) <==> Distinct(p)
  {
    if NoneShared(p) {
      forall a, b | a in Holders(p) && b in Holders(p) && a != b
        ensures p.services[a].partial != p.services[b].partial
      {
        UnsharedMeansDistinct(p, a, b);
      }
    } else {
      var i :| 0 <= i < |p.use| && p.use[i] > 1;
      TwoOfMany(HolderSet(p.services, i));
    }
  }

  lemma TwoOfMany(s: set<ServiceId>)
    requires |s| > 1
    ensures exists a, b :: a in s && b in s && a != b
  {
    var a :| a in s;
    var rest := s - {a};
    assert |rest| == |s| - 1;
    var b :| b in rest;
    assert a in s && b in s && a != b;
  }

  /** The pigeonhole: with more holders than addresses two of them share one. */
  lemma FifthHolderShares(p: Pool)
    requires Conserved(p) && |Holders(p)| > ADDRESS_COUNT
    ensures exists a, b :: a in Holders(p) && b in Holders(p) && a != b
                           && p.services[a].partial == p.services[b].partial
  {
    HoldersAreTheSum(p);
    assert !NoneShared(p);
    UnsharedIffDistinct(p);
  }

  ghost predicate FewServices(states: seq<Pool>) {
    forall j :: 0 <= j < |states| ==> |states[j].services| < COUNTER_MODULUS
  }

  ghost predicate FewHolders(states: seq<Pool>) {
    forall j :: 0 <= j < |states| ==> |Holders(states[j])| <= ADDRESS_COUNT
  }

  lemma RunStep(states: seq<Pool>, events: seq<Event>, k: nat)
    requires RunOf(states, events) && 0 < k < |states|
    ensures Enabled(states[k - 1], events[k - 1]) && states[k] == Step(states[k - 1], events[k - 1])
  {
  }

  lemma {:induction false} RunStaysUnshared(states: seq<Pool>, events: seq<Event>, k: nat)
    requires RunOf(states, events) && k < |states| && FewServices(states) && FewHolders(states)
    ensures Conserved(states[k]) && NoneShared(states[k])
  {
    RunConserves(states, events, k);
    if k > 0 {
      RunStaysUnshared(states, events, k - 1);
      RunStep(states, events, k);
      assert |Holders(states[k])| <= ADDRESS_COUNT;
      StepKeepsUnshared(states[k - 1], events[k - 1]);
    }
  }

  /** Over any run the held addresses are always distinct if and only if at most four services ever
      hold one at a time. */
  lemma HeldAddressesDistinctIff(states: seq<Pool>, events: seq<Event>)
    requires RunOf(states, events) && FewServices(states)
    ensures (forall k :: 0 <= k < |states| ==> Distinct(states[k])) <==> FewHolders(states)
  {
    forall k | 0 <= k < |states| ensures Conserved(states[k]) {
      RunConserves(states, events, k);
    }
    if FewHolders(states) {
      forall k | 0 <= k < |states| ensures Distinct(states[k]) {
        RunStaysUnshared(states, events, k);
        UnsharedIffDistinct(states[k]);
      }
    } else {
      var k :| 0 <= k < |states| && |Holders(states[k])| > ADDRESS_COUNT;
      FifthHolderShares(states[k]);
    }
  }

  // ---------------------------------------------------------------- in terms of the fields

  /** The address a new holder gets: the first of the four nobody uses, or the very first. */
  predicate Next(use: seq<nat>, which: nat)
    requires |use| == 4
  {
    which < 4 && if use[which] == 0 then forall j :: 0 <= j < which ==> use[j] != 0
                 else which == 0 && forall j :: 0 <= j < 4 ==> use[j] != 0
  }

  lemma {:induction false} PickIsFirst(use: seq<nat>, i: nat)
    requires |use| == ADDRESS_COUNT && i <= ADDRESS_COUNT
    ensures forall j :: i <= j < PickFrom(use, i) ==> use[j] != 0
    decreases ADDRESS_COUNT - i
  {
    if i < ADDRESS_COUNT && use[i] != 0 {
      PickIsFirst(use, i + 1);
    }
  }

  /** An inactive service becomes a holder exactly when the address is added and the translation started; if not,
      or if it was active, nothing changes. */
  lemma SetDecides(p: Pool, id: ServiceId, added: bool, started: bool)
    requires Conserved(p) && Enabled(p, SetAddress(id, added, started)) && !CounterWraps(p, SetAddress(id, added, started))
    ensures var q := Step(p, SetAddress(id, added, started));
            if p.services[id].active || !added || !started then q == p
            else exists which: nat :: Next(p.use, which)
                                 && q == Pool(p.use[which := p.use[which] + 1], p.services[id := Service(which + 2, true)])
  {
    var which := PickFrom(p.use, 0);
    PickIsFirst(p.use, 0);
    assert Next(p.use, which);
    assert p.use[which := p.use[which] + 1][which := p.use[which]] == p.use;
  }

  /** Sixteen bits of count: one more holder of an address that 65535 hold makes it look unused. */
  lemma WrappedLooksUnused(p: Pool, id: ServiceId)
    requires Enabled(p, SetAddress(id, true, true)) && !p.services[id].active
    requires p.use[0] == 65535 && p.use[1] != 0 && p.use[2] != 0 && p.use[3] != 0
    ensures var q := Step(p, SetAddress(id, true, true));
            q.use == [0] + p.use[1..] && q.services[id] == Service(2, true) && Next(q.use, 0)
  {
    assert PickFrom(p.use, 0) == 0;
    assert p.use[0 := 0] == [0] + p.use[1..];
  }

  /** Removal, failure and stop give the address back; a service that holds none is only marked. */
  lemma RemoveDecides(p: Pool, e: Event)
    requires Conserved(p) && Enabled(p, e) && (e.RemoveAddress? || e.ServiceFailed? || e.StopService?)
    ensures var q := Step(p, e); var partial := p.services[e.id].partial;
            && q.services == (if e.StopService? then p.services - {e.id} else p.services[e.id := Service(0, false)])
            && (partial == 0 ==> q.use == p.use)
            && (partial != 0 ==> 2 <= partial < 6 && p.use[partial - 2] > 0
                                 && q.use == p.use[partial - 2 := p.use[partial - 2] - 1])
  {
    var partial := p.services[e.id].partial;
    if partial != 0 {
      assert e.id in HolderSet(p.services, partial - ADDRESS_START);
    }
  }
}
