/**
 What every reachable lease list satisfies, and what that gives the two lookups.
 */
module LeaseListLaws {
  import opened Common
  import opened Filtering
  import opened LeaseList

  // ---------------------------------------------------------------- the invariant

  /** An older lease that may stay in the list beside a newer one. */
  predicate Apart(older: Lease, newer: Lease) {
    && HasRouter(older)
    && (!IsPrivate(newer.ip) ==> newer.ip != older.ip)
    && (HasRouter(newer) ==> !SameRouter(older, newer))
  }

  ghost predicate AllApart(s: seq<Lease>) {
    forall i, j :: 0 <= i < j < |s| ==> Apart(s[i], s[j])
  }

  /** What identifies a network: router address, link address length, link address. */
  predicate SameNetwork(a: Lease, b: Lease) {
    a.routerIp == b.routerIp && a.hwLen == b.hwLen && SamePrefix(a.hw, b.hw, a.hwLen)
  }

  datatype Op =
    | Update(key: Key, info: LeaseInfo)
    | Remove(key: Key)
    | RemoveWiFi(ssid: string, networkId: Option<string>)
    | SetNak(index: nat, nak: bool)
    | RemoveStale(now: real)

  predicate OpOk(op: Op) {
    (op.Update? || op.Remove?) ==> ValidKey(op.key)
  }

  function Apply(s: seq<Lease>, op: Op): seq<Lease>
    requires OpOk(op)
  {
    match op
    case Update(k, info) => Updated(s, NewLease(k, info))
    case Remove(k) => Removed(s, k)
    case RemoveWiFi(ssid, networkId) => Forgotten(s, ssid, networkId)
    case SetNak(i, nak) => if i < |s| then s[i := s[i].(nak := nak)] else s
    case RemoveStale(now) => Keep(s, UnexpiredAt(now))
  }

  function Run(s: seq<Lease>, ops: seq<Op>): seq<Lease>
    requires forall op :: op in ops ==> OpOk(op)
    decreases |ops|
  {
    if ops == [] then s else Run(Apply(s, ops[0]), ops[1..])
  }

  /** Any mix of operations, from the empty list or the single lease read at start-up. */
  lemma {:induction false} ReachableListsApart(s: seq<Lease>, ops: seq<Op>)
    requires forall op :: op in ops ==> OpOk(op)
    requires |s| <= 1 || AllApart(s)
    ensures AllApart(Run(s, ops))
    decreases |ops|
  {
    if ops != [] {
      ApplyKeepsApart(s, ops[0]);
      ReachableListsApart(Apply(s, ops[0]), ops[1..]);
    }
  }

  /** The invariant spelled out: one unusable lease at most, and last; no shared network or public IP. */
  lemma ApartMeans(s: seq<Lease>)
    requires AllApart(s)
    ensures forall i :: 0 <= i < |s| - 1 ==> HasRouter(s[i])
    ensures forall i, j :: 0 <= i < |s| && 0 <= j < |s| && i != j ==> !SameNetwork(s[i], s[j])
    ensures forall i, j :: 0 <= i < |s| && 0 <= j < |s| && i != j && s[i].ip == s[j].ip ==> IsPrivate(s[i].ip)
  {
    forall i | 0 <= i < |s| - 1 ensures HasRouter(s[i]) {
      assert Apart(s[i], s[i + 1]);
    }
    forall i, j | 0 <= i < j < |s|
      ensures !SameNetwork(s[i], s[j]) && !SameNetwork(s[j], s[i])
      ensures s[i].ip == s[j].ip ==> IsPrivate(s[i].ip)
    {
      assert Apart(s[i], s[j]);
    }
  }

  lemma ApplyKeepsApart(s: seq<Lease>, op: Op)
    requires AllApart(s) && OpOk(op)
    ensures AllApart(Apply(s, op))
  {
    match op {
      case Update(k, info) => UpdateKeepsApart(s, NewLease(k, info));
      case Remove(k) =>
      case RemoveWiFi(ssid, networkId) => KeepKeepsApart(s, NotOnWiFi(ssid, networkId));
      case SetNak(i, nak) =>
      case RemoveStale(now) => KeepKeepsApart(s, UnexpiredAt(now));
    }
  }

  lemma {:induction false} KeepKeepsApart(s: seq<Lease>, p: Lease -> bool)
    requires AllApart(s)
    ensures AllApart(Keep(s, p))
  {
    KeepInFull(s, p);
  }

  lemma UpdateKeepsApart(s: seq<Lease>, newer: Lease)
    requires AllApart(s)
    ensures AllApart(Updated(s, newer))
  {
    var p := SurvivesBeside(newer);
    KeepKeepsApart(s, p);
    KeepInFull(s, p);
  }

  // ---------------------------------------------------------------- what an update yields

  /** An update keeps exactly the leases it does not evict, in order, adds the new one last, and
      leaves no NAK flag set. */
  lemma UpdateYields(s: seq<Lease>, newer: Lease)
    requires !newer.nak
    ensures var r := Updated(s, newer);
            && r != [] && r[|r| - 1] == newer
            && (forall j :: 0 <= j < |r| ==> !r[j].nak)
            && exists kept: seq<Lease>, at: seq<nat> ::
                 ComesFrom(kept, s, SurvivesBeside(newer), at) && r[..|r| - 1] == NaksCleared(kept)
  {
    var kept := Keep(s, SurvivesBeside(newer));
    KeepInFull(s, SurvivesBeside(newer));
    assert Updated(s, newer)[..|kept|] == NaksCleared(kept);
  }

  // ---------------------------------------------------------------- lookup after update

  /** Keys whose lookup compares them with what an update would have stored. */
  predicate Storable(k: Key) {
    || !IsPrivate(k.ip)
    || k.routerIp == 0
    || k.hwLen == 0
    || (k.hw.Some? && k.hwLen <= MAX_LINK_ADDR_LEN)
  }

  /** Looking a lease up right after saving it finds it, last, exactly for storable keys. */
  lemma FindAfterUpdate(s: seq<Lease>, k: Key, info: LeaseInfo)
    requires ValidKey(k)
    ensures var r := Updated(s, NewLease(k, info));
            Find(r, k) == |r| - 1 <==> Storable(k)
  {
    var newer := NewLease(k, info);
    var r := Updated(s, newer);
    var at := KeptPositions(s, SurvivesBeside(newer));
    KeepInFull(s, SurvivesBeside(newer));
    assert Matches(newer, k) <==> Storable(k);
    if Storable(k) {
      forall j | 0 <= j < |r| - 1 ensures !Matches(r[j], k) {
        assert !Evicts(newer, s[at[j]]);
        NoEarlierMatch(s[at[j]], k, info);
        assert r[j] == NakCleared(s[at[j]]);
      }
      assert r[|r| - 1] == newer;
    }
  }

  lemma NoEarlierMatch(older: Lease, k: Key, info: LeaseInfo)
    requires ValidKey(k) && Storable(k)
    requires !Evicts(NewLease(k, info), older)
    ensures !Matches(NakCleared(older), k)
  {
    var newer := NewLease(k, info);
    if Matches(NakCleared(older), k) && IsPrivate(k.ip) && k.routerIp != 0 && k.hwLen != 0 {
      assert newer.hw[..k.hwLen] == k.hw.value[..k.hwLen];
      assert SameRouter(older, newer);
    }
  }

  // ---------------------------------------------------------------- lookup after removal

  ghost predicate AtMostOneMatch(s: seq<Lease>, k: Key)
    requires ValidKey(k)
  {
    forall i, j :: 0 <= i < j < |s| && Matches(s[i], k) ==> !Matches(s[j], k)
  }

  /** Removing by key forgets the key exactly when at most one lease answered to it; the others
      stay, in order. */
  lemma RemoveForgets(s: seq<Lease>, k: Key)
    requires ValidKey(k)
    ensures Find(Removed(s, k), k) == NOT_FOUND <==> AtMostOneMatch(s, k)
    ensures Find(s, k) == NOT_FOUND ==> Removed(s, k) == s
    ensures Find(s, k) != NOT_FOUND ==> Removed(s, k) == s[..Find(s, k)] + s[Find(s, k) + 1..]
  {
    var i := Find(s, k);
    var r := Removed(s, k);
    if i != NOT_FOUND {
      forall j | i < j < |s| ensures s[j] == r[j - 1] {}
      if Find(r, k) != NOT_FOUND {
        var f := Find(r, k);
        assert f >= i ==> r[f] == s[f + 1];
      }
    }
  }

  /** On reachable lists every key answers to at most one lease, except a private one that gives a
      router and a link address length but no link address. */
  lemma ReachableKeysUnique(s: seq<Lease>, k: Key)
    requires AllApart(s) && ValidKey(k)
    requires !IsPrivate(k.ip) || k.routerIp == 0 || k.hw.Some? || k.hwLen == 0
    ensures AtMostOneMatch(s, k)
  {
    forall i, j | 0 <= i < j < |s| && Matches(s[i], k)
      ensures !Matches(s[j], k)
    {
      assert Apart(s[i], s[j]);
    }
  }

  function ExampleLease(mac: Octet): Lease {
    NewLease(Key(0x0a00_0001, 0x0a00_00fe, Some([mac]), 1), LeaseInfo(0.0, INFINITE_LEASE, None, None, []))
  }

  /** The exception is real: two networks behind 10.0.0.254, and a key without a link address. */
  lemma NullLinkAddressRemovesOneOfTwo()
    ensures var s := [ExampleLease(1), ExampleLease(2)];
            var k := Key(0x0a00_0001, 0x0a00_00fe, None, 1);
            AllApart(s) && Find(Removed(s, k), k) != NOT_FOUND
  {
    var s := [ExampleLease(1), ExampleLease(2)];
    var k := Key(0x0a00_0001, 0x0a00_00fe, None, 1);
    assert s[0].hw[..1][0] == 1 && s[1].hw[..1][0] == 2;
    assert Matches(s[0], k) && Matches(s[1], k);
    RemoveForgets(s, k);
  }

  // ---------------------------------------------------------------- ARP rows

  function RowKey(row: ArpAddress, linkLength: nat): (k: Key)
    requires linkLength <= MAX_LINK_ADDR_LEN
    ensures ValidKey(k)
  {
    var padded := row.targetHw + seq(MAX_LINK_ADDR_LEN, _ => 0);
    Key(row.senderIp, row.targetIp, Some(padded[..MAX_LINK_ADDR_LEN]), linkLength)
  }

  /** A probe answered by a lease's router leads back to that lease, exactly when the interface's
      link address length is the stored one (or the address is public). */
  lemma ArpRowFindsItsLease(s: seq<Lease>, i: nat, linkLength: nat)
    requires AllApart(s) && i < |s| && HasRouter(s[i])
    requires 0 < linkLength <= MAX_LINK_ADDR_LEN
    ensures Find(s, RowKey(ArpRow(s[i]), linkLength)) == i
            <==> s[i].hwLen == linkLength || !IsPrivate(s[i].ip)
  {
    var k := RowKey(ArpRow(s[i]), linkLength);
    if s[i].hwLen == linkLength {
      assert k.hw.value[..linkLength] == s[i].hw[..linkLength];
    }
    ReachableKeysUnique(s, k);
  }

  /** Every row handed to the probe comes from an unexpired lease that `Find` maps it back to. */
  lemma {:induction false} EveryArpRowFindsItsLease(s: seq<Lease>, now: real, q: ArpQuery, linkLength: nat, r: nat)
    requires AllApart(s) && 0 < linkLength <= MAX_LINK_ADDR_LEN
    requires forall l :: l in s && HasRouter(l) ==> l.hwLen == linkLength
    requires r < |Keep(Keep(s, UnexpiredAt(now)), ProbeableBy(q))|
    ensures var live := Keep(s, UnexpiredAt(now));
            var row := ArpRows(Keep(live, ProbeableBy(q)))[r];
            var i := Find(live, RowKey(row, linkLength));
            && i != NOT_FOUND && live[i] in s && !Expired(live[i], now)
            && Probeable(live[i], q) && ArpRow(live[i]) == row
  {
    var live := Keep(s, UnexpiredAt(now));
    var chosen := KeptPositions(live, ProbeableBy(q));
    KeepInFull(s, UnexpiredAt(now));
    KeepInFull(live, ProbeableBy(q));
    KeepKeepsApart(s, UnexpiredAt(now));
    ArpRowFindsItsLease(live, chosen[r], linkLength);
  }

  /** Forgetting a Wi-Fi network leaves exactly the other networks' leases: one for each position that
      held one, in the same order. */
  lemma {:induction false} ForgetWiFi(s: seq<Lease>, ssid: string, networkId: Option<string>)
    ensures var r := Forgotten(s, ssid, networkId);
            var p := NotOnWiFi(ssid, networkId);
            && ComesFrom(r, s, p, KeptPositions(s, p))
            && (forall l :: l in r ==> !MatchesWiFi(l, ssid, networkId))
            && (forall l :: l in s && !MatchesWiFi(l, ssid, networkId) ==> l in r)
  {
    KeepInFull(s, NotOnWiFi(ssid, networkId));
    KeptMembers(s, NotOnWiFi(ssid, networkId));
  }

  // ---------------------------------------------------------------- in terms of the fields

  /** 10/8, 172.16/12 and 192.168/16. */
  lemma PrivateIff(a: Octet, b: Octet, c: Octet, d: Octet)
    ensures IsPrivate(((a * 256 + b) * 256 + c) * 256 + d) <==>
            a == 10 || (a == 172 && 16 <= b < 32) || (a == 192 && b == 168)
  {
  }

  /**
   Which older lease stays when a newer one comes: it names a router and its link address; no NAK came for it
   since, or it is of another kind of address, or behind another link address than the new one; it is not for the
   same public address; and its router is not the new one's.
   */
  predicate Stays(older: Lease, newer: Lease) {
    && older.routerIp != 0 && older.hwLen != 0
    && (older.nak && (IsPrivate(older.ip) <==> IsPrivate(newer.ip)) ==>
          newer.hwLen != 0 && older.hw[..older.hwLen] != newer.hw[..older.hwLen])
    && (older.ip == newer.ip ==> IsPrivate(newer.ip))
    && (newer.routerIp != 0 && newer.hwLen != 0 && older.routerIp == newer.routerIp ==>
          older.hw[..newer.hwLen] != newer.hw[..newer.hwLen])
  }

  /** An update lets exactly these stay, one for each position that held one, in order, and adds the new one. */
  lemma {:induction false} UpdateKeepsExactly(s: seq<Lease>, newer: Lease) returns (kept: seq<Lease>, at: seq<nat>)
    ensures ComesFrom(kept, s, older => Stays(older, newer), at)
    ensures Updated(s, newer) == NaksCleared(kept) + [newer]
  {
    kept := Keep(s, SurvivesBeside(newer));
    at := KeptPositions(s, SurvivesBeside(newer));
    KeepInFull(s, SurvivesBeside(newer));
    forall i | 0 <= i < |s| ensures Stays(s[i], newer) <==> SurvivesBeside(newer)(s[i]) {
      StaysIs(s[i], newer);
    }
  }

  lemma StaysIs(older: Lease, newer: Lease)
    ensures Stays(older, newer) <==> !Evicts(newer, older)
  {
  }

  /** The new lease is what the caller gave, with as much of the link address as fits, and no flag set. */
  lemma NewLeaseIs(k: Key, info: LeaseInfo)
    requires ValidKey(k)
    ensures var l := NewLease(k, info);
            && l.ip == k.ip && l.routerIp == k.routerIp && l.start == info.start && l.length == info.length
            && l.ssid == info.ssid && l.networkId == (if info.ssid.Some? then info.networkId else None) && l.pkt == info.pkt
            && !l.nak && !l.tentative
            && l.hwLen == (if k.hw.None? then 0 else if k.hwLen > 16 then 16 else k.hwLen)
            && (k.hw.Some? ==> l.hw[..l.hwLen] == k.hw.value[..l.hwLen])
  {
  }

  /** A key finds the first lease for its address; for a private address also behind its router, and with its link
      address, as far as the key gives them. */
  predicate AnswersTo(l: Lease, k: Key)
    requires ValidKey(k)
  {
    && l.ip == k.ip
    && (IsPrivate(k.ip) ==> l.routerIp == k.routerIp)
    && (IsPrivate(k.ip) && k.routerIp != 0 ==> l.hwLen == k.hwLen)
    && (IsPrivate(k.ip) && k.routerIp != 0 && k.hw.Some? ==> l.hw[..l.hwLen] == k.hw.value[..k.hwLen])
  }

  lemma FindIs(s: seq<Lease>, k: Key, i: nat)
    requires ValidKey(k) && i < |s|
    ensures Find(s, k) == i <==> AnswersTo(s[i], k) && forall j :: 0 <= j < i ==> !AnswersTo(s[j], k)
    ensures Find(s, k) == NOT_FOUND <==> forall j :: 0 <= j < |s| ==> !AnswersTo(s[j], k)
  {
    forall j | 0 <= j < |s| ensures AnswersTo(s[j], k) <==> Matches(s[j], k) {}
  }

  /** What is forgotten with a network, what is stale, and what may be probed. */
  lemma {:induction false} KeptLeases(s: seq<Lease>, ssid: string, networkId: Option<string>, now: real, q: ArpQuery)
    ensures forall l :: l in Forgotten(s, ssid, networkId) <==>
              l in s && !(l.ssid.Some? && (l.ssid.value == ssid || (networkId.Some? && l.networkId == networkId)))
    ensures forall l :: l in Keep(s, UnexpiredAt(now)) <==>
              l in s && (l.length == 0xffff_ffff || now < l.start + l.length as real)
    ensures forall l :: l in Keep(s, ProbeableBy(q)) <==>
              && l in s && l.routerIp != 0 && l.hwLen != 0 && (l.tentative ==> q.tentativeOk)
              && (q.startThreshold.Some? ==> q.startThreshold.value <= l.start)
              && (q.ssid.Some? ==> l.ssid.Some? && (l.ssid == q.ssid || (q.networkId.Some? && l.networkId == q.networkId)))
  {
    KeptMembers(s, NotOnWiFi(ssid, networkId));
    KeptMembers(s, UnexpiredAt(now));
    KeptMembers(s, ProbeableBy(q));
  }

  lemma {:induction false} KeptMembers(s: seq<Lease>, p: Lease -> bool)
    ensures forall l :: l in Keep(s, p) <==> l in s && p(l)
  {
    KeepInFull(s, p);
    var at := KeptPositions(s, p);
    forall i | 0 <= i < |s| && p(s[i]) ensures s[i] in Keep(s, p) {
      var j :| 0 <= j < |at| && at[j] == i;
      assert Keep(s, p)[j] == s[i];
    }
  }

  /** A row asks the lease's router, at its link address, in the lease's own name. */
  lemma RowIs(l: Lease)
    ensures ArpRow(l).senderIp == l.ip && ArpRow(l).targetIp == l.routerIp && ArpRow(l).targetHw == l.hw[..l.hwLen]
  {
  }
}
