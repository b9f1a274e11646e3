/**
 The in-memory DHCPv4 lease database: an ordered list edited in place.  The newest lease is last.
 Lookup and removal are only right because every reachable list keeps its leases apart, which the
 module LeaseListLaws proves.
 */
module LeaseList {
  import opened Common
  import opened Filtering

  type Octet = b: int | 0 <= b < 0x100
  type IPv4 = v: int | 0 <= v < 0x1_0000_0000
  type Word = v: int | 0 <= v < 0x1_0000_0000

  const MAX_LINK_ADDR_LEN: nat := 16
  const INFINITE_LEASE: Word := 0xffff_ffff
  const NOT_FOUND: int := -1

  /** One lease.  The router's link address sits in a fixed buffer of which `hwLen` bytes are used. */
  datatype RawLease = Lease(
    ip: IPv4, routerIp: IPv4, hw: seq<Octet>, hwLen: nat,
    start: real, length: Word, tentative: bool, nak: bool,
    ssid: Option<string>, networkId: Option<string>, pkt: seq<Octet>)

  type Lease = l: RawLease | |l.hw| == MAX_LINK_ADDR_LEN && l.hwLen <= MAX_LINK_ADDR_LEN
    witness Lease(0, 0, [0, 0, 0, 0, 0, 0, 0, 0, 0, 0, 0, 0, 0, 0, 0, 0], 0, 0.0, 0, false, false, None, None, [])

  /** What callers pass to identify a lease: the link address is a pointer and a length. */
  datatype Key = Key(ip: IPv4, routerIp: IPv4, hw: Option<seq<Octet>>, hwLen: nat)

  /** A non-null pointer addresses at least `hwLen` bytes. */
  predicate ValidKey(k: Key) {
    k.hw.Some? ==> |k.hw.value| >= k.hwLen
  }

  datatype LeaseInfo = LeaseInfo(
    start: real, length: Word, ssid: Option<string>, networkId: Option<string>, pkt: seq<Octet>)

  /** Host-order test for 10/8, 172.16/12 and 192.168/16. */
  predicate IsPrivate(ip: IPv4) {
    ip / 0x100_0000 == 0x0a || ip / 0x10_0000 == 0xac1 || ip / 0x1_0000 == 0xc0a8
  }

  predicate HasRouter(l: Lease) {
    l.routerIp != 0 && l.hwLen != 0
  }

  predicate SamePrefix(a: seq<Octet>, b: seq<Octet>, n: nat)
    requires n <= |a| && n <= |b|
  {
    a[..n] == b[..n]
  }

  predicate StringEqual(a: Option<string>, b: Option<string>) {
    a.Some? && b.Some? && a == b
  }

  function Min(a: nat, b: nat): nat { if a < b then a else b }

  function PadTo16(bytes: seq<Octet>): (r: seq<Octet>)
    requires |bytes| <= MAX_LINK_ADDR_LEN
    ensures |r| == MAX_LINK_ADDR_LEN && r[..|bytes|] == bytes
  {
    bytes + seq(MAX_LINK_ADDR_LEN - |bytes|, _ => 0)
  }

  function NewLease(k: Key, info: LeaseInfo): (l: Lease)
    requires ValidKey(k)
  {
    var len := if k.hw.Some? && k.hwLen != 0 then Min(k.hwLen, MAX_LINK_ADDR_LEN) else 0;
    var bytes := if len != 0 then k.hw.value[..len] else [];
    Lease(k.ip, k.routerIp, PadTo16(bytes), len, info.start, info.length, false, false,
          info.ssid, if info.ssid.Some? then info.networkId else None, info.pkt)
  }

  // ---------------------------------------------------------------- what each operation means

  function NakCleared(l: Lease): Lease {
    l.(nak := false)
  }

  function NaksCleared(s: seq<Lease>): (r: seq<Lease>)
    ensures |r| == |s| && forall i :: 0 <= i < |s| ==> r[i] == NakCleared(s[i])
  {
    seq(|s|, i requires 0 <= i < |s| => NakCleared(s[i]))
  }

  /** Two leases for what can only be one network: the newer one's router is the older one's. */
  predicate SameRouter(older: Lease, newer: Lease) {
    newer.routerIp == older.routerIp && SamePrefix(newer.hw, older.hw, newer.hwLen)
  }

  /** The four documented reasons for dropping a lease when `newer` arrives. */
  predicate Evicts(newer: Lease, older: Lease) {
    || !HasRouter(older)
    || (older.nak && IsPrivate(older.ip) == IsPrivate(newer.ip)
        && (newer.hwLen == 0 || SamePrefix(older.hw, newer.hw, older.hwLen)))
    || (!IsPrivate(newer.ip) && newer.ip == older.ip)
    || (HasRouter(newer) && SameRouter(older, newer))
  }

  function SurvivesBeside(newer: Lease): Lease -> bool {
    (older: Lease) => !Evicts(newer, older)
  }

  function Updated(s: seq<Lease>, newer: Lease): seq<Lease> {
    NaksCleared(Keep<Lease>(s, SurvivesBeside(newer))) + [newer]
  }

  predicate Expired(l: Lease, now: real) {
    l.length != INFINITE_LEASE && now >= l.start + l.length as real
  }

  function UnexpiredAt(now: real): Lease -> bool {
    (l: Lease) => !Expired(l, now)
  }

  predicate Matches(l: Lease, k: Key)
    requires ValidKey(k)
  {
    && l.ip == k.ip
    && (IsPrivate(k.ip) ==>
          && l.routerIp == k.routerIp
          && (k.routerIp != 0 ==>
                && l.hwLen == k.hwLen
                && (k.hw.Some? && k.hwLen != 0 ==> SamePrefix(l.hw, k.hw.value, k.hwLen))))
  }

  function FindFrom(s: seq<Lease>, k: Key, i: nat): (r: int)
    requires ValidKey(k) && i <= |s|
    ensures r == NOT_FOUND || i <= r < |s|
    ensures r == NOT_FOUND ==> forall j :: i <= j < |s| ==> !Matches(s[j], k)
    ensures r != NOT_FOUND ==> Matches(s[r], k) && forall j :: i <= j < r ==> !Matches(s[j], k)
    decreases |s| - i
  {
    if i == |s| then NOT_FOUND
    else if Matches(s[i], k) then i
    else FindFrom(s, k, i + 1)
  }

  function Find(s: seq<Lease>, k: Key): int
    requires ValidKey(k)
  {
    FindFrom(s, k, 0)
  }

  function Removed(s: seq<Lease>, k: Key): seq<Lease>
    requires ValidKey(k)
  {
    var i := Find(s, k);
    if i == NOT_FOUND then s else RemovedAt<Lease>(s, i)
  }

  predicate MatchesWiFi(l: Lease, ssid: string, networkId: Option<string>) {
    l.ssid.Some? && (l.ssid.value == ssid || StringEqual(networkId, l.networkId))
  }

  function NotOnWiFi(ssid: string, networkId: Option<string>): Lease -> bool {
    (l: Lease) => !MatchesWiFi(l, ssid, networkId)
  }

  function Forgotten(s: seq<Lease>, ssid: string, networkId: Option<string>): seq<Lease> {
    Keep<Lease>(s, NotOnWiFi(ssid, networkId))
  }

  /** The filters of a request for leases whose router can be probed with ARP. */
  datatype ArpQuery = ArpQuery(
    ssid: Option<string>, networkId: Option<string>, startThreshold: Option<real>, tentativeOk: bool)

  predicate Probeable(l: Lease, q: ArpQuery) {
    && (q.ssid.Some? ==> MatchesWiFi(l, q.ssid.value, q.networkId))
    && HasRouter(l)
    && (l.tentative ==> q.tentativeOk)
    && (q.startThreshold.Some? ==> l.start >= q.startThreshold.value)
  }

  function ProbeableBy(q: ArpQuery): Lease -> bool {
    (l: Lease) => Probeable(l, q)
  }

  datatype ArpAddress = ArpAddress(senderIp: IPv4, targetIp: IPv4, targetHw: seq<Octet>)

  function ArpRow(l: Lease): ArpAddress {
    ArpAddress(l.ip, l.routerIp, l.hw[..l.hwLen])
  }

  function ArpRows(s: seq<Lease>): (r: seq<ArpAddress>)
    ensures |r| == |s| && forall i :: 0 <= i < |s| ==> r[i] == ArpRow(s[i])
  {
    seq(|s|, i requires 0 <= i < |s| => ArpRow(s[i]))
  }

  // ---------------------------------------------------------------- the code

  class LeaseDatabase {
    var leases: seq<Lease>

    constructor ()
      ensures leases == []
    {
      leases := [];
    }

    /** The file holds one lease, read back as tentative and dropped at once when stale. */
    method Read(saved: Option<Lease>, now: real)
      modifies this
      ensures leases == if saved.Some? then Keep<Lease>([saved.value.(tentative := true)], UnexpiredAt(now)) else []
    {
      leases := [];
      if saved.Some? {
        leases := leases + [saved.value.(tentative := true)];
        RemoveStaleLeases(now);
      }
    }

    method SetNAK(i: nat, nak: bool)
      requires i < |leases|
      modifies this
      ensures leases == old(leases)[i := old(leases)[i].(nak := nak)]
    {
      leases := leases[i := leases[i].(nak := nak)];
    }

    method RemoveStaleLeases(now: real)
      modifies this
      ensures leases == Keep<Lease>(old(leases), UnexpiredAt(now))
    {
      var count := |leases|;
      if count == 0 {
        return;
      }
      ghost var before, scanned := leases, 0;
      ghost var kept: seq<Lease>, rest := [], leases;
      var i := 0;
      while i < count
        invariant count == |leases| && leases == kept + rest && i == |kept|
        invariant scanned <= |before| && rest == before[scanned..]
        invariant kept == Keep<Lease>(before[..scanned], UnexpiredAt(now))
        decreases |rest|
      {
        KeepNext<Lease>(before, scanned, UnexpiredAt(now));
        SplitFirst(kept, rest);
        var lease := leases[i];
        if lease.length != INFINITE_LEASE && now >= lease.start + lease.length as real {
          leases := leases[..i] + leases[i + 1..];
          count := count - 1;
        } else {
          kept := kept + [lease];
          i := i + 1;
        }
        scanned, rest := scanned + 1, rest[1..];
      }
      assert before[..scanned] == before;
    }

    /** Clears the NAK flag of the lease it inspects, as it goes. */
    method ShouldBeRemoved(i: nat, newer: Lease, privateIp: bool) returns (remove: bool)
      requires i < |leases| && privateIp == IsPrivate(newer.ip)
      modifies this
      ensures remove == Evicts(newer, old(leases)[i])
      ensures !remove ==> leases == old(leases)[i := NakCleared(old(leases)[i])]
      ensures |leases| == |old(leases)| && leases == old(leases)[i := leases[i]]
    {
      if leases[i].routerIp == 0 || leases[i].hwLen == 0 {
        return true;
      }
      if leases[i].nak {
        var ignore := false;
        leases := leases[i := leases[i].(nak := false)];
        var existing := leases[i];
        if IsPrivate(existing.ip) != privateIp {
          ignore := true;
        } else if newer.hwLen != 0 && existing.hw[..existing.hwLen] != newer.hw[..existing.hwLen] {
          ignore := true;
        }
        if !ignore {
          return true;
        }
      }
      var existing := leases[i];
      if !privateIp && newer.ip == existing.ip {
        return true;
      }
      if newer.routerIp == 0 || newer.hwLen == 0 {
        return false;
      }
      return newer.routerIp == existing.routerIp && newer.hw[..newer.hwLen] == existing.hw[..newer.hwLen];
    }

    method UpdateLease(k: Key, info: LeaseInfo)
      requires ValidKey(k)
      modifies this
      ensures leases == Updated(old(leases), NewLease(k, info))
    {
      var privateIp := IsPrivate(k.ip);
      var newer := NewLease(k, info);
      ghost var before, scanned := leases, 0;
      ghost var kept: seq<Lease>, rest := [], leases;
      var count := |leases|;
      var i := 0;
      while i < count
        invariant count == |leases| && leases == NaksCleared(kept) + rest && i == |kept|
        invariant scanned <= |before| && rest == before[scanned..]
        invariant kept == Keep<Lease>(before[..scanned], SurvivesBeside(newer))
        decreases |rest|
      {
        KeepNext<Lease>(before, scanned, SurvivesBeside(newer));
        VisitedLease(kept, rest);
        var remove := ShouldBeRemoved(i, newer, privateIp);
        RemovedReplaced(NaksCleared(kept), rest, leases[i]);
        if remove {
          leases := leases[..i] + leases[i + 1..];
          i := i - 1;
          count := count - 1;
        } else {
          kept := kept + [rest[0]];
        }
        i := i + 1;
        scanned, rest := scanned + 1, rest[1..];
      }
      assert before[..scanned] == before;
      leases := leases + [newer];
    }

    method FindLease(k: Key) returns (r: int)
      requires ValidKey(k)
      ensures r == Find(leases, k)
    {
      var privateIp := IsPrivate(k.ip);
      var count := |leases|;
      for i := 0 to count
        invariant FindFrom(leases, k, i) == FindFrom(leases, k, 0)
      {
        var lease := leases[i];
        if lease.ip != k.ip {
          continue;
        }
        if !privateIp {
          return i;
        }
        if lease.routerIp != k.routerIp {
          continue;
        }
        if k.routerIp == 0 {
          return i;
        }
        if lease.hwLen != k.hwLen {
          continue;
        }
        if k.hw.None? || k.hwLen == 0 {
          return i;
        }
        if lease.hw[..k.hwLen] == k.hw.value[..k.hwLen] {
          return i;
        }
      }
      return NOT_FOUND;
    }

    method RemoveLease(k: Key)
      requires ValidKey(k)
      modifies this
      ensures leases == Removed(old(leases), k)
    {
      var where_ := FindLease(k);
      if where_ != NOT_FOUND {
        leases := leases[..where_] + leases[where_ + 1..];
      }
    }

    /** The most recently used lease of a Wi-Fi network: the list is searched backwards. */
    method FindLeaseForWiFi(ssid: string, networkId: Option<string>) returns (r: int)
      ensures r == NOT_FOUND || 0 <= r < |leases|
      ensures r == NOT_FOUND ==> forall j :: 0 <= j < |leases| ==> !MatchesWiFi(leases[j], ssid, networkId)
      ensures r != NOT_FOUND ==> MatchesWiFi(leases[r], ssid, networkId)
      ensures r != NOT_FOUND ==> forall j :: r < j < |leases| ==> !MatchesWiFi(leases[j], ssid, networkId)
    {
      r := |leases| - 1;
      while r >= 0
        invariant -1 <= r < |leases|
        invariant forall j :: r < j < |leases| ==> !MatchesWiFi(leases[j], ssid, networkId)
      {
        var lease := leases[r];
        if lease.ssid.Some? && (lease.ssid.value == ssid || StringEqual(networkId, lease.networkId)) {
          return;
        }
        r := r - 1;
      }
    }

    method RemoveLeaseForWiFi(ssid: string, networkId: Option<string>)
      modifies this
      ensures leases == Forgotten(old(leases), ssid, networkId)
    {
      ghost var before := leases;
      while true
        invariant Forgotten(leases, ssid, networkId) == Forgotten(before, ssid, networkId)
        decreases |leases|
      {
        var where_ := FindLeaseForWiFi(ssid, networkId);
        if where_ == NOT_FOUND {
          break;
        }
        ForgetOne(leases, where_, ssid, networkId);
        leases := leases[..where_] + leases[where_ + 1..];
      }
      NothingToForget(leases, ssid, networkId);
    }

    method CopyARPAddressInfo(q: ArpQuery, now: real) returns (rows: seq<ArpAddress>)
      modifies this
      ensures leases == Keep<Lease>(old(leases), UnexpiredAt(now))
      ensures rows == ArpRows(Keep<Lease>(leases, ProbeableBy(q)))
    {
      RemoveStaleLeases(now);
      rows := [];
      ghost var p := ProbeableBy(q);
      ghost var current := leases;
      for i := 0 to |leases|
        invariant leases == current
        invariant rows == ArpRows(Keep<Lease>(leases[..i], p))
      {
        KeepNext<Lease>(leases, i, p);
        var lease := leases[i];
        if q.ssid.Some? {
          if lease.ssid.None? {
            continue;
          }
          if !(lease.ssid.value == q.ssid.value || StringEqual(q.networkId, lease.networkId)) {
            continue;
          }
        }
        if lease.routerIp == 0 || lease.hwLen == 0 {
          continue;
        }
        if lease.tentative && !q.tentativeOk {
          continue;
        }
        if q.startThreshold.Some? && lease.start < q.startThreshold.value {
          continue;
        }
        rows := rows + [ArpRow(lease)];
      }
      assert leases[..|leases|] == leases;
    }
  }

  // ---------------------------------------------------------------- editing in place

  lemma ForgetOne(s: seq<Lease>, i: nat, ssid: string, networkId: Option<string>)
    requires i < |s| && MatchesWiFi(s[i], ssid, networkId)
    ensures Forgotten(s[..i] + s[i + 1..], ssid, networkId) == Forgotten(s, ssid, networkId)
  {
    KeepSkips<Lease>(s, i, NotOnWiFi(ssid, networkId));
  }

  lemma NothingToForget(s: seq<Lease>, ssid: string, networkId: Option<string>)
    requires forall j :: 0 <= j < |s| ==> !MatchesWiFi(s[j], ssid, networkId)
    ensures Forgotten(s, ssid, networkId) == s
  {
    KeepAll<Lease>(s, NotOnWiFi(ssid, networkId));
  }

  lemma SplitFirst(a: seq<Lease>, b: seq<Lease>)
    requires b != []
    ensures (a + b)[|a|] == b[0]
    ensures RemovedAt<Lease>(a + b, |a|) == a + b[1..]
    ensures a + b == (a + [b[0]]) + b[1..]
  {
  }

  /** The lease at the loop's index, and the list with its flag cleared. */
  lemma VisitedLease(kept: seq<Lease>, rest: seq<Lease>)
    requires rest != []
    ensures (NaksCleared(kept) + rest)[|kept|] == rest[0]
    ensures (NaksCleared(kept) + rest)[|kept| := NakCleared(rest[0])] == NaksCleared(kept + [rest[0]]) + rest[1..]
  {
    assert NaksCleared(kept + [rest[0]]) == NaksCleared(kept) + [NakCleared(rest[0])];
  }

  lemma RemovedReplaced(front: seq<Lease>, rest: seq<Lease>, l: Lease)
    requires rest != []
    ensures var s := (front + rest)[|front| := l];
            s[..|front|] + s[|front| + 1..] == front + rest[1..]
  {
  }
}
