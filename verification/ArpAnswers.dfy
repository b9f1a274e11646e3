/**
 What each ARP packet, timer and command does to a client, told from its fields: which packets answer which
 command, what is reported, and what is sent next.
 */
module ArpAnswers {
  import opened Common
  import opened Filtering
  import opened ArpSession
  import opened ArpSessionLaws

  // ---------------------------------------------------------------- which packets answer

  /** A client with a command that has not been answered. */
  predicate Asking(c: Client) { c.active && c.status != InUse }

  /** Another host uses the address probed, or is probing it too. */
  predicate Conflict(c: Client, p: Packet) {
    && c.command == Probe && !p.fromUs
    && (p.senderIp == c.targetIp
        || (c.probesAreCollisions && p.op == Request && p.senderIp == 0 && p.targetIp == c.targetIp))
  }

  predicate Resolved(c: Client, p: Packet) { c.command == Resolve && p.op == Reply && p.senderIp == c.targetIp }

  /** The reply comes from this host to this address of ours, hardware address included. */
  predicate From(a: Address, p: Packet) {
    p.targetIp == a.senderIp && p.senderIp == a.targetIp && p.senderHw == a.targetHw
  }

  ghost predicate Detected(c: Client, p: Packet) {
    c.command == Detect && p.op == Reply && exists j :: 0 <= j < |c.detectList| && From(c.detectList[j], p)
  }

  ghost predicate Answered(c: Client, p: Packet) { Conflict(c, p) || Resolved(c, p) || Detected(c, p) }

  /** What is reported: the first entry of the list that fits, or who has the address asked about. */
  ghost predicate Reports(d: Client, c: Client, p: Packet) {
    if c.command == Detect
    then exists j :: 0 <= j < |c.detectList| && From(c.detectList[j], p) && d.inUse == c.detectList[j]
                     && forall k :: 0 <= k < j ==> !From(c.detectList[k], p)
    else d.inUse == Address(c.senderIp, c.targetIp, p.senderHw)
  }

  /** The conflict starts another probe cycle. */
  predicate Retries(cfg: Config, c: Client, p: Packet) {
    Asking(c) && Conflict(c, p) && !c.probesAreCollisions && c.conflicts < cfg.conflictRetries
  }

  /** No client before this one starts another cycle on the packet, which ends with the first that does. */
  ghost predicate InReach(cfg: Config, s: Session, p: Packet, i: nat)
    requires i <= |s.clients|
  {
    forall j :: 0 <= j < i ==> !Retries(cfg, s.clients[j], p)
  }

  // ---------------------------------------------------------------- packets

  lemma {:induction false} FirstAnswerIs(list: seq<Address>, p: Packet, i: nat)
    requires i <= |list|
    ensures var r := FirstAnswer(list, p, i);
            if exists j :: i <= j < |list| && From(list[j], p)
            then exists j :: i <= j < |list| && From(list[j], p) && r == Some(list[j])
                             && forall k :: i <= k < j ==> !From(list[k], p)
            else r == None
    decreases |list| - i
  {
    if i < |list| && !From(list[i], p) {
      FirstAnswerIs(list, p, i + 1);
    }
  }

  lemma {:induction false} DetectMatchIs(c: Client, p: Packet)
    requires c.command == Detect && p.op == Reply
    ensures Match(c, p) == FirstAnswer(c.detectList, p, 0)
    ensures Match(c, p).Some? <==> Detected(c, p)
    ensures Match(c, p).Some? ==> Reports(c.(inUse := Match(c, p).value), c, p)
  {
    FirstAnswerIs(c.detectList, p, 0);
  }

  lemma MatchIs(c: Client, p: Packet)
    ensures Match(c, p).Some? <==> Answered(c, p)
    ensures Answered(c, p) ==> Reports(c.(inUse := Match(c, p).value), c, p)
  {
    if c.command == Detect && p.op == Reply {
      DetectMatchIs(c, p);
    }
  }

  lemma RestartsIs(cfg: Config, c: Client, p: Packet)
    ensures Restarts(cfg, c, p) <==> Retries(cfg, c, p)
  {
    MatchIs(c, p);
  }

  lemma {:induction false} ReachIs(cfg: Config, s: Session, p: Packet, i: nat)
    requires i < |s.clients|
    ensures i <= RestartIndex(cfg, s.clients, p, 0) <==> InReach(cfg, s, p, i)
  {
    var r := RestartIndex(cfg, s.clients, p, 0);
    forall j | 0 <= j < |s.clients| ensures Restarts(cfg, s.clients[j], p) <==> Retries(cfg, s.clients[j], p) {
      RestartsIs(cfg, s.clients[j], p);
    }
    if r < i {
      assert Retries(cfg, s.clients[r], p);
    }
  }

  /**
   A packet answers a client that is asking, is within reach and finds what it looks for; the client then
   reports it, or counts a conflict and probes again.  It changes no other client.
   */
  lemma PacketAnswers(cfg: Config, s: Session, p: Packet, i: nat)
    requires Enabled(s, Deliver(p)) && i < |s.clients|
    ensures var c, d := s.clients[i], Step(cfg, s, Deliver(p)).clients[i];
            if InReach(cfg, s, p, i) && Asking(c) && Answered(c, p) then
              && d.status == InUse && Reports(d, c, p)
              && d == c.(status := InUse, inUse := d.inUse,
                         conflicts := if c.command == Probe && !c.probesAreCollisions then c.conflicts + 1 else c.conflicts,
                         timer := if Retries(cfg, c, p) then Some(ProbeStart) else c.timer,
                         callback := c.callback || !Retries(cfg, c, p))
            else d == c
  {
    ReachIs(cfg, s, p, i);
    MatchIs(s.clients[i], p);
    RestartsIs(cfg, s.clients[i], p);
  }

  /** A client comes to report an answer on a packet if and only if it is asking, within reach, and answered. */
  lemma AnsweredIff(cfg: Config, s: Session, p: Packet, i: nat)
    requires Enabled(s, Deliver(p)) && i < |s.clients| && s.clients[i].status != InUse
    ensures Step(cfg, s, Deliver(p)).clients[i].status == InUse <==>
            InReach(cfg, s, p, i) && s.clients[i].active && Answered(s.clients[i], p)
  {
    PacketAnswers(cfg, s, p, i);
  }

  // ---------------------------------------------------------------- timers, callbacks, failures

  /** The next packet of a probe cycle, `tries` into it: plain ones first, then announcements, then silence. */
  predicate ProbesOn(cfg: Config, c: Client, d: Client, tries: nat, written: bool) {
    if tries >= cfg.probes + cfg.announcements then d == c.(status := NotInUse, callback := true)
    else if c.skipFirst then d == c.(tries := tries + 1, skipFirst := false, timer := Some(ProbeRetransmit))
    else if written then
      d == c.(tries := tries + 1, timer := Some(ProbeRetransmit), sent := c.sent + 1,
              cycle := c.cycle + [if tries < cfg.probes then Plain else Gratuitous])
    else d == c.(tries := tries + 1, status := Failed, callback := true)
  }

  /** Seconds that do not fit a signed word count as none left. */
  predicate TimeUp(c: Client) { c.tries >= c.resolveSecs || c.resolveSecs - c.tries >= 0x8000_0000 }

  /** One more round, or silence when all have been made; a packet that cannot be sent fails. */
  predicate AsksOn(c: Client, d: Client, over: bool, t: Timer, sends: bool) {
    if over then d == c.(status := NotInUse, callback := true)
    else if sends then d == c.(tries := c.tries + 1, timer := Some(t))
    else d == c.(tries := c.tries + 1, status := Failed, callback := true)
  }

  lemma TriesLeftIs(c: Client)
    requires c.tries <= c.resolveSecs
    ensures ResolveTriesLeft(c) <= 0 <==> TimeUp(c)
  {
  }

  lemma ResolveSends(c: Client, written: bool)
    requires c.tries <= c.resolveSecs
    ensures AsksOn(c, ResolveRetransmitted(c, written), TimeUp(c), ResolveRetransmit, written)
  {
    TriesLeftIs(c);
  }

  lemma ProbeSends(cfg: Config, c: Client, written: bool)
    ensures ProbesOn(cfg, c, ProbeRetransmitted(cfg, c, written), c.tries, written)
  {
  }

  lemma DetectSends(cfg: Config, c: Client, written: bool)
    requires c.detectList != []
    ensures AsksOn(c, DetectRetransmitted(cfg, c, written), c.tries >= cfg.detects, DetectRetransmit, written)
  {
  }

  lemma TimerIs(cfg: Config, s: Session, i: nat, written: bool)
    requires Enabled(s, TimerFires(i, written))
    ensures Step(cfg, s, TimerFires(i, written)).clients[i]
            == Retransmitted(cfg, s.clients[i].(timer := None), s.clients[i].timer.value, written)
  {
  }

  lemma TimerSends(cfg: Config, s: Session, i: nat, written: bool)
    requires Inv(cfg, s) && Enabled(s, TimerFires(i, written))
    ensures var c := s.clients[i].(timer := None); var d := Step(cfg, s, TimerFires(i, written)).clients[i];
            match s.clients[i].timer.value
            case ProbeStart => ProbesOn(cfg, c.(tries := 0, status := Unknown, cycle := []), d, 0, written)
            case ProbeRetransmit => ProbesOn(cfg, c, d, c.tries, written)
            case ResolveRetransmit => AsksOn(c, d, TimeUp(c), ResolveRetransmit, written)
            case DetectRetransmit => AsksOn(c, d, c.tries >= cfg.detects, DetectRetransmit, written)
  {
    var c := s.clients[i].(timer := None);
    assert ClientOk(cfg, s.clients[i]);
    TimerIs(cfg, s, i, written);
    match s.clients[i].timer.value
    case ProbeStart => ProbeSends(cfg, c.(tries := 0, status := Unknown, cycle := []), written);
    case ProbeRetransmit => ProbeSends(cfg, c, written);
    case ResolveRetransmit => ResolveSends(c, written);
    case DetectRetransmit => DetectSends(cfg, c, written);
  }

  lemma UsesIs(cfg: Config, c: Client, t: Timer)
    requires c.status != Failed
    ensures UsesDescriptor(cfg, c, t) <==> Retransmitted(cfg, c, t, false).status == Failed
  {
    match t
    case ProbeStart => ProbeSends(cfg, c.(tries := 0, status := Unknown, cycle := []), false);
    case ProbeRetransmit => ProbeSends(cfg, c, false);
    case ResolveRetransmit =>
    case DetectRetransmit =>
  }

  /** A timer needs the descriptor exactly when a packet goes out, so that a write that fails is reported. */
  lemma WritesNeedDescriptor(cfg: Config, s: Session, i: nat, written: bool)
    requires Enabled(s, TimerFires(i, written)) && s.clients[i].status != Failed
    ensures Step(cfg, s, TimerFires(i, written)).nullDereference <==>
            s.nullDereference || (!s.readFd && Step(cfg, s, TimerFires(i, false)).clients[i].status == Failed)
  {
    var c := s.clients[i].(timer := None);
    UsesIs(cfg, c, s.clients[i].timer.value);
    TimerIs(cfg, s, i, false);
  }

  /** A reply that fits no entry of the list there is, while the length kept says that there were more. */
  ghost predicate PastTheList(c: Client, p: Packet) {
    && Asking(c) && c.command == Detect && p.op == Reply && |c.detectList| < c.detectCount
    && forall k :: 0 <= k < |c.detectList| ==> !From(c.detectList[k], p)
  }

  /** A packet follows a null pointer exactly when it reaches a client that has to look past its list. */
  lemma NullFollowedIff(cfg: Config, s: Session, p: Packet)
    requires Enabled(s, Deliver(p))
    ensures Step(cfg, s, Deliver(p)).nullDereference <==>
            s.nullDereference || exists i: nat :: i < |s.clients| && InReach(cfg, s, p, i) && PastTheList(s.clients[i], p)
  {
    forall i: nat | i < |s.clients|
      ensures i <= RestartIndex(cfg, s.clients, p, 0) <==> InReach(cfg, s, p, i)
      ensures Misreads(s.clients[i], p) <==> PastTheList(s.clients[i], p)
    {
      ReachIs(cfg, s, p, i);
      MatchIs(s.clients[i], p);
    }
  }

  /** The packets of one read, from the first on. */
  function OneByOne(cfg: Config, s: Session, ps: seq<Packet>): Session
    requires s.readFd
    decreases |ps|
  {
    if ps == [] then s else OneByOne(cfg, Step(cfg, s, Deliver(ps[0])), ps[1..])
  }

  /** A read of several packets is those packets, delivered one by one in their order. */
  lemma {:induction false} ReadIsOneByOne(cfg: Config, s: Session, ps: seq<Packet>)
    requires s.readFd
    ensures ReceivedAll(cfg, s, ps) == OneByOne(cfg, s, ps)
    decreases |ps|
  {
    if |ps| == 1 {
      assert ps[..0] == [] && ps[1..] == [];
    } else if ps != [] {
      var n := |ps| - 1;
      ReadIsOneByOne(cfg, s, ps[..n]);
      LastOfMany(cfg, s, ps);
    }
  }

  lemma {:induction false} LastOfMany(cfg: Config, s: Session, ps: seq<Packet>)
    requires s.readFd && ps != []
    ensures var before := OneByOne(cfg, s, ps[..|ps| - 1]);
            before.readFd && OneByOne(cfg, s, ps) == Step(cfg, before, Deliver(ps[|ps| - 1]))
    decreases |ps|
  {
    if |ps| == 1 {
      assert ps[..0] == [] && ps[1..] == [];
    } else {
      var n := |ps| - 1;
      assert ps[..n][1..] == ps[1..][..n - 1];
      LastOfMany(cfg, Step(cfg, s, Deliver(ps[0])), ps[1..]);
    }
  }

  /** The callback ends the command and leaves its status to be reported. */
  lemma CallbackEnds(cfg: Config, s: Session, i: nat)
    requires Inv(cfg, s) && Enabled(s, CallbackFires(i))
    ensures var c := s.clients[i];
            Step(cfg, s, CallbackFires(i)).clients[i] ==
            c.(callback := false, active := false, fdOpen := false, timer := None, calls := c.calls + 1)
  {
    CalledBackCounts(s, i);
  }

  /** A read that fails is reported to every active client, and to no other. */
  lemma FailureReported(cfg: Config, s: Session, i: nat)
    requires Enabled(s, ReadError) && i < |s.clients|
    ensures Step(cfg, s, ReadError).clients[i] ==
            if s.clients[i].active then s.clients[i].(status := Failed, callback := true) else s.clients[i]
  {
  }

  /** Canceling leaves nothing pending and frees the list, but not its length. */
  lemma CancelSilences(cfg: Config, s: Session, i: nat)
    requires Inv(cfg, s) && i < |s.clients|
    ensures Step(cfg, s, Cancel(i)).clients[i] ==
            s.clients[i].(active := false, status := NoStatus, fdOpen := false, timer := None, callback := false, detectList := [])
  {
    CanceledCounts(s, i);
  }

  // ---------------------------------------------------------------- commands

  /** A descriptor can be had: another client has it open, or a new one can be opened. */
  ghost predicate Available(s: Session, i: nat, bpf: bool) {
    bpf || exists k :: 0 <= k < |s.clients| && k != i && s.clients[k].fdOpen
  }

  lemma {:induction false} SomeOpen(clients: seq<Client>)
    ensures OpenCount(clients) > 0 <==> exists k :: 0 <= k < |clients| && clients[k].fdOpen
  {
    if clients != [] {
      var rest := clients[..|clients| - 1];
      SomeOpen(rest);
      if OpenCount(rest) > 0 {
        var k :| 0 <= k < |rest| && rest[k].fdOpen;
        assert clients[k].fdOpen;
      }
      if exists k :: 0 <= k < |clients| && clients[k].fdOpen {
        var k :| 0 <= k < |clients| && clients[k].fdOpen;
        assert k < |rest| ==> rest[k].fdOpen;
      }
    }
  }

  lemma AvailableIs(s: Session, i: nat, prepare: Client -> Client, bpf: bool)
    requires Counted(s) && i < |s.clients| && !prepare(Silent(s.clients[i])).fdOpen
    ensures OpenSucceeds(Prepared(s, i, prepare), i, bpf) <==> Available(s, i, bpf)
  {
    ReadyCounts(s, i, prepare, bpf);
    var q := Prepared(s, i, prepare);
    SomeOpen(q.clients);
    assert forall k :: 0 <= k < |s.clients| && k != i ==> q.clients[k] == s.clients[k];
  }

  /** A command begins from a client that was silenced, its counters cleared. */
  function Begun(c: Client, tries: nat, probing: bool): Client {
    c.(active := true, status := NoStatus, timer := None, callback := false, detectList := [], tries := tries,
       conflicts := 0, probing := probing, cycle := [], sent := 0, calls := 0)
  }

  /** Without a descriptor the command fails, and its client waits for nothing but the callback. */
  predicate CannotStart(c: Client, d: Client) {
    d == c.(fdOpen := false, status := Failed, callback := true)
  }

  /** A probe begins with plain packets, an announcement past them; it may skip the first packet. */
  ghost predicate Probes(cfg: Config, s: Session, d: Client, i: nat, sender: Ip, target: Ip,
                         announce: bool, skip: bool, bpf: bool, written: bool)
    requires i < |s.clients|
  {
    var c := Begun(s.clients[i], if announce then cfg.probes else 0, !announce)
             .(senderIp := sender, targetIp := target, skipFirst := skip);
    if Available(s, i, bpf)
    then ProbesOn(cfg, c.(fdOpen := true, status := Unknown, command := Probe), d, c.tries, written)
    else CannotStart(c, d)
  }

  lemma ProbeBegins(cfg: Config, s: Session, i: nat, sender: Ip, target: Ip, announce: bool, skip: bool, bpf: bool, written: bool)
    requires Inv(cfg, s) && i < |s.clients|
    ensures Probes(cfg, s, ProbeBegun(cfg, s, i, sender, target, announce, skip, bpf, written).clients[i],
                   i, sender, target, announce, skip, bpf, written)
  {
    var prepare := ProbeContext(cfg, sender, target, announce, skip);
    ReadyCounts(s, i, prepare, bpf);
    AvailableIs(s, i, prepare, bpf);
    var c := Begun(s.clients[i], if announce then cfg.probes else 0, !announce)
             .(senderIp := sender, targetIp := target, skipFirst := skip, fdOpen := true, status := Unknown, command := Probe);
    ProbeSends(cfg, c, written);
  }

  lemma ProbeStarts(cfg: Config, s: Session, i: nat, sender: Ip, target: Ip, bpf: bool, written: bool)
    requires Inv(cfg, s) && i < |s.clients|
    ensures Probes(cfg, s, Step(cfg, s, StartProbe(i, sender, target, bpf, written)).clients[i],
                   i, sender, target, false, false, bpf, written)
  {
    ProbeBegins(cfg, s, i, sender, target, false, false, bpf, written);
  }

  lemma AnnounceStarts(cfg: Config, s: Session, i: nat, sender: Ip, target: Ip, skip: bool, bpf: bool, written: bool)
    requires Inv(cfg, s) && i < |s.clients|
    ensures Probes(cfg, s, Step(cfg, s, StartAnnounce(i, sender, target, skip, bpf, written)).clients[i],
                   i, sender, target, true, skip, bpf, written)
  {
    ProbeBegins(cfg, s, i, sender, target, true, skip, bpf, written);
  }

  /** A resolve asks for so many seconds, sixteen if none are given. */
  lemma ResolveStarts(cfg: Config, s: Session, i: nat, sender: Ip, target: Ip, secs: UInt32, bpf: bool, written: bool)
    requires Inv(cfg, s) && i < |s.clients|
    ensures var d := Step(cfg, s, StartResolve(i, sender, target, secs, bpf, written)).clients[i];
            var c := Begun(s.clients[i], 0, false).(senderIp := sender, targetIp := target);
            var r := c.(fdOpen := true, status := Unknown, command := Resolve, resolveSecs := if secs == 0 then 16 else secs);
            if Available(s, i, bpf) then AsksOn(r, d, TimeUp(r), ResolveRetransmit, written) else CannotStart(c, d)
  {
    var prepare := ResolveContext(sender, target);
    ReadyCounts(s, i, prepare, bpf);
    AvailableIs(s, i, prepare, bpf);
    var c := Begun(s.clients[i], 0, false).(senderIp := sender, targetIp := target);
    ResolveSends(c.(fdOpen := true, status := Unknown, command := Resolve, resolveSecs := if secs > 0 then secs else 16), written);
  }

  /** A detect asks every address of its list, and cannot start with none. */
  lemma DetectStarts(cfg: Config, s: Session, i: nat, list: seq<Address>, bpf: bool, written: bool)
    requires Inv(cfg, s) && i < |s.clients|
    ensures var d := Step(cfg, s, StartDetect(i, list, bpf, written)).clients[i];
            var c := Begun(s.clients[i], 0, false);
            if list != [] && Available(s, i, bpf)
            then AsksOn(c.(fdOpen := true, status := Unknown, command := Detect, detectList := list, detectCount := |list|), d,
                        cfg.detects == 0, DetectRetransmit, written)
            else CannotStart(c, d)
  {
    var prepare := DetectContext();
    ReadyCounts(s, i, prepare, bpf);
    if list != [] {
      AvailableIs(s, i, prepare, bpf);
      DetectSends(cfg, Begun(s.clients[i], 0, false).(fdOpen := true, status := Unknown, command := Detect,
                                                      detectList := list, detectCount := |list|), written);
    }
  }

  lemma DefendsIf(s: Session, i: nat, bpf: bool)
    requires Counted(s) && i < |s.clients|
    ensures OpenSucceeds(Canceled(s, i), i, bpf) <==> Available(s, i, bpf)
  {
    CanceledCounts(s, i);
    var q := Canceled(s, i);
    SomeOpen(q.clients);
    assert forall k :: 0 <= k < |s.clients| && k != i ==> q.clients[k] == s.clients[k];
  }

  /** Defending an address leaves the client silent. */
  lemma DefendSilences(cfg: Config, s: Session, i: nat, ip: Ip, bpf: bool)
    requires Inv(cfg, s) && i < |s.clients|
    ensures var silent := s.clients[i].(active := false, status := NoStatus, fdOpen := false, timer := None,
                                        callback := false, detectList := []);
            Step(cfg, s, Defend(i, ip, bpf)).clients[i] ==
            if Available(s, i, bpf) then silent.(senderIp := ip, targetIp := ip) else silent
  {
    CanceledCounts(s, i);
    var q := Canceled(s, i);
    OpenedCounts(q, i, bpf);
    DefendsIf(s, i, bpf);
    if OpenSucceeds(q, i, bpf) {
      DefenseSentCounts(FdOpened(q, i, bpf), i, ip);
    }
  }

  /** A new client has nothing to do, and is asked last. */
  lemma AddedIsLast(cfg: Config, s: Session, collisions: bool)
    ensures var q := Step(cfg, s, NewClient(collisions));
            && |q.clients| == |s.clients| + 1 && q.clients[..|s.clients|] == s.clients
            && var c := q.clients[|s.clients|];
               !c.active && !c.fdOpen && c.command == NoCommand && c.probesAreCollisions == collisions
  {
  }
}
