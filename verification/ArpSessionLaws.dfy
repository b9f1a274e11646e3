/** What every interleaving of ARP events keeps, and how far a command can run. */
module ArpSessionLaws {
  import opened Common
  import opened Filtering
  import opened ArpSession

  // ---------------------------------------------------------------- the invariant

  function OpenCount(clients: seq<Client>): nat {
    if clients == [] then 0
    else OpenCount(clients[..|clients| - 1]) + if clients[|clients| - 1].fdOpen then 1 else 0
  }

  function Min(a: nat, b: nat): nat { if a < b then a else b }

  /** Active exactly while something is pending; a pending timer has a descriptor to write to. */
  ghost predicate Alive(c: Client) {
    && (c.active <==> c.timer.Some? || c.callback)
    && (c.timer.Some? ==> c.fdOpen)
    && (c.fdOpen ==> c.active)
    && c.calls <= 1 && (c.active ==> c.calls == 0)
  }

  /** The pending timer belongs to the command, whose tries are within its budget. */
  ghost predicate Matched(cfg: Config, c: Client) {
    match c.timer
    case None => true
    case Some(ProbeStart) => c.command == Probe
    case Some(ProbeRetransmit) => c.command == Probe
    case Some(ResolveRetransmit) => c.command == Resolve && c.tries <= c.resolveSecs
    case Some(DetectRetransmit) => c.command == Detect && c.tries <= cfg.detects
  }

  /** Packets of earlier cycles, one cycle per counted conflict, plus those of the current one. */
  ghost predicate Frugal(cfg: Config, c: Client) {
    c.fdOpen && c.command == Probe ==>
      && c.tries <= cfg.Cycle()
      && c.sent <= Min(c.conflicts, cfg.conflictRetries) * cfg.Cycle()
                   + if c.timer == Some(ProbeStart) then 0 else c.tries
  }

  /** One cycle, and one more for every conflict retry; also when the command is over. */
  ghost predicate Bounded(cfg: Config, c: Client) {
    c.sent <= (cfg.conflictRetries + 1) * cfg.Cycle()
  }

  /** Since the last (re)start of a probe: plain probes first, announcements after them. */
  ghost predicate Ordered(cfg: Config, c: Client) {
    c.fdOpen && c.command == Probe && c.probing ==>
      && !c.skipFirst && |c.cycle| <= c.tries
      && (forall k :: 0 <= k < |c.cycle| ==> c.cycle[k] == if k < cfg.probes then Plain else Gratuitous)
      && (c.timer == Some(ProbeRetransmit) ==> |c.cycle| == c.tries)
  }

  /** A detect with a descriptor has the list it was given. */
  ghost predicate Listed(c: Client) {
    c.fdOpen && c.command == Detect ==> c.detectCount == |c.detectList| && c.detectList != []
  }

  ghost predicate ClientOk(cfg: Config, c: Client) {
    Alive(c) && Listed(c) && Matched(cfg, c) && Frugal(cfg, c) && Bounded(cfg, c) && Ordered(cfg, c)
  }

  ghost predicate ClientsOk(cfg: Config, clients: seq<Client>) {
    forall j :: 0 <= j < |clients| ==> ClientOk(cfg, clients[j])
  }

  /** The descriptor is shared by exactly the clients that count it, and is there while any does. */
  ghost predicate Counted(s: Session) {
    && s.refcount == OpenCount(s.clients)
    && s.readFd == s.receiveBuf == (s.refcount > 0)
    && !s.nullDereference
  }

  ghost predicate Inv(cfg: Config, s: Session) {
    Counted(s) && ClientsOk(cfg, s.clients)
  }

  // ---------------------------------------------------------------- counting open descriptors

  lemma {:induction false} OpenCountUpdate(clients: seq<Client>, i: nat, c: Client)
    requires i < |clients|
    ensures OpenCount(clients[i := c]) ==
            OpenCount(clients) - (if clients[i].fdOpen then 1 else 0) + (if c.fdOpen then 1 else 0)
  {
    var last := |clients| - 1;
    if i < last {
      OpenCountUpdate(clients[..last], i, c);
      assert clients[i := c][..last] == clients[..last][i := c];
    } else {
      assert clients[i := c][..last] == clients[..last];
    }
  }

  lemma {:induction false} OpenCountRemoved(clients: seq<Client>, i: nat)
    requires i < |clients| && !clients[i].fdOpen
    ensures OpenCount(RemovedAt(clients, i)) == OpenCount(clients)
  {
    var last := |clients| - 1;
    if i < last {
      OpenCountRemoved(clients[..last], i);
      assert RemovedAt(clients, i)[..last - 1] == RemovedAt(clients[..last], i);
    } else {
      assert RemovedAt(clients, i) == clients[..last];
    }
  }

  lemma {:induction false} OpenCountSame(a: seq<Client>, b: seq<Client>)
    requires |a| == |b| && forall j :: 0 <= j < |a| ==> a[j].fdOpen == b[j].fdOpen
    ensures OpenCount(a) == OpenCount(b)
  {
    if a != [] {
      OpenCountSame(a[..|a| - 1], b[..|b| - 1]);
    }
  }

  lemma {:induction false} OpenCountPositive(clients: seq<Client>, i: nat)
    requires i < |clients| && clients[i].fdOpen
    ensures OpenCount(clients) > 0
  {
    if i < |clients| - 1 {
      OpenCountPositive(clients[..|clients| - 1], i);
    }
  }

  // ---------------------------------------------------------------- descriptors keep the count

  lemma ClosedCounts(s: Session, i: nat)
    requires Counted(s) && i < |s.clients|
    ensures Counted(FdClosed(s, i))
    ensures FdClosed(s, i).clients == s.clients[i := s.clients[i].(fdOpen := false)]
  {
    OpenCountUpdate(s.clients, i, s.clients[i].(fdOpen := false));
    if s.clients[i].fdOpen {
      OpenCountPositive(s.clients, i);
    }
  }

  lemma OpenedCounts(s: Session, i: nat, bpf: bool)
    requires Counted(s) && i < |s.clients|
    ensures Counted(FdOpened(s, i, bpf))
    ensures FdOpened(s, i, bpf).clients == s.clients[i := s.clients[i].(fdOpen := OpenSucceeds(s, i, bpf))]
  {
    OpenCountUpdate(s.clients, i, s.clients[i].(fdOpen := true));
    if !OpenSucceeds(s, i, bpf) {
      var open := s.clients[i := s.clients[i].(fdOpen := true)];
      assert open[i := open[i].(fdOpen := false)] == s.clients == s.clients[i := s.clients[i].(fdOpen := false)];
    }
  }

  lemma UpdateCounts(s: Session, i: nat, c: Client)
    requires Counted(s) && i < |s.clients| && c.fdOpen == s.clients[i].fdOpen
    ensures Counted(s.(clients := s.clients[i := c]))
  {
    OpenCountUpdate(s.clients, i, c);
  }

  lemma TriedCounts(s: Session, i: nat, uses: bool, c: Client)
    requires Counted(s) && i < |s.clients| && c.fdOpen == s.clients[i].fdOpen
    requires uses ==> c.fdOpen
    ensures Counted(Tried(s, i, uses, c))
  {
    UpdateCounts(s, i, c);
    if uses {
      OpenCountPositive(s.clients, i);
    }
  }

  function Silent(c: Client): Client {
    c.(active := false, status := NoStatus, fdOpen := false, timer := None, detectList := [], callback := false)
  }

  lemma CanceledCounts(s: Session, i: nat)
    requires Counted(s) && i < |s.clients|
    ensures Counted(Canceled(s, i))
    ensures Canceled(s, i).clients == s.clients[i := Silent(s.clients[i])]
  {
    var c := s.clients[i].(active := false, status := NoStatus);
    var q := s.(clients := s.clients[i := c]);
    UpdateCounts(s, i, c);
    ClosedCounts(q, i);
    var r := FdClosed(q, i);
    UpdateCounts(r, i, r.clients[i].(timer := None, detectList := [], callback := false));
  }

  // ---------------------------------------------------------------- starting commands

  function Ready(c: Client, prepare: Client -> Client): Client {
    prepare(Silent(c)).(active := true, conflicts := 0, cycle := [], sent := 0, calls := 0)
  }

  /** The start of every command: its client silenced and prepared, its descriptor opened if it can be. */
  lemma ReadyCounts(s: Session, i: nat, prepare: Client -> Client, bpf: bool)
    requires Counted(s) && i < |s.clients| && !prepare(Silent(s.clients[i])).fdOpen
    ensures var q := Prepared(s, i, prepare);
            var c := Ready(s.clients[i], prepare);
            && Counted(q) && q.clients == s.clients[i := c]
            && Counted(FdOpened(q, i, bpf))
            && FdOpened(q, i, bpf).clients == s.clients[i := c.(fdOpen := OpenSucceeds(q, i, bpf))]
  {
    CanceledCounts(s, i);
    var q := Canceled(s, i);
    UpdateCounts(q, i, Ready(s.clients[i], prepare));
    OpenedCounts(Prepared(s, i, prepare), i, bpf);
  }

  lemma ReplacedOk(cfg: Config, s: Session, i: nat, c: Client, after: Session)
    requires Inv(cfg, s) && i < |s.clients| && ClientOk(cfg, c)
    requires Counted(after) && after.clients == s.clients[i := c]
    ensures Inv(cfg, after)
  {
  }

  /** A command that could not start still reports: it waits for its callback alone. */
  lemma NotStartedOk(cfg: Config, s: Session, i: nat, c: Client, o: Session)
    requires Inv(cfg, s) && i < |s.clients|
    requires Counted(o) && o.clients == s.clients[i := c]
    requires c.active && c.calls == 0 && c.timer == None && !c.fdOpen && c.sent == 0
    ensures Inv(cfg, NotStarted(o, i))
  {
    UpdateCounts(o, i, ScheduleCallback(c, Failed));
    ReplacedOk(cfg, s, i, ScheduleCallback(c, Failed), NotStarted(o, i));
  }

  lemma StartedOk(cfg: Config, s: Session, i: nat, o: Session, uses: bool, c: Client)
    requires Inv(cfg, s) && i < |s.clients| && ClientOk(cfg, c) && c.fdOpen
    requires Counted(o) && |o.clients| == |s.clients| && o.clients[i].fdOpen && o.clients[i := c] == s.clients[i := c]
    ensures Inv(cfg, Tried(o, i, uses, c))
  {
    TriedCounts(o, i, uses, c);
    ReplacedOk(cfg, s, i, c, Tried(o, i, uses, c));
  }

  lemma FirstProbeOk(cfg: Config, c: Client, sender: Ip, target: Ip, announce: bool, skip: bool, written: bool)
    requires skip ==> announce
    ensures var d := Ready(c, ProbeContext(cfg, sender, target, announce, skip))
                     .(fdOpen := true, status := Unknown, command := Probe);
            ClientOk(cfg, ProbeRetransmitted(cfg, d, written)) && ProbeRetransmitted(cfg, d, written).fdOpen
  {
    ProbeRetransmittedOk(cfg, Ready(c, ProbeContext(cfg, sender, target, announce, skip))
                              .(fdOpen := true, status := Unknown, command := Probe), written);
  }

  lemma ProbeBegunOk(cfg: Config, s: Session, i: nat, sender: Ip, target: Ip,
                     announce: bool, skip: bool, bpf: bool, written: bool)
    requires Inv(cfg, s) && i < |s.clients| && (skip ==> announce)
    ensures Inv(cfg, ProbeBegun(cfg, s, i, sender, target, announce, skip, bpf, written))
  {
    var prepare := ProbeContext(cfg, sender, target, announce, skip);
    ReadyCounts(s, i, prepare, bpf);
    var q := Prepared(s, i, prepare);
    var o := FdOpened(q, i, bpf);
    if OpenSucceeds(q, i, bpf) {
      var c := o.clients[i].(status := Unknown, command := Probe);
      FirstProbeOk(cfg, s.clients[i], sender, target, announce, skip, written);
      StartedOk(cfg, s, i, o, Transmits(cfg, c), ProbeRetransmitted(cfg, c, written));
    } else {
      NotStartedOk(cfg, s, i, o.clients[i], o);
    }
  }

  lemma FirstResolveOk(cfg: Config, c: Client, written: bool)
    requires c.fdOpen && c.active && c.command == Resolve && c.timer == None && c.calls == 0 && c.tries == 0 && c.sent == 0
    ensures ClientOk(cfg, ResolveRetransmitted(c, written)) && ResolveRetransmitted(c, written).fdOpen
  {
  }

  lemma ResolveBegunOk(cfg: Config, s: Session, i: nat, sender: Ip, target: Ip, secs: UInt32, bpf: bool, written: bool)
    requires Inv(cfg, s) && i < |s.clients|
    ensures Inv(cfg, ResolveBegun(s, i, sender, target, secs, bpf, written))
  {
    var prepare := ResolveContext(sender, target);
    ReadyCounts(s, i, prepare, bpf);
    var q := Prepared(s, i, prepare);
    var o := FdOpened(q, i, bpf);
    if OpenSucceeds(q, i, bpf) {
      var c := o.clients[i].(status := Unknown, command := Resolve,
                             resolveSecs := if secs > 0 then secs else DEFAULT_RESOLVE_SECS);
      FirstResolveOk(cfg, c, written);
      StartedOk(cfg, s, i, o, ResolveTriesLeft(c) > 0, ResolveRetransmitted(c, written));
    } else {
      NotStartedOk(cfg, s, i, o.clients[i], o);
    }
  }

  lemma DetectBegunOk(cfg: Config, s: Session, i: nat, list: seq<Address>, bpf: bool, written: bool)
    requires Inv(cfg, s) && i < |s.clients|
    ensures Inv(cfg, DetectBegun(cfg, s, i, list, bpf, written))
  {
    var prepare := DetectContext();
    ReadyCounts(s, i, prepare, bpf);
    var q := Prepared(s, i, prepare);
    var o := FdOpened(q, i, bpf);
    if list == [] {
      NotStartedOk(cfg, s, i, q.clients[i], q);
    } else if OpenSucceeds(q, i, bpf) {
      var c := o.clients[i].(status := Unknown, command := Detect, detectList := list, detectCount := |list|);
      StartedOk(cfg, s, i, o, cfg.detects > c.tries, DetectRetransmitted(cfg, c, written));
    } else {
      NotStartedOk(cfg, s, i, o.clients[i], o);
    }
  }

  lemma CanceledOk(cfg: Config, s: Session, i: nat)
    requires Inv(cfg, s) && i < |s.clients|
    ensures Inv(cfg, Canceled(s, i))
  {
    CanceledCounts(s, i);
  }

  /** One packet on a descriptor that is closed again. */
  lemma DefenseSentCounts(o: Session, i: nat, ip: Ip)
    requires Counted(o) && i < |o.clients| && o.clients[i].fdOpen
    ensures var c := o.clients[i].(senderIp := ip, targetIp := ip);
            var q := FdClosed(Tried(o, i, true, c), i);
            Counted(q) && q.clients == o.clients[i := c.(fdOpen := false)]
  {
    var c := o.clients[i].(senderIp := ip, targetIp := ip);
    TriedCounts(o, i, true, c);
    ClosedCounts(Tried(o, i, true, c), i);
  }

  lemma DefendedOk(cfg: Config, s: Session, i: nat, ip: Ip, bpf: bool)
    requires Inv(cfg, s) && i < |s.clients|
    ensures Inv(cfg, Defended(s, i, ip, bpf))
  {
    CanceledCounts(s, i);
    var q := Canceled(s, i);
    OpenedCounts(q, i, bpf);
    var c := Silent(s.clients[i]);
    if OpenSucceeds(q, i, bpf) {
      DefenseSentCounts(FdOpened(q, i, bpf), i, ip);
      ReplacedOk(cfg, s, i, c.(senderIp := ip, targetIp := ip), Defended(s, i, ip, bpf));
    } else {
      ReplacedOk(cfg, s, i, c, Defended(s, i, ip, bpf));
    }
  }

  // ---------------------------------------------------------------- timers and callbacks

  lemma ProbeRetransmittedOk(cfg: Config, c: Client, written: bool)
    requires c.fdOpen && c.active && c.command == Probe && c.timer == None && c.calls == 0
    requires Frugal(cfg, c) && Bounded(cfg, c)
    requires c.probing ==> Ordered(cfg, c.(timer := Some(ProbeRetransmit)))
    ensures ClientOk(cfg, ProbeRetransmitted(cfg, c, written))
  {
    SentFits(cfg, c);
  }

  lemma SentFits(cfg: Config, c: Client)
    requires Frugal(cfg, c) && c.fdOpen && c.command == Probe && c.timer != Some(ProbeStart)
    ensures c.tries < cfg.Cycle() ==> c.sent + 1 <= (cfg.conflictRetries + 1) * cfg.Cycle()
  {
    MinTimes(c.conflicts, cfg.conflictRetries, cfg.Cycle());
  }

  lemma MinTimes(a: nat, b: nat, n: nat)
    ensures Min(a, b) * n + n <= (b + 1) * n
  {
    var m := Min(a, b);
    assert (b - m) * n >= 0;
    assert (b + 1) * n == m * n + (b - m) * n + n;
  }

  lemma ProbeTimerOk(cfg: Config, c: Client, written: bool)
    requires ClientOk(cfg, c) && (c.timer == Some(ProbeStart) || c.timer == Some(ProbeRetransmit))
    ensures ClientOk(cfg, Retransmitted(cfg, c.(timer := None), c.timer.value, written))
  {
    var d := c.(timer := None);
    ProbeRetransmittedOk(cfg, if c.timer.value == ProbeStart then d.(tries := 0, status := Unknown, cycle := []) else d,
                         written);
  }

  lemma ResolveTimerOk(cfg: Config, c: Client, written: bool)
    requires ClientOk(cfg, c) && c.timer == Some(ResolveRetransmit)
    ensures ClientOk(cfg, ResolveRetransmitted(c.(timer := None), written))
  {
  }

  lemma DetectTimerOk(cfg: Config, c: Client, written: bool)
    requires ClientOk(cfg, c) && c.timer == Some(DetectRetransmit)
    ensures ClientOk(cfg, DetectRetransmitted(cfg, c.(timer := None), written))
  {
  }

  lemma RetransmittedOk(cfg: Config, c: Client, written: bool)
    requires ClientOk(cfg, c) && c.timer.Some?
    ensures ClientOk(cfg, Retransmitted(cfg, c.(timer := None), c.timer.value, written))
  {
    match c.timer.value
    case ProbeStart => ProbeTimerOk(cfg, c, written);
    case ProbeRetransmit => ProbeTimerOk(cfg, c, written);
    case ResolveRetransmit => ResolveTimerOk(cfg, c, written);
    case DetectRetransmit => DetectTimerOk(cfg, c, written);
  }

  lemma TimerFiredOk(cfg: Config, s: Session, i: nat, written: bool)
    requires Inv(cfg, s) && i < |s.clients| && s.clients[i].timer.Some?
    ensures Inv(cfg, TimerFired(cfg, s, i, written))
  {
    var c := s.clients[i];
    RetransmittedOk(cfg, c, written);
    TriedCounts(s, i, UsesDescriptor(cfg, c.(timer := None), c.timer.value),
                Retransmitted(cfg, c.(timer := None), c.timer.value, written));
  }

  function Heard(c: Client): Client {
    c.(callback := false, active := false, fdOpen := false, timer := None, calls := c.calls + 1)
  }

  lemma CalledBackCounts(s: Session, i: nat)
    requires Counted(s) && i < |s.clients|
    ensures Counted(CalledBack(s, i)) && CalledBack(s, i).clients == s.clients[i := Heard(s.clients[i])]
  {
    var c := s.clients[i].(callback := false, active := false);
    UpdateCounts(s, i, c);
    var q := s.(clients := s.clients[i := c]);
    ClosedCounts(q, i);
    var r := FdClosed(q, i);
    UpdateCounts(r, i, r.clients[i].(timer := None, calls := r.clients[i].calls + 1));
  }

  lemma CalledBackOk(cfg: Config, s: Session, i: nat)
    requires Inv(cfg, s) && i < |s.clients| && s.clients[i].callback
    ensures Inv(cfg, CalledBack(s, i))
    ensures CalledBack(s, i).clients[i].calls == 1
  {
    CalledBackCounts(s, i);
    ReplacedOk(cfg, s, i, Heard(s.clients[i]), CalledBack(s, i));
  }

  // ---------------------------------------------------------------- packets

  /** A packet restarts a client that has no descriptor. */
  predicate StrayRestart(cfg: Config, clients: seq<Client>, p: Packet) {
    var r := RestartIndex(cfg, clients, p, 0);
    r < |clients| && !clients[r].fdOpen
  }

  lemma MinGrows(a: nat, b: nat, n: nat)
    requires a + 1 <= b
    ensures Min(a, b) * n + n == Min(a + 1, b) * n
  {
  }

  lemma MinMonotone(a: nat, b: nat, n: nat)
    ensures Min(a, b) * n <= Min(a + 1, b) * n
  {
    if a < b {
      MinGrows(a, b, n);
    }
  }

  lemma TouchedOk(cfg: Config, c: Client, p: Packet)
    requires ClientOk(cfg, c)
    requires Restarts(cfg, c, p) ==> c.fdOpen
    ensures ClientOk(cfg, Touched(cfg, c, p))
  {
    MinMonotone(c.conflicts, cfg.conflictRetries, cfg.Cycle());
    if Restarts(cfg, c, p) {
      MinGrows(c.conflicts, cfg.conflictRetries, cfg.Cycle());
    }
  }

  /** A packet that fails: it restarts a client without a descriptor, or is compared with a freed list. */
  predicate StrayPacket(cfg: Config, clients: seq<Client>, p: Packet) {
    StrayRestart(cfg, clients, p) || Misread(cfg, clients, p)
  }

  lemma StrayBreaks(cfg: Config, s: Session, p: Packet)
    requires StrayPacket(cfg, s.clients, p)
    ensures !Inv(cfg, Received(cfg, s, p))
  {
    if StrayRestart(cfg, s.clients, p) {
      var r := RestartIndex(cfg, s.clients, p, 0);
      assert !Alive(Delivered(cfg, s.clients, p)[r]);
    }
  }

  lemma DeliveredCounts(cfg: Config, s: Session, p: Packet)
    requires Counted(s) && !Misread(cfg, s.clients, p)
    ensures Counted(Received(cfg, s, p))
  {
    OpenCountSame(s.clients, Delivered(cfg, s.clients, p));
  }

  lemma DeliveredOk(cfg: Config, s: Session, p: Packet)
    requires Inv(cfg, s) && !StrayPacket(cfg, s.clients, p)
    ensures Inv(cfg, Received(cfg, s, p))
  {
    var after := Delivered(cfg, s.clients, p);
    DeliveredCounts(cfg, s, p);
    forall j | 0 <= j < |after| ensures ClientOk(cfg, after[j]) {
      if j <= RestartIndex(cfg, s.clients, p, 0) {
        TouchedOk(cfg, s.clients[j], p);
      }
    }
  }

  lemma ReadFailedOk(cfg: Config, s: Session)
    requires Inv(cfg, s)
    ensures Inv(cfg, s.(clients := ReadFailed(s.clients)))
  {
    OpenCountSame(s.clients, ReadFailed(s.clients));
  }

  // ---------------------------------------------------------------- every run

  predicate Stray(cfg: Config, s: Session, e: Event) {
    e.Deliver? && StrayPacket(cfg, s.clients, e.p)
  }

  lemma CommandKeepsInv(cfg: Config, s: Session, e: Event)
    requires Inv(cfg, s) && Enabled(s, e)
    requires e.StartProbe? || e.StartAnnounce? || e.StartResolve? || e.StartDetect?
    ensures Inv(cfg, Step(cfg, s, e))
  {
    match e
    case StartProbe(i, sender, target, bpf, written) =>
      ProbeBegunOk(cfg, s, i, sender, target, false, false, bpf, written);
    case StartAnnounce(i, sender, target, skip, bpf, written) =>
      ProbeBegunOk(cfg, s, i, sender, target, true, skip, bpf, written);
    case StartResolve(i, sender, target, secs, bpf, written) =>
      ResolveBegunOk(cfg, s, i, sender, target, secs, bpf, written);
    case StartDetect(i, list, bpf, written) => DetectBegunOk(cfg, s, i, list, bpf, written);
  }

  lemma {:induction false} OpenCountAppend(clients: seq<Client>, c: Client)
    requires !c.fdOpen
    ensures OpenCount(clients + [c]) == OpenCount(clients)
  {
    assert (clients + [c])[..|clients|] == clients;
  }

  lemma IdleOk(cfg: Config, c: Client)
    requires c == Idle.(probesAreCollisions := c.probesAreCollisions)
    ensures ClientOk(cfg, c)
  {
  }

  lemma NewClientOk(cfg: Config, s: Session, collisions: bool)
    requires Inv(cfg, s)
    ensures Inv(cfg, Step(cfg, s, NewClient(collisions)))
  {
    var c := Idle.(probesAreCollisions := collisions);
    OpenCountAppend(s.clients, c);
    IdleOk(cfg, c);
  }

  lemma FreedOk(cfg: Config, s: Session, i: nat)
    requires Inv(cfg, s) && i < |s.clients|
    ensures Inv(cfg, Freed(s, i))
  {
    CanceledCounts(s, i);
    CanceledOk(cfg, s, i);
    OpenCountRemoved(Canceled(s, i).clients, i);
  }

  /** Every event keeps the invariant, but for a packet that restarts a client without a descriptor or
      meets a client whose list was freed. */
  lemma StepKeepsInv(cfg: Config, s: Session, e: Event)
    requires Inv(cfg, s) && Enabled(s, e)
    ensures Inv(cfg, Step(cfg, s, e)) <==> !Stray(cfg, s, e)
  {
    match e
    case NewClient(collisions) => NewClientOk(cfg, s, collisions);
    case Free(i) => FreedOk(cfg, s, i);
    case Cancel(i) => CanceledOk(cfg, s, i);
    case Defend(i, ip, bpf) => DefendedOk(cfg, s, i, ip, bpf);
    case TimerFires(i, written) => TimerFiredOk(cfg, s, i, written);
    case CallbackFires(i) => CalledBackOk(cfg, s, i);
    case Deliver(p) => if Stray(cfg, s, e) { StrayBreaks(cfg, s, p); } else { DeliveredOk(cfg, s, p); }
    case ReadError => ReadFailedOk(cfg, s);
    case _ => CommandKeepsInv(cfg, s, e);
  }

  predicate CanRun(cfg: Config, s: Session, es: seq<Event>)
    decreases |es|
  {
    es == [] || (Enabled(s, es[0]) && !Stray(cfg, s, es[0]) && CanRun(cfg, Step(cfg, s, es[0]), es[1..]))
  }

  function Run(cfg: Config, s: Session, es: seq<Event>): Session
    requires CanRun(cfg, s, es)
    decreases |es|
  {
    if es == [] then s else Run(cfg, Step(cfg, s, es[0]), es[1..])
  }

  lemma {:induction false} RunKeepsInv(cfg: Config, s: Session, es: seq<Event>)
    requires Inv(cfg, s) && CanRun(cfg, s, es)
    ensures Inv(cfg, Run(cfg, s, es))
    decreases |es|
  {
    if es != [] {
      StepKeepsInv(cfg, s, es[0]);
      RunKeepsInv(cfg, Step(cfg, s, es[0]), es[1..]);
    }
  }

  /** Several packets read at once: none of them, met in turn, fails. */
  predicate NoStray(cfg: Config, s: Session, ps: seq<Packet>) {
    ps == [] || (var before := ps[..|ps| - 1];
                 NoStray(cfg, s, before) && !StrayPacket(cfg, ReceivedAll(cfg, s, before).clients, ps[|ps| - 1]))
  }

  lemma {:induction false} ReadKeepsInv(cfg: Config, s: Session, ps: seq<Packet>)
    requires Inv(cfg, s) && NoStray(cfg, s, ps)
    ensures Inv(cfg, ReceivedAll(cfg, s, ps))
    decreases |ps|
  {
    if ps != [] {
      var before := ps[..|ps| - 1];
      ReadKeepsInv(cfg, s, before);
      DeliveredOk(cfg, ReceivedAll(cfg, s, before), ps[|ps| - 1]);
    }
  }
}
