/**
 ARP commands of many clients over one packet descriptor per interface.  A command probes an
 address, resolves one, or detects which of several routers answers; it ends in one callback.
 Retransmit timers, scheduled callbacks and packets interleave freely.
 */
module ArpSession {
  import opened Common
  import opened Filtering

  type Ip = nat
  type HwAddr = seq<nat>
  type UInt32 = n: nat | n < 0x1_0000_0000

  datatype Command = NoCommand | Probe | Resolve | Detect
  datatype Status = NoStatus | NotInUse | InUse | Failed | Unknown
  datatype Timer = ProbeStart | ProbeRetransmit | ResolveRetransmit | DetectRetransmit
  datatype Transmission = Plain | Gratuitous
  datatype Operation = Request | Reply

  datatype Address = Address(senderIp: Ip, targetIp: Ip, targetHw: HwAddr)
  datatype Packet = Packet(op: Operation, fromUs: bool, senderIp: Ip, targetIp: Ip, senderHw: HwAddr)

  /** Session-wide counts: plain probes, announcements, detect rounds, conflict retries. */
  datatype Config = Config(probes: nat, announcements: nat, detects: nat, conflictRetries: nat) {
    function Cycle(): nat { probes + announcements }
  }

  /**
   `detectCount` is the length of the list of the last detect; canceling frees the list and leaves it.
   `cycle` records the probe packets sent since the last (re)start, `sent` counts those of the whole
   command, `calls` the callbacks made for it; `probing` tells `ClientProbe` from `ClientAnnounce`.
   */
  datatype Client = Client(
    command: Command, status: Status, fdOpen: bool, active: bool,
    tries: nat, conflicts: nat, timer: Option<Timer>, callback: bool,
    senderIp: Ip, targetIp: Ip, probesAreCollisions: bool, skipFirst: bool,
    resolveSecs: UInt32, detectList: seq<Address>, detectCount: nat, inUse: Address,
    probing: bool, cycle: seq<Transmission>, sent: nat, calls: nat)

  datatype Session = Session(
    clients: seq<Client>, refcount: int, readFd: bool, receiveBuf: bool, nullDereference: bool)

  const WORD: nat := 0x1_0000_0000
  const DEFAULT_RESOLVE_SECS: UInt32 := 16

  const Idle: Client := Client(NoCommand, NoStatus, false, false, 0, 0, None, false, 0, 0, false, false,
                               0, [], 0, Address(0, 0, []), false, [], 0, 0)

  // ---------------------------------------------------------------- one client

  function ScheduleCallback(c: Client, status: Status): Client {
    c.(status := status, callback := true)
  }

  /** The probe packet of the next retransmission, when there is one. */
  predicate Transmits(cfg: Config, c: Client) {
    c.tries < cfg.Cycle() && !c.skipFirst
  }

  function ProbeRetransmitted(cfg: Config, c: Client, written: bool): Client {
    var left := cfg.Cycle() - c.tries;
    if left <= 0 then ScheduleCallback(c, NotInUse)
    else if c.skipFirst then
      c.(tries := c.tries + 1, skipFirst := false, timer := Some(ProbeRetransmit))
    else if written then
      c.(tries := c.tries + 1, timer := Some(ProbeRetransmit), sent := c.sent + 1,
         cycle := c.cycle + [if left <= cfg.announcements then Gratuitous else Plain])
    else ScheduleCallback(c.(tries := c.tries + 1), Failed)
  }

  function ProbeStarted(cfg: Config, c: Client, written: bool): Client {
    ProbeRetransmitted(cfg, c.(tries := 0, status := Unknown, cycle := []), written)
  }

  /** The subtraction is done on 32-bit words and the result read as a signed number. */
  function ResolveTriesLeft(c: Client): int {
    var word := (c.resolveSecs - c.tries) % WORD;
    if word < WORD / 2 then word else word - WORD
  }

  function ResolveRetransmitted(c: Client, written: bool): Client {
    if ResolveTriesLeft(c) <= 0 then ScheduleCallback(c, NotInUse)
    else if written then c.(tries := c.tries + 1, timer := Some(ResolveRetransmit))
    else ScheduleCallback(c.(tries := c.tries + 1), Failed)
  }

  function DetectRetransmitted(cfg: Config, c: Client, allWritten: bool): Client {
    if cfg.detects - c.tries <= 0 then ScheduleCallback(c, NotInUse)
    else if allWritten || c.detectList == [] then c.(tries := c.tries + 1, timer := Some(DetectRetransmit))
    else ScheduleCallback(c.(tries := c.tries + 1), Failed)
  }

  predicate UsesDescriptor(cfg: Config, c: Client, t: Timer) {
    match t
    case ProbeStart => cfg.Cycle() > 0 && !c.skipFirst
    case ProbeRetransmit => Transmits(cfg, c)
    case ResolveRetransmit => ResolveTriesLeft(c) > 0
    case DetectRetransmit => cfg.detects > c.tries && c.detectList != []
  }

  function Retransmitted(cfg: Config, c: Client, t: Timer, written: bool): Client {
    match t
    case ProbeStart => ProbeStarted(cfg, c, written)
    case ProbeRetransmit => ProbeRetransmitted(cfg, c, written)
    case ResolveRetransmit => ResolveRetransmitted(c, written)
    case DetectRetransmit => DetectRetransmitted(cfg, c, written)
  }

  /** What a packet says about a client's command, if anything. */
  function Match(c: Client, p: Packet): Option<Address> {
    match c.command
    case Probe =>
      if !p.fromUs && (c.targetIp == p.senderIp
                       || (c.probesAreCollisions && p.op == Request && p.senderIp == 0 && c.targetIp == p.targetIp))
      then Some(Address(c.senderIp, c.targetIp, p.senderHw)) else None
    case Resolve =>
      if c.targetIp == p.senderIp && p.op == Reply
      then Some(Address(c.senderIp, c.targetIp, p.senderHw)) else None
    case Detect =>
      if p.op == Reply then FirstAnswer(c.detectList, p, 0) else None
    case NoCommand => None
  }

  predicate Answers(a: Address, p: Packet) {
    a.senderIp == p.targetIp && a.targetIp == p.senderIp && a.targetHw == p.senderHw
  }

  function FirstAnswer(list: seq<Address>, p: Packet, i: nat): (r: Option<Address>)
    requires i <= |list|
    ensures r.Some? ==> r.value in list[i..] && Answers(r.value, p)
    ensures r.None? ==> forall j :: i <= j < |list| ==> !Answers(list[j], p)
    decreases |list| - i
  {
    if i == |list| then None
    else if Answers(list[i], p) then Some(list[i])
    else FirstAnswer(list, p, i + 1)
  }

  predicate Concerns(c: Client, p: Packet) {
    c.active && c.status != InUse && Match(c, p).Some?
  }

  /** The client compares the packet with entries of a list that was freed. */
  predicate Misreads(c: Client, p: Packet) {
    && c.active && c.status != InUse && c.command == Detect && p.op == Reply
    && Match(c, p).None? && c.detectCount > |c.detectList|
  }

  /** The packet is a conflict that starts another probe cycle instead of ending the command. */
  predicate Restarts(cfg: Config, c: Client, p: Packet) {
    && Concerns(c, p) && c.command == Probe && !c.probesAreCollisions
    && c.conflicts + 1 <= cfg.conflictRetries
  }

  function Touched(cfg: Config, c: Client, p: Packet): Client {
    if !Concerns(c, p) then c
    else
      var d := c.(inUse := Match(c, p).value, status := InUse,
                  conflicts := c.conflicts + if c.command == Probe && !c.probesAreCollisions then 1 else 0);
      if Restarts(cfg, c, p) then d.(timer := Some(ProbeStart))
      else ScheduleCallback(d, InUse)
  }

  /** The first client the packet restarts; those after it never see the packet. */
  function RestartIndex(cfg: Config, clients: seq<Client>, p: Packet, i: nat): (r: nat)
    requires i <= |clients|
    ensures i <= r <= |clients|
    ensures forall j :: i <= j < r ==> !Restarts(cfg, clients[j], p)
    ensures r < |clients| ==> Restarts(cfg, clients[r], p)
    decreases |clients| - i
  {
    if i == |clients| || Restarts(cfg, clients[i], p) then i
    else RestartIndex(cfg, clients, p, i + 1)
  }

  function Delivered(cfg: Config, clients: seq<Client>, p: Packet): (r: seq<Client>)
    ensures |r| == |clients|
  {
    var last := RestartIndex(cfg, clients, p, 0);
    seq(|clients|, j requires 0 <= j < |clients| =>
      if j <= last then Touched(cfg, clients[j], p) else clients[j])
  }

  /** Some client the packet reaches reads through a freed list. */
  predicate Misread(cfg: Config, clients: seq<Client>, p: Packet) {
    exists j :: 0 <= j < |clients| && j <= RestartIndex(cfg, clients, p, 0) && Misreads(clients[j], p)
  }

  function Received(cfg: Config, s: Session, p: Packet): (r: Session)
    ensures |r.clients| == |s.clients|
  {
    s.(clients := Delivered(cfg, s.clients, p), nullDereference := s.nullDereference || Misread(cfg, s.clients, p))
  }

  function ReceivedAll(cfg: Config, s: Session, ps: seq<Packet>): (r: Session)
    ensures |r.clients| == |s.clients|
  {
    if ps == [] then s
    else Received(cfg, ReceivedAll(cfg, s, ps[..|ps| - 1]), ps[|ps| - 1])
  }

  function ReadFailed(clients: seq<Client>): (r: seq<Client>)
    ensures |r| == |clients|
  {
    seq(|clients|, j requires 0 <= j < |clients| =>
      if clients[j].active then ScheduleCallback(clients[j], Failed) else clients[j])
  }

  // ---------------------------------------------------------------- the session

  function FdClosed(s: Session, i: nat): (r: Session)
    requires i < |s.clients|
    ensures |r.clients| == |s.clients|
  {
    if !s.clients[i].fdOpen || s.refcount <= 0 then s
    else
      s.(refcount := s.refcount - 1,
         clients := s.clients[i := s.clients[i].(fdOpen := false)],
         readFd := s.readFd && s.refcount != 1,
         receiveBuf := s.receiveBuf && s.refcount != 1)
  }

  predicate OpenSucceeds(s: Session, i: nat, bpf: bool)
    requires i < |s.clients|
  {
    s.clients[i].fdOpen || s.refcount > 0 || bpf
  }

  function FdOpened(s: Session, i: nat, bpf: bool): (r: Session)
    requires i < |s.clients|
    ensures |r.clients| == |s.clients|
  {
    if s.clients[i].fdOpen then s
    else
      var q := s.(refcount := s.refcount + 1, clients := s.clients[i := s.clients[i].(fdOpen := true)]);
      if q.refcount > 1 then q
      else if bpf then q.(readFd := true, receiveBuf := true)
      else FdClosed(q, i)
  }

  function Canceled(s: Session, i: nat): (r: Session)
    requires i < |s.clients|
    ensures |r.clients| == |s.clients|
  {
    var c := s.clients[i].(active := false, status := NoStatus);
    var q := FdClosed(s.(clients := s.clients[i := c]), i);
    q.(clients := q.clients[i := q.clients[i].(timer := None, detectList := [], callback := false)])
  }

  /** A command about to start: its context set, its descriptor not yet open. */
  function Prepared(s: Session, i: nat, prepare: Client -> Client): (r: Session)
    requires i < |s.clients|
    ensures |r.clients| == |s.clients|
  {
    var q := Canceled(s, i);
    q.(clients := q.clients[i := prepare(q.clients[i]).(
         active := true, conflicts := 0, cycle := [], sent := 0, calls := 0)])
  }

  function ProbeContext(cfg: Config, sender: Ip, target: Ip, announce: bool, skip: bool): Client -> Client {
    (c: Client) => c.(senderIp := sender, targetIp := target, skipFirst := skip,
                      tries := if announce then cfg.probes else 0, probing := !announce)
  }

  function ResolveContext(sender: Ip, target: Ip): Client -> Client {
    (c: Client) => c.(senderIp := sender, targetIp := target, tries := 0, probing := false)
  }

  function DetectContext(): Client -> Client {
    (c: Client) => c.(tries := 0, probing := false)
  }

  function Tried(s: Session, i: nat, uses: bool, c: Client): Session
    requires i < |s.clients|
  {
    s.(clients := s.clients[i := c], nullDereference := s.nullDereference || (uses && !s.readFd))
  }

  function NotStarted(s: Session, i: nat): Session
    requires i < |s.clients|
  {
    s.(clients := s.clients[i := ScheduleCallback(s.clients[i], Failed)])
  }

  function ProbeOpened(cfg: Config, q: Session, i: nat, bpf: bool, written: bool): Session
    requires i < |q.clients|
  {
    if !OpenSucceeds(q, i, bpf) then NotStarted(FdOpened(q, i, bpf), i)
    else
      var o := FdOpened(q, i, bpf);
      var c := o.clients[i].(status := Unknown, command := Probe);
      Tried(o, i, Transmits(cfg, c), ProbeRetransmitted(cfg, c, written))
  }

  function ProbeBegun(cfg: Config, s: Session, i: nat, sender: Ip, target: Ip,
                      announce: bool, skip: bool, bpf: bool, written: bool): Session
    requires i < |s.clients|
  {
    ProbeOpened(cfg, Prepared(s, i, ProbeContext(cfg, sender, target, announce, skip)), i, bpf, written)
  }

  function ResolveOpened(q: Session, i: nat, secs: UInt32, bpf: bool, written: bool): Session
    requires i < |q.clients|
  {
    if !OpenSucceeds(q, i, bpf) then NotStarted(FdOpened(q, i, bpf), i)
    else
      var o := FdOpened(q, i, bpf);
      var c := o.clients[i].(status := Unknown, command := Resolve,
                             resolveSecs := if secs > 0 then secs else DEFAULT_RESOLVE_SECS);
      Tried(o, i, ResolveTriesLeft(c) > 0, ResolveRetransmitted(c, written))
  }

  function ResolveBegun(s: Session, i: nat, sender: Ip, target: Ip, secs: UInt32, bpf: bool, written: bool): Session
    requires i < |s.clients|
  {
    ResolveOpened(Prepared(s, i, ResolveContext(sender, target)), i, secs, bpf, written)
  }

  function DetectBegun(cfg: Config, s: Session, i: nat, list: seq<Address>, bpf: bool, written: bool): Session
    requires i < |s.clients|
  {
    DetectOpened(cfg, Prepared(s, i, DetectContext()), i, list, bpf, written)
  }

  function DetectOpened(cfg: Config, q: Session, i: nat, list: seq<Address>, bpf: bool, written: bool): Session
    requires i < |q.clients|
  {
    if list == [] then NotStarted(q, i)
    else if !OpenSucceeds(q, i, bpf) then NotStarted(FdOpened(q, i, bpf), i)
    else
      var o := FdOpened(q, i, bpf);
      var c := o.clients[i].(status := Unknown, command := Detect, detectList := list, detectCount := |list|);
      Tried(o, i, cfg.detects > c.tries, DetectRetransmitted(cfg, c, written))
  }

  function Defended(s: Session, i: nat, ip: Ip, bpf: bool): Session
    requires i < |s.clients|
  {
    var q := Canceled(s, i);
    if !OpenSucceeds(q, i, bpf) then FdOpened(q, i, bpf)
    else
      var o := FdOpened(q, i, bpf);
      FdClosed(Tried(o, i, true, o.clients[i].(senderIp := ip, targetIp := ip)), i)
  }

  function TimerFired(cfg: Config, s: Session, i: nat, written: bool): Session
    requires i < |s.clients| && s.clients[i].timer.Some?
  {
    var t := s.clients[i].timer.value;
    var c := s.clients[i].(timer := None);
    Tried(s, i, UsesDescriptor(cfg, c, t), Retransmitted(cfg, c, t, written))
  }

  function CalledBack(s: Session, i: nat): (r: Session)
    requires i < |s.clients|
    ensures |r.clients| == |s.clients|
  {
    var q := FdClosed(s.(clients := s.clients[i := s.clients[i].(callback := false, active := false)]), i);
    q.(clients := q.clients[i := q.clients[i].(timer := None, calls := q.clients[i].calls + 1)])
  }

  // ---------------------------------------------------------------- events and runs

  /** `bpf` says whether a packet descriptor can be had, `written` whether the writes succeed. */
  datatype Event =
    | NewClient(probesAreCollisions: bool)
    | Free(i: nat)
    | StartProbe(i: nat, sender: Ip, target: Ip, bpf: bool, written: bool)
    | StartAnnounce(i: nat, sender: Ip, target: Ip, skip: bool, bpf: bool, written: bool)
    | StartResolve(i: nat, sender: Ip, target: Ip, secs: UInt32, bpf: bool, written: bool)
    | StartDetect(i: nat, list: seq<Address>, bpf: bool, written: bool)
    | Cancel(i: nat)
    | Defend(i: nat, ip: Ip, bpf: bool)
    | TimerFires(i: nat, written: bool)
    | CallbackFires(i: nat)
    | Deliver(p: Packet)
    | ReadError

  predicate Enabled(s: Session, e: Event) {
    match e
    case NewClient(_) => true
    case TimerFires(i, _) => i < |s.clients| && s.clients[i].timer.Some?
    case CallbackFires(i) => i < |s.clients| && s.clients[i].callback
    case Deliver(_) => s.readFd
    case ReadError => s.readFd
    case _ => e.i < |s.clients|
  }

  function Step(cfg: Config, s: Session, e: Event): Session
    requires Enabled(s, e)
  {
    match e
    case NewClient(collisions) => s.(clients := s.clients + [Idle.(probesAreCollisions := collisions)])
    case Free(i) => Freed(s, i)
    case StartProbe(i, sender, target, bpf, written) => ProbeBegun(cfg, s, i, sender, target, false, false, bpf, written)
    case StartAnnounce(i, sender, target, skip, bpf, written) =>
      ProbeBegun(cfg, s, i, sender, target, true, skip, bpf, written)
    case StartResolve(i, sender, target, secs, bpf, written) => ResolveBegun(s, i, sender, target, secs, bpf, written)
    case StartDetect(i, list, bpf, written) => DetectBegun(cfg, s, i, list, bpf, written)
    case Cancel(i) => Canceled(s, i)
    case Defend(i, ip, bpf) => Defended(s, i, ip, bpf)
    case TimerFires(i, written) => TimerFired(cfg, s, i, written)
    case CallbackFires(i) => CalledBack(s, i)
    case Deliver(p) => Received(cfg, s, p)
    case ReadError => s.(clients := ReadFailed(s.clients))
  }

  function Freed(s: Session, i: nat): Session
    requires i < |s.clients|
  {
    var q := Canceled(s, i);
    q.(clients := RemovedAt(q.clients, i))
  }

  const Initial: Session := Session([], 0, false, false, false)
}
