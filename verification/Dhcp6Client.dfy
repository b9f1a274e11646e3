/**
 The DHCPv6 client state machine.  Its timer and its receive handler are at most one pending handler
 each; packets, link and wake events, roams and duplicate addresses arrive in any order.

 Each function gives the state an event handler leaves behind.  Everything a handler reads from
 outside (clock, random numbers, link status, network name) is in `Env`.
 */
module Dhcp6Client {
  import opened Common
  import opened Dhcp6Lease
  import opened Dhcp6Backoff

  datatype Mode = NoMode | Stateless | StatefulAddress | StatefulPrefix

  /** The client's states, which also name its handler functions. */
  datatype CState = Inactive | Solicit | Request | Bound | Renew | Rebind | Confirm | Decline
                  | Unbound | Inform | InformComplete | Releasing | Freed

  datatype Handler = OnSolicit | OnRequest | OnRenewRebind | OnConfirm | OnDecline | OnInform

  /** `start` tells a timer that starts a handler afresh from one that is its next timeout. */
  datatype Timer = Timer(handler: Handler, start: bool, at: real)

  datatype MessageType = Advertise | Reply | OtherMessage

  /** What the client sends with its saved lease. */
  datatype Message = NoMessage | RequestMessage | RenewMessage | RebindMessage | ConfirmMessage | ReleaseMessage | DeclineMessage

  /** A packet received, as far as the client reads it.  `status` is None when malformed. */
  datatype Packet = Packet(kind: MessageType, forUs: bool, server: Option<nat>, serverValid: bool,
                           status: Option<nat>, na: Option<IA>, pd: Option<IA>, preference: Preference)

  /** Times are relative to `start`. */
  datatype Lease = Lease(start: real, times: LeaseTimes, valid: bool, ssid: Option<nat>)

  /** The four lifetimes, all zero in a cleared lease. */
  type LeaseTimes = Times

  datatype Install = Install(address: nat, valid: nat, preferred: nat)

  datatype State = State(
    mode: Mode, cstate: CState, tries: nat, startTime: real, retransmit: real, renewTime: real,
    ourIp: nat, delegated: nat,
    saved: Option<Packet>, savedMode: Mode, serverId: Option<nat>,
    ia: Option<IA>, address: Option<SubOption>,
    lease: Lease,
    timer: Option<Timer>, receive: Option<Handler>,
    installed: Option<Install>, lastSent: Message, nullDereference: bool)

  /** What the system reports of the client's own address. */
  datatype AddressState = Absent | Duplicated | Tentative | Ready

  datatype Env = Env(now: real, draw: Draw, delay: real, linkInactive: bool, wireless: bool, cellular: bool,
                     ssid: Option<nat>, addressState: AddressState)

  datatype Wake = Wake(linkInactive: bool, networkChanged: bool, bssidChanged: bool, onSameNetwork: bool)

  const SUCCESS := 0
  const NO_ADDRS_AVAIL := 2
  const NOT_ON_LINK := 4
  const NO_PREFIX_AVAIL := 6
  const MAX_PREFERENCE := 255

  type Preference = n: nat | n <= MAX_PREFERENCE
  const REQ_MAX_RC := 10
  const DEC_MAX_RC := 5
  const CNF_MAX_RD := 10.0
  const WAKE_SKEW := 30.0

  const NoTimes: LeaseTimes := Times(0, 0, 0, 0)
  const NoLease: Lease := Lease(0.0, NoTimes, false, None)

  function Initial(): State {
    State(NoMode, Inactive, 0, 0.0, 0.0, 0.0, 0, 0, None, NoMode, None, None, None, NoLease,
          None, None, None, NoMessage, false)
  }

  predicate Stateful(m: Mode) { m == StatefulAddress || m == StatefulPrefix }

  predicate BoundRenewOrRebind(c: CState) { c == Bound || c == Renew || c == Rebind }

  function IAOf(p: Packet, m: Mode): Option<IA> { if m == StatefulAddress then p.na else p.pd }

  // ---------------------------------------------------------------- small steps

  function TimerSet(s: State, h: Handler, start: bool, at: real): State {
    s.(timer := Some(Timer(h, start, at)))
  }

  function Canceled(s: State): State { s.(timer := None, receive := None) }

  function LeaseCleared(s: State): State { s.(lease := NoLease) }

  function PacketCleared(s: State): State {
    s.(lease := NoLease, saved := None, savedMode := NoMode, serverId := None, ia := None, address := None)
  }

  function Inactivated(s: State): State { PacketCleared(Canceled(s)).(ourIp := 0) }

  function NextRetransmit(s: State, irt: real, mrt: real, d: Draw): State {
    s.(tries := s.tries + 1,
       retransmit := if s.tries == 0 then InitialTimeout(irt, d.double) else SubsequentTimeout(s.retransmit, mrt, d))
  }

  function Elapsed(l: Lease, now: real): nat { if now < l.start then 0 else (now - l.start).Floor }

  predicate Expired(l: Lease, now: real) {
    l.times.valid != INFINITE && (now < l.start || now - l.start >= l.times.valid as real)
  }

  /** A valid lease that has run out, or starts in the future, takes the saved packet with it. */
  function LeaseChecked(s: State, now: real): State {
    if s.lease.valid && Expired(s.lease, now) then PacketCleared(s) else s
  }

  predicate SavedInfoValid(s: State) { s.savedMode == s.mode }

  /** A prefix is confirmed by a Rebind: RFC 8415 section 18.2.12. */
  function MessageFor(c: CState, m: Mode): Message {
    match c
    case Request => RequestMessage
    case Renew => RenewMessage
    case Rebind => RebindMessage
    case Releasing => ReleaseMessage
    case Confirm => if m == StatefulPrefix then RebindMessage else ConfirmMessage
    case Decline => DeclineMessage
    case _ => NoMessage
  }

  predicate CanSend(s: State) {
    && Stateful(s.mode) && SavedInfoValid(s) && s.serverId.Some? && s.ia.Some?
    && MessageFor(s.cstate, s.mode) != NoMessage
  }

  /** Writing the message copies the saved address or prefix. */
  function Sent(s: State): State {
    if CanSend(s) then s.(nullDereference := s.nullDereference || s.address.None?, lastSent := MessageFor(s.cstate, s.mode))
    else s
  }

  function PacketHeld(s: State, p: Packet, env: Env): State {
    PacketCleared(s).(saved := Some(p), serverId := p.server, lease := NoLease.(ssid := env.ssid))
  }

  function Adopted(s: State, c: Chosen, env: Env): State
    requires c.address.Address?
  {
    s.(ia := Some(c.ia), address := Some(c.address), savedMode := s.mode,
       lease := s.lease.(start := env.now, times := Normalised(c)))
  }

  function PacketSaved(s: State, p: Packet, env: Env): State {
    var q := PacketHeld(s, p, env);
    if !Stateful(s.mode) then q.(savedMode := s.mode)
    else
      match Choose(IAOf(p, s.mode))
      case None => q
      case Some(c) => Adopted(q, c, env)
  }

  /** A packet of the right kind, for this client, from a server that names itself. */
  predicate Acceptable(p: Packet, kind: MessageType) {
    p.kind == kind && p.forUs && p.server.Some? && p.serverValid
  }

  // ---------------------------------------------------------------- Solicit

  function SolicitStarted(s: State, env: Env): State {
    TimerSet(PacketCleared(s.(cstate := Solicit, tries := 0)).(receive := Some(OnSolicit)), OnSolicit, false, env.now + env.delay)
  }

  function SolicitTimedOut(s: State, env: Env): State {
    if s.tries > 0 && env.linkInactive then Inactivated(s)
    else
      var q := if s.tries == 0 then s.(startTime := env.now) else s;
      if q.saved.Some? then RequestStarted(q, env)
      else
        var n := NextRetransmit(q, 1.0, 3600.0, env.draw);
        TimerSet(n, OnSolicit, false, env.now + n.retransmit)
  }

  /** An Advertise the client may choose. */
  predicate Usable6(p: Packet, m: Mode) {
    && Acceptable(p, Advertise) && p.status.Some?
    && p.status.value != NO_ADDRS_AVAIL && p.status.value != NO_PREFIX_AVAIL
    && Stateful(m) && Choose(IAOf(p, m)).Some?
  }

  function SolicitReceived(s: State, p: Packet, env: Env): State {
    if !Usable6(p, s.mode) || (s.saved.Some? && s.saved.value.preference >= p.preference) then s
    else
      var q := PacketSaved(s, p, env);
      if q.tries > 1 || p.preference == MAX_PREFERENCE then RequestStarted(q, env) else q
  }

  // ---------------------------------------------------------------- Request

  function RequestStarted(s: State, env: Env): State {
    RequestTimedOut(s.(cstate := Request, tries := 0, startTime := env.now, receive := Some(OnRequest)), env)
  }

  function RequestTimedOut(s: State, env: Env): State {
    if s.tries >= REQ_MAX_RC then SolicitStarted(s, env)
    else
      var n := NextRetransmit(s, 1.0, 30.0, env.draw);
      Sent(TimerSet(n, OnRequest, false, env.now + n.retransmit))
  }

  function RequestReceived(s: State, p: Packet, env: Env): State {
    if !Acceptable(p, Reply) || p.status.None? then s
    else if p.status.value == NO_ADDRS_AVAIL || p.status.value == NO_PREFIX_AVAIL then s
    else if StatusOf(IAOf(p, s.mode)) == NOT_ON_LINK then SolicitStarted(s.(ourIp := 0), env)
    else if Choose(IAOf(p, s.mode)).None? then s
    else BoundStarted(PacketSaved(s, p, env), env)
  }

  // ---------------------------------------------------------------- Decline, Unbound

  function DeclineEntered(s: State): State {
    LeaseCleared(Canceled(s.(cstate := Decline, ourIp := 0))).(tries := 0, receive := Some(OnDecline))
  }

  function DeclineStarted(s: State, env: Env): State { DeclineTimedOut(DeclineEntered(s), env) }

  function DeclineTimedOut(s: State, env: Env): State {
    if s.tries >= DEC_MAX_RC then SolicitStarted(s, env)
    else
      var n := NextRetransmit(s, 1.0, 0.0, env.draw);
      Sent(TimerSet(n, OnDecline, false, env.now + n.retransmit))
  }

  function DeclineReceived(s: State, p: Packet, env: Env): State {
    if Acceptable(p, Reply) then SolicitStarted(s, env) else s
  }

  function UnboundStarted(s: State, env: Env): State {
    SolicitStarted(PacketCleared(Canceled(s.(cstate := Unbound)).(ourIp := 0)), env)
  }

  // ---------------------------------------------------------------- Bound

  function AddressChanged(s: State, a: AddressState, env: Env): State {
    if s.ourIp != 0 && s.cstate == Bound && a == Duplicated then DeclineStarted(s, env) else s
  }

  function BoundAddress(s: State, valid: nat, preferred: nat, env: Env): State {
    if !(s.address.Some? && s.address.value.Address?) then s.(nullDereference := true)
    else
      var ip := s.address.value.address;
      AddressChanged(s.(ourIp := ip, installed := Some(Install(ip, valid, preferred))), env.addressState, env)
  }

  function BoundPrefix(s: State, valid: nat, preferred: nat): State {
    if !(s.address.Some? && s.address.value.Address?) then s.(nullDereference := true)
    else
      var prefix := s.address.value.address;
      s.(delegated := prefix, installed := Some(Install(prefix, valid, preferred)))
  }

  /** What is left of a lifetime. */
  function Left(lifetime: UInt32, elapsed: nat): nat { if elapsed < lifetime then lifetime - elapsed else 0 }

  function Installed(s: State, elapsed: nat, env: Env): State {
    var forever := s.lease.times.valid == INFINITE;
    var valid := if forever then INFINITE else Left(s.lease.times.valid, elapsed);
    var preferred := if forever then s.lease.times.preferred else Left(s.lease.times.preferred, elapsed);
    if s.mode == StatefulAddress then BoundAddress(s, valid, preferred, env) else BoundPrefix(s, valid, preferred)
  }

  /** The wait for Renew; `t1` is read after the address was installed. */
  function RenewWait(t1: UInt32, elapsed: nat): nat { if elapsed < t1 then t1 - elapsed else 10 }

  function RenewScheduled(s: State, elapsed: nat, env: Env): State {
    var at := env.now + RenewWait(s.lease.times.t1, elapsed) as real;
    TimerSet(s.(renewTime := at), OnRenewRebind, true, at)
  }

  function BoundEntered(s: State): State { Canceled(s.(cstate := Bound, lease := s.lease.(valid := true))) }

  function BoundStarted(s: State, env: Env): State {
    var b := BoundEntered(s);
    if b.lease.times.valid == INFINITE then Installed(b, 0, env)
    else if env.now < b.lease.start || Elapsed(b.lease, env.now) >= b.lease.times.valid then UnboundStarted(b, env)
    else RenewScheduled(Installed(b, Elapsed(b.lease, env.now), env), Elapsed(b.lease, env.now), env)
  }

  // ---------------------------------------------------------------- Renew and Rebind

  function RenewEntered(s: State, env: Env): State {
    Canceled(s.(cstate := Renew)).(tries := 0, startTime := env.now, receive := Some(OnRenewRebind))
  }

  function RenewStarted(s: State, env: Env): State { RenewTimedOut(RenewEntered(s, env), env) }

  function Waiting(s: State, wait: real, env: Env): State {
    Sent(TimerSet(s.(renewTime := env.now + wait), OnRenewRebind, false, env.now + wait))
  }

  function RebindEntered(s: State, env: Env): State {
    if s.cstate == Rebind then s
    else s.(receive := Some(OnRenewRebind), startTime := env.now, cstate := Rebind, tries := 0)
  }

  /** Before T2: wait no longer than to T2. */
  function RenewSent(s: State, elapsed: nat, env: Env): State {
    var n := NextRetransmit(s, 10.0, 600.0, env.draw);
    Waiting(n, Lower(n.retransmit, (s.lease.times.t2 - elapsed) as real), env)
  }

  /** From T2 on: wait no longer than to the end of the lease. */
  function RebindSent(s: State, elapsed: nat, env: Env): State {
    var n := NextRetransmit(RebindEntered(s, env), 10.0, 600.0, env.draw);
    Waiting(n, Lower(n.retransmit, (s.lease.times.valid - elapsed) as real), env)
  }

  function RenewTimedOut(s: State, env: Env): State {
    var c := LeaseChecked(s, env.now);
    if !c.lease.valid then UnboundStarted(c, env)
    else
      var elapsed := Elapsed(c.lease, env.now);
      if elapsed < c.lease.times.t2 then RenewSent(c, elapsed, env) else RebindSent(c, elapsed, env)
  }

  function RenewReceived(s: State, p: Packet, env: Env): State {
    if !Acceptable(p, Reply) || p.status.None? then s
    else if p.status.value != SUCCESS || Choose(IAOf(p, s.mode)).None? then UnboundStarted(s, env)
    else BoundStarted(PacketSaved(s, p, env), env)
  }

  // ---------------------------------------------------------------- Confirm

  function ConfirmStarted(s: State, env: Env): State {
    TimerSet(Canceled(s.(cstate := Confirm)).(tries := 0, receive := Some(OnConfirm)), OnConfirm, false, env.now + env.delay)
  }

  predicate ConfirmDone(s: State, now: real) {
    now <= s.startTime || now - s.startTime >= CNF_MAX_RD
  }

  function ConfirmTimedOut(s: State, env: Env): State {
    if s.tries > 0 && env.linkInactive then Inactivated(s)
    else if s.tries > 0 && ConfirmDone(s, env.now) then
      var c := LeaseChecked(s, env.now);
      if c.lease.valid then BoundStarted(c, env) else SolicitStarted(c, env)
    else
      var n := NextRetransmit(if s.tries == 0 then s.(startTime := env.now) else s, 1.0, 4.0, env.draw);
      Sent(TimerSet(n, OnConfirm, false, env.now + n.retransmit))
  }

  function ConfirmReceived(s: State, p: Packet, env: Env): State {
    if !Acceptable(p, Reply) || p.status.None? then s
    else if p.status.value != SUCCESS then UnboundStarted(s, env)
    else if s.mode == StatefulPrefix && Choose(p.pd).Some? then BoundStarted(PacketSaved(s, p, env), env)
    else BoundStarted(s, env)
  }

  // ---------------------------------------------------------------- Inform

  function InformStarted(s: State, env: Env): State {
    var q := PacketCleared(s.(cstate := Inform)).(tries := 0, receive := Some(OnInform));
    if env.cellular then InformTimedOut(q, env) else TimerSet(q, OnInform, false, env.now + env.delay)
  }

  function InformTimedOut(s: State, env: Env): State {
    if s.tries > 0 && env.linkInactive then Inactivated(s)
    else
      var n := NextRetransmit(if s.tries == 0 then s.(startTime := env.now) else s, 1.0, 3600.0, env.draw);
      TimerSet(n, OnInform, false, env.now + n.retransmit)
  }

  function InformReceived(s: State, p: Packet, env: Env): State {
    if !Acceptable(p, Reply) then s else Canceled(PacketSaved(s, p, env).(cstate := InformComplete))
  }

  // ---------------------------------------------------------------- the outside world

  predicate OnSameNetwork(s: State, env: Env) {
    !env.wireless || (env.ssid.Some? && s.lease.ssid == env.ssid)
  }

  function Started(s: State, env: Env): State {
    match s.mode
    case NoMode => s
    case Stateless => InformStarted(s, env)
    case _ =>
      var c := if SavedInfoValid(s) then LeaseChecked(s, env.now) else s;
      if SavedInfoValid(s) && c.lease.valid && OnSameNetwork(c, env) then ConfirmStarted(c, env)
      else SolicitStarted(c, env)
  }

  function Stopped(s: State): State {
    Canceled(s.(ourIp := 0)).(delegated := 0, cstate := Inactive, mode := NoMode)
  }

  function ReleaseStarted(s: State): State {
    Sent(Canceled(s.(cstate := Releasing, ourIp := 0)).(tries := 0))
  }

  /** A lease still good is released, if the link is up to carry the message; then the client is gone. */
  function ClientReleased(s: State, env: Env): State {
    var c := if Stateful(s.mode) && !env.linkInactive then LeaseChecked(s, env.now) else s;
    var r := if Stateful(s.mode) && !env.linkInactive && c.lease.valid then ReleaseStarted(c) else c;
    PacketCleared(Canceled(r)).(cstate := Freed, mode := NoMode)
  }

  function ModeSet(s: State, m: Mode): State { if s.mode == NoMode then s.(mode := m) else s }

  function Discarded(s: State): State { if s.mode == NoMode then PacketCleared(s) else s }

  predicate WakeLosesAddress(w: Wake, env: Env) {
    w.linkInactive || (env.wireless && w.networkChanged) || (!env.wireless && !w.onSameNetwork)
  }

  predicate InFuture(now: real, at: real) { now < at && at - now >= WAKE_SKEW }

  function Woken(s: State, w: Wake, env: Env): State {
    if WakeLosesAddress(w, env) then
      var q := s.(ourIp := 0);
      if w.linkInactive || q.cstate == Solicit then q else SolicitStarted(q, env)
    else
      var c := LeaseChecked(s, env.now);
      if !c.lease.valid then (if c.cstate == Solicit then c else UnboundStarted(c, env))
      else if !BoundRenewOrRebind(c.cstate) || w.bssidChanged then ConfirmStarted(c, env)
      else if c.lease.times.valid == INFINITE then c
      else if InFuture(env.now, c.renewTime) then TimerSet(c, OnRenewRebind, true, c.renewTime)
      else RenewStarted(c, env)
  }

  function Roamed(s: State, env: Env): State {
    var c := LeaseChecked(s, env.now);
    if c.lease.valid && BoundRenewOrRebind(c.cstate) then ConfirmStarted(c, env) else c
  }

  // ---------------------------------------------------------------- events

  function TimerRun(s: State, env: Env): State
    requires s.timer.Some?
  {
    var t := s.timer.value;
    var q := s.(timer := None);
    match t.handler
    case OnSolicit => SolicitTimedOut(q, env)
    case OnRequest => RequestTimedOut(q, env)
    case OnRenewRebind => if t.start then RenewStarted(q, env) else RenewTimedOut(q, env)
    case OnConfirm => ConfirmTimedOut(q, env)
    case OnDecline => DeclineTimedOut(q, env)
    case OnInform => InformTimedOut(q, env)
  }

  function Received(s: State, p: Packet, env: Env): State
    requires s.receive.Some?
  {
    match s.receive.value
    case OnSolicit => SolicitReceived(s, p, env)
    case OnRequest => RequestReceived(s, p, env)
    case OnRenewRebind => RenewReceived(s, p, env)
    case OnConfirm => ConfirmReceived(s, p, env)
    case OnDecline => DeclineReceived(s, p, env)
    case OnInform => InformReceived(s, p, env)
  }

  datatype Event =
    | SetModeAndStart(m: Mode)
    | SetMode(m: Mode)
    | Stop
    | Discard
    | TimerFires
    | Receive(p: Packet)
    | AddressEvent
    | WakeEvent(w: Wake)
    | Roam
    | LinkActive
    | Release

  /** A mode set without starting must be the stateful one the saved packet is for: a client that
      starts later never has two.  Wake, roam and link events reach a client in a stateful mode only. */
  predicate Enabled(s: State, e: Event) {
    s.cstate != Freed &&
    match e
    case SetModeAndStart(m) => m != NoMode
    case SetMode(m) => Stateful(m) && (s.savedMode == NoMode || s.savedMode == m)
    case TimerFires => s.timer.Some?
    case Receive(_) => s.receive.Some?
    case AddressEvent => s.mode == StatefulAddress
    case WakeEvent(_) => Stateful(s.mode)
    case Roam => Stateful(s.mode)
    case LinkActive => Stateful(s.mode)
    case _ => true
  }

  function Step(s: State, e: Event, env: Env): State
    requires Enabled(s, e)
  {
    match e
    case SetModeAndStart(m) => Started(ModeSet(s, m), env)
    case SetMode(m) => ModeSet(s, m)
    case Stop => Stopped(s)
    case Discard => Discarded(s)
    case TimerFires => TimerRun(s, env)
    case Receive(p) => Received(s, p, env)
    case AddressEvent => AddressChanged(s, env.addressState, env)
    case WakeEvent(w) => Woken(s, w, env)
    case Roam => Roamed(s, env)
    case LinkActive => Started(s, env)
    case Release => ClientReleased(s, env)
  }
}
