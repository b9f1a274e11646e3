/**
 The DHCPv4 client of one service, on a machine that is not booted from the network.  Timer, packets,
 ARP results, link and wake events, conflicts and forgotten networks arrive in any order.

 Each function gives the state an event handler leaves behind; what a handler reads from outside is
 in `Env`, what it finds in the lease database included.
 */
module Dhcp4Client {
  import opened Common
  import opened Dhcp4Lease

  datatype CState = Inactive | Init | InitReboot | Select | Bound | Renewing | Rebinding | Declined | Unbound

  datatype TimerKind = DelayedStart | InitStart | InitTimeout | RebootTimeout | SelectTimeout | RenewStart
                     | RenewTimeout | CheckLink | WaitTimeout | ResolveRetry

  datatype Handler = OnInit | OnInitReboot | OnSelect | OnRenewRebind

  /** What the ARP client is working on, and for whom. */
  datatype ArpWork = NoArp | ArpRouter | ArpBound | ArpCheckRouter | ArpResolve

  datatype ArpResult = ArpError | ArpInUse | ArpNotInUse

  datatype Router = Router(ip: nat, hw: nat, ipValid: bool, hwValid: bool, verified: bool) {
    predicate AllValid() { ipValid && hwValid && verified }
    function Cleared(): Router { this.(ipValid := false, hwValid := false, verified := false) }
    function Verified(): Router { this.(ipValid := true, hwValid := true, verified := true) }
  }

  /** The lease held, or last held. */
  datatype Held = Held(valid: bool, times: Lease, ssid: Option<nat>, networkId: Option<nat>, mac: Option<nat>)

  /** The packet last kept, and what it says; `granted` records that a server granted it, which an offer
      does not. */
  datatype Saved = Saved(ip: nat, server: nat, rating: nat, hasPacket: bool, granted: bool)

  /** What may still happen by itself: one timer, one receive handler, one ARP command. */
  datatype Pending = Pending(timer: Option<TimerKind>, receive: Option<Handler>, arp: ArpWork)

  datatype State = State(
    running: bool, cstate: CState, tries: int, gathering: bool, gotNak: bool,
    held: Held, saved: Saved, activeIp: nat, router: Router, pending: Pending,
    renewTime: real, resolveTimedOut: bool, ignoreCollisions: bool)

  const NoLease: Held := Held(false, Lease(0.0, 0, 0.0, 0.0, 0.0), None, None, None)
  const Nothing: Pending := Pending(None, None, NoArp)

  datatype Options = Options(lease: Option<UInt32>, t1: Option<UInt32>, t2: Option<UInt32>)

  /** Never 0.0.0.0. */
  type Address = ip: nat | ip != 0 witness 1

  /** A lease of the database. */
  datatype Stored = Stored(ip: Address, start: real, options: Options, server: nat, ssid: Option<nat>,
                           networkId: Option<nat>, routerIp: nat, routerHw: Option<nat>, mac: Option<nat>)

  datatype MessageType = Offer | Ack | Nak | OtherMessage

  /** A packet that passed verification; `ideal` and `rating` grade its options, `wait` says that it
      asks an IPv6-capable client to wait. */
  datatype Packet = Packet(kind: MessageType, server: nat, yiaddr: nat, usable: bool,
                           options: Options, rating: nat, ideal: bool, wait: bool)

  datatype Config = Config(routerArp: bool, discoverRouter: bool, arpAtRetry: nat, maxRetries: nat,
                           rebootRetries: nat, selectRetries: nat)

  datatype Link = Link(valid: bool, active: bool, sameNetwork: bool, networkChanged: bool, bssidChanged: bool)

  datatype Env = Env(
    now: real, cfg: Config, link: Link, wireless: bool, isolated: bool, isPrivate: bool,
    ssid: Option<nat>, networkId: Option<nat>, mac: nat,
    buildFails: bool, jumped: bool,
    wifiLease: Option<Stored>, routerLease: Option<Stored>, leasesToTry: bool, sameRouterOption: bool,
    routerOption: Option<nat>, published: bool, defended: bool)

  const WAKE_SKEW := 30.0
  const NoRouter: Router := Router(0, 0, false, false, false)

  function Fresh(activeIp: nat): State {
    State(true, Inactive, 0, false, false, NoLease, Saved(0, 0, 0, false, false), activeIp, NoRouter, Nothing, 0.0, false, false)
  }

  function Initial(): State { Fresh(0).(running := false) }

  predicate BoundRenewOrRebind(c: CState) { c == Bound || c == Renewing || c == Rebinding }

  predicate SameString(a: Option<nat>, b: Option<nat>) { a.Some? && a == b }

  predicate LinkDown(l: Link) { l.valid && !l.active }

  // ---------------------------------------------------------------- small steps

  function Canceled(s: State): State { s.(pending := Nothing) }

  function TimerSet(s: State, t: TimerKind): State { s.(pending := s.pending.(timer := Some(t))) }

  function Receiving(s: State, h: Handler): State { s.(pending := s.pending.(receive := Some(h))) }

  function ArpStarted(s: State, a: ArpWork): State { s.(pending := s.pending.(arp := a)) }

  function AddressRemoved(s: State): State { s.(activeIp := 0) }

  function Invalidated(s: State): State { s.(held := s.held.(valid := false, ssid := None, networkId := None)) }

  function Failed(s: State): State { Canceled(s).(activeIp := 0, cstate := Inactive) }

  function WaitStarted(s: State): State { TimerSet(Failed(s), WaitTimeout) }

  function RouterCleared(s: State): State { s.(router := s.router.Cleared()) }

  /** A lease that has run out is dropped, and with it the address. */
  function LeaseChecked(s: State, now: real): State {
    if s.held.valid && s.held.times.length != INFINITE && now >= s.held.times.expiration
    then AddressRemoved(RouterCleared(Invalidated(s))) else s
  }

  predicate SameLease(s: State, l: Stored, isPrivate: bool) {
    && l.ip == s.saved.ip
    && (!isPrivate || (s.router.ipValid && s.router.hwValid && l.routerIp == s.router.ip && l.routerHw == Some(s.router.hw)))
  }

  function RouterOf(s: State, l: Stored): Router {
    var r := s.router.Cleared();
    if l.routerIp == 0 then r
    else if l.routerHw.None? then r.(ip := l.routerIp, ipValid := true)
    else r.(ip := l.routerIp, ipValid := true, hw := l.routerHw.value, hwValid := true)
  }

  function Switched(s: State, l: Stored, isPrivate: bool, loading: bool): State {
    if SameLease(s, l, isPrivate) then s
    else s.(activeIp := 0, saved := Saved(l.ip, l.server, 0, true, true), router := RouterOf(s, l),
            held := Held(true, WithSpans(l.start, FromOptions(l.options.lease, l.options.t1, l.options.t2)),
                         l.ssid, l.networkId, if loading then l.mac else None))
  }

  function PacketSaved(s: State, p: Packet, rating: nat, server: nat, now: real): State {
    s.(saved := Saved(p.yiaddr, server, rating, true, p.kind == Ack),
       held := s.held.(times := WithSpans(now, FromOptions(p.options.lease, p.options.t1, p.options.t2))))
  }

  // ---------------------------------------------------------------- the router

  function RouterArpStarted(s: State, env: Env): State {
    if env.cfg.routerArp && !s.router.verified && (!env.wireless || env.ssid.Some?) && env.leasesToTry
    then ArpStarted(s, ArpRouter) else s
  }

  function RouterUpdated(s: State, env: Env): State {
    if env.routerOption.None? then RouterCleared(s)
    else if RouterKept(s, env) then s
    else s.(router := s.router.Cleared().(ip := env.routerOption.value, ipValid := true))
  }

  predicate RouterKept(s: State, env: Env) {
    env.routerOption.Some? && s.router.AllValid() && env.routerOption.value == s.router.ip
  }

  predicate ResolveStarts(s: State, env: Env) { env.cfg.discoverRouter && s.router.ipValid }

  function RouterResolving(s: State, env: Env): State {
    if !env.cfg.discoverRouter then s
    else ArpStarted(s.(router := s.router.(verified := false)), if s.router.ipValid then ArpResolve else s.pending.arp)
  }

  /** The router's answer is published; without one the timer is taken for another try. */
  function RouterResolved(s: State, r: ArpResult, hw: nat): State {
    match r
    case ArpError => s
    case ArpInUse => s.(router := s.router.(hw := hw).Verified())
    case ArpNotInUse => TimerSet(s.(resolveTimedOut := true), ResolveRetry)
  }

  // ---------------------------------------------------------------- Bound, Decline, Unbound

  predicate Renews(c: CState) { c == Renewing || c == Rebinding }

  function BoundStarted(s: State, env: Env): State {
    var b := Canceled(s.(cstate := Bound, ignoreCollisions := true));
    if Renews(s.cstate) then BoundFinished(b, env)
    else if !env.isolated && s.cstate == Select then ArpStarted(b, ArpBound)
    else if s.activeIp == s.saved.ip && (s.cstate == InitReboot || s.cstate == Init) then ArpStarted(b, ArpBound)
    else BoundFinished(b, env)
  }

  function BoundFinished(s: State, env: Env): State {
    var b := s.(held := s.held.(valid := true, ssid := env.ssid, networkId := env.networkId), activeIp := s.saved.ip,
                ignoreCollisions := false, resolveTimedOut := false);
    var t := if b.held.times.length == INFINITE then b else TimerSet(b.(renewTime := b.held.times.t1), RenewStart);
    if b.held.times.length != INFINITE && b.held.times.t1 < env.now then t
    else
      var u := RouterUpdated(t, env);
      if env.routerOption.None? || RouterKept(t, env) then u else RouterResolving(u, env)
  }

  function DeclineStarted(s: State, env: Env): State {
    var d := Canceled(s.(cstate := Declined));
    if env.buildFails then Failed(d)
    else TimerSet(Invalidated(RouterCleared(d)).(activeIp := 0, saved := d.saved.(ip := 0)), InitStart)
  }

  function UnboundStarted(s: State): State {
    TimerSet(Invalidated(RouterCleared(Canceled(s.(cstate := Unbound))))
             .(activeIp := 0, saved := s.saved.(ip := 0), gotNak := false), InitStart)
  }

  function BoundArpDone(s: State, r: ArpResult, env: Env): State {
    match r
    case ArpError => Failed(s)
    case ArpInUse => DeclineStarted(RouterCleared(Invalidated(s)), env)
    case ArpNotInUse => BoundFinished(Canceled(s), env)
  }

  // ---------------------------------------------------------------- Init and Select

  function LinkLost(s: State): State { Canceled(s).(activeIp := 0, cstate := Inactive) }

  function NoServer(s: State): State { TimerSet(Canceled(s), InitStart) }

  function InitTry(s: State, env: Env): State {
    var t := s.(tries := s.tries + 1);
    if t.tries > 1 && LinkDown(env.link) then LinkLost(t)
    else
      var a := if t.tries >= env.cfg.arpAtRetry + 1 && !t.router.AllValid() then RouterArpStarted(t, env) else t;
      InitNext(a, env)
  }

  /** Out of tries: a router known to be there is good enough, or there is no server. */
  function InitNext(s: State, env: Env): State {
    if s.tries <= env.cfg.maxRetries + 1 then TimerSet(s, InitTimeout)
    else if s.router.AllValid() then BoundStarted(s, env)
    else NoServer(s)
  }

  function InitEntered(s: State): State {
    Canceled(s.(held := s.held.(mac := None), cstate := Init, resolveTimedOut := false))
  }

  function InitReady(s: State): State {
    Receiving(s.(tries := 0, gathering := false, saved := s.saved.(rating := 0), gotNak := false), OnInit)
  }

  function InitStarted(s: State, env: Env): State {
    var i := InitEntered(s);
    if env.buildFails then Failed(i)
    else InitTry(InitReady(i), env)
  }

  function InitTimedOut(s: State, env: Env): State {
    if s.gathering then SelectStarted(s, env) else InitTry(s, env)
  }

  function InitReceived(s: State, p: Packet, env: Env): State {
    if p.server == 0 || p.kind != Offer then s
    else if p.wait && !s.gathering then WaitStarted(s)
    else if !p.usable || (s.saved.hasPacket && p.rating <= s.saved.rating) then s
    else
      var q := PacketSaved(RouterCleared(s), p, p.rating, p.server, env.now);
      if p.ideal || env.isolated then SelectStarted(q, env)
      else if !q.gathering then TimerSet(q.(gathering := true), InitTimeout)
      else q
  }

  function SelectTry(s: State, env: Env): State {
    var t := s.(tries := s.tries + 1);
    if t.tries > env.cfg.selectRetries + 1 then InitStarted(t, env) else TimerSet(t, SelectTimeout)
  }

  function SelectStarted(s: State, env: Env): State {
    var c := Canceled(s.(cstate := Select));
    if env.buildFails then Failed(c)
    else SelectTry(Receiving(c.(tries := 0, gathering := false), OnSelect), env)
  }

  function SelectReceived(s: State, p: Packet, env: Env): State {
    if p.kind == Nak then
      if p.server == 0 || p.server != s.saved.server then s else TimerSet(Canceled(s), InitStart)
    else if p.kind != Ack || !p.usable then s
    else BoundStarted(PacketSaved(s, p, 0, if p.server != 0 then p.server else s.saved.server, env.now), env)
  }

  // ---------------------------------------------------------------- Init-Reboot

  function RebootTry(s: State, env: Env): State {
    var t := s.(tries := s.tries + 1);
    if t.tries > 1 && LinkDown(env.link) then LinkLost(t)
    else
      RebootNext(RouterArpStarted(t, env), env)
  }

  /** Out of tries: the address goes, and the search starts from the beginning. */
  function RebootNext(s: State, env: Env): State {
    if s.tries > env.cfg.rebootRetries + 1 then InitStarted(AddressRemoved(s).(tries := s.tries - 1), env)
    else TimerSet(s, RebootTimeout)
  }

  function RebootEntered(s: State): State {
    Canceled(s.(held := s.held.(mac := None), cstate := InitReboot, resolveTimedOut := false, tries := 0))
  }

  function RebootReady(s: State): State {
    Receiving(s.(gotNak := false, gathering := false, saved := s.saved.(rating := 0)), OnInitReboot)
  }

  function RebootStarted(s: State, env: Env): State {
    var r := RebootEntered(s);
    if env.buildFails then Failed(r)
    else RebootTry(RebootReady(r), env)
  }

  function RebootTimedOut(s: State, env: Env): State {
    if s.gathering then BoundStarted(s, env) else RebootTry(s, env)
  }

  function RebootReceived(s: State, p: Packet, env: Env): State {
    if p.kind == Nak then (if s.pending.arp != NoArp then s.(gotNak := true) else UnboundStarted(s))
    else if p.server == 0 || p.kind != Ack then s
    else if p.wait && !s.gathering then WaitStarted(s)
    else if p.yiaddr != s.saved.ip || (s.saved.hasPacket && p.rating <= s.saved.rating) then s
    else
      var q := PacketSaved(RouterCleared(s), p, p.rating, p.server, env.now);
      if env.isolated then BoundStarted(q, env)
      else if !q.gathering then TimerSet(q.(gathering := true), RebootTimeout)
      else q
  }

  /** The answer of a router a stored lease names. */
  function RouterArpDone(s: State, r: ArpResult, env: Env): State {
    if r != ArpInUse || env.routerLease.None? then (if s.gotNak then UnboundStarted(s) else s)
    else
      var l := env.routerLease.value;
      if s.cstate == Init then
        (if s.gathering then s else RouterVerified(Switched(s, l, env.isPrivate, false)))
      else if s.cstate != InitReboot then s
      else if s.gathering then
        (if l.ip != s.saved.ip || !env.sameRouterOption then s else Configured(s))
      else if !SameLease(s, l, env.isPrivate) then Configured(Switched(s, l, env.isPrivate, false).(tries := 0))
      else if s.gotNak then UnboundStarted(s)
      else Configured(s)
  }

  function RouterVerified(s: State): State { s.(router := s.router.Verified()) }

  function Configured(s: State): State { RouterVerified(s).(activeIp := s.saved.ip) }

  // ---------------------------------------------------------------- Renew and Rebind

  /** A detected clock jump moves the whole lease by the difference from the planned moment. */
  function ClockCorrected(s: State, env: Env): State {
    if env.jumped then s.(held := s.held.(times := Shifted(s.held.times, env.now - s.renewTime))) else s
  }

  function RenewChosen(s: State, env: Env): State {
    var turn := Timeout(s.held.times, s.renewTime, env.now, false);
    if turn.action == Unbind then UnboundStarted(s)
    else TimerSet(s.(renewTime := turn.next, cstate := if turn.action == Renew then Renewing else Rebinding), RenewTimeout)
  }

  function RenewTry(s: State, env: Env): State { RenewChosen(ClockCorrected(s, env), env) }

  function RenewEntered(s: State): State { Canceled(s).(cstate := Renewing) }

  function RenewStarted(s: State, env: Env): State {
    var r := RenewEntered(s);
    if env.buildFails then Failed(r) else RenewTry(Receiving(r.(tries := 0), OnRenewRebind), env)
  }

  function RenewReceived(s: State, p: Packet, env: Env): State {
    if p.kind == Nak then UnboundStarted(s)
    else if p.kind != Ack || p.server == 0 || !p.usable then s
    else if p.yiaddr != s.saved.ip then UnboundStarted(s)
    else BoundStarted(PacketSaved(s, p, 0, p.server, env.now), env)
  }

  /** Whether the address in use is still good is decided by the router's answer. */
  function CheckRouterDone(s: State, r: ArpResult, env: Env): State {
    if r != ArpInUse then LinkChecked(s, false, env)
    else if s.held.times.length == INFINITE then s
    else if env.now < s.renewTime then TimerSet(s, RenewStart)
    else RenewStarted(s, env)
  }

  // ---------------------------------------------------------------- link, wake and roam

  predicate WaitsForLink(env: Env) {
    if env.wireless then !env.link.valid || !env.link.active else LinkDown(env.link)
  }

  predicate NetworkChanged(s: State, env: Env) {
    && s.held.valid && s.held.ssid.Some? && env.ssid.Some?
    && !SameString(s.held.ssid, env.ssid) && !SameString(s.held.networkId, env.networkId)
  }

  function LeaseDropped(s: State): State { AddressRemoved(RouterCleared(Invalidated(s))) }

  function MacForgotten(s: State): State { s.(held := s.held.(mac := None)) }

  function NetworkSwitched(s: State, env: Env): State {
    if env.wifiLease.Some? then Switched(s, env.wifiLease.value, env.isPrivate, false) else LeaseDropped(s)
  }

  function MacChecked(s: State, env: Env): State {
    if s.held.mac.None? then s
    else if s.held.mac.value != env.mac then MacForgotten(LeaseDropped(s).(tries := 0))
    else MacForgotten(s)
  }

  /** The lease belongs to another network, or to another hardware address: switch or drop it. */
  function NetworkChecked(s: State, env: Env): State {
    if !s.held.valid || s.held.ssid.None? || env.ssid.None? then s
    else if NetworkChanged(s, env) then NetworkSwitched(s, env).(tries := 0)
    else MacChecked(s, env)
  }

  function LinkChecked(s: State, renew: bool, env: Env): State {
    if WaitsForLink(env) then Canceled(s.(tries := 0, cstate := Inactive))
    else
      Restarted(LeaseChecked(NetworkChecked(s, env), env.now), renew, env)
  }

  /** Start over, unless the first try of the right kind is already under way. */
  function Restarted(s: State, renew: bool, env: Env): State {
    if s.held.valid then
      (if renew || s.cstate != InitReboot || s.tries != 1 then RebootStarted(s, env) else s)
    else if renew || s.cstate != Init || s.tries != 1 then InitStarted(s, env)
    else s
  }

  function LinkEvent(s: State, renew: bool, env: Env): State {
    LinkChecked(if env.link.networkChanged then AddressRemoved(s) else s, renew, env)
  }

  function RouterCheckStarted(s: State, env: Env): State {
    if !env.cfg.discoverRouter then s
    else ArpStarted(s.(router := s.router.(verified := false)), if s.router.ipValid then ArpCheckRouter else s.pending.arp)
  }

  predicate WakeLosesAddress(env: Env) {
    LinkDown(env.link) || (env.wireless && env.link.networkChanged) || (!env.wireless && !env.link.sameNetwork)
  }

  predicate InFuture(now: real, at: real) { now < at && at - now >= WAKE_SKEW }

  function WakeMaintained(s: State, env: Env): State {
    if s.held.times.length == INFINITE then s
    else if InFuture(env.now, s.renewTime) then TimerSet(s, RenewStart)
    else RenewStarted(s, env)
  }

  function Woken(s: State, env: Env): State {
    if WakeLosesAddress(env) then LinkChecked(AddressRemoved(s), false, env)
    else
      var c := LeaseChecked(s, env.now);
      if !c.held.valid then InitStarted(c, env)
      else if !BoundRenewOrRebind(c.cstate) || !env.published || c.resolveTimedOut then RebootStarted(c, env)
      else if env.link.bssidChanged && ResolveStarts(c, env) then RouterCheckStarted(c, env)
      else WakeMaintained(if env.link.bssidChanged then RouterCheckStarted(c, env) else c, env)
  }

  function Roamed(s: State, env: Env): State {
    if BoundRenewOrRebind(s.cstate) && env.published then RouterCheckStarted(s, env) else s
  }

  function Collided(s: State, ip: nat, env: Env): State {
    if s.ignoreCollisions || s.activeIp != s.saved.ip || ip != s.saved.ip || env.defended then s
    else DeclineStarted(s, env)
  }

  /** The lease given up, its events canceled; the address is left to the caller. */
  function Released(s: State, env: Env): State {
    if !s.held.valid then s
    else
      var r := Canceled(RouterCleared(Invalidated(s)));
      if LinkDown(env.link) || env.buildFails then r else r.(saved := r.saved.(ip := 0))
  }

  function Forgotten(s: State, ssid: nat, env: Env): State {
    if s.held.ssid != Some(ssid) then s
    else
      var r := Released(s, env);
      TimerSet(r.(activeIp := 0, held := r.held.(ssid := None, networkId := None)), CheckLink)
  }

  function StartedUp(s: State, recovered: Option<Stored>, isPrivate: bool): State {
    var f := Fresh(s.activeIp).(router := s.router.Cleared());
    TimerSet(if recovered.Some? then Switched(f, recovered.value, isPrivate, true) else f, DelayedStart)
  }

  function Stopped(s: State, env: Env): State {
    var r := Failed(Released(s, env));
    Fresh(r.activeIp).(running := false, router := r.router)
  }

  // ---------------------------------------------------------------- events

  datatype Event =
    | Start(recovered: Option<Stored>)
    | Stop
    | TimerFires
    | Receive(p: Packet)
    | ArpDone(r: ArpResult, hw: nat)
    | Collision(ip: nat)
    | LinkStatusChanged(renew: bool)
    | LinkTimerExpired
    | Wake
    | BssidChanged
    | ForgetSsid(ssid: nat)

  predicate Enabled(s: State, e: Event) {
    match e
    case Start(_) => !s.running
    case TimerFires => s.running && s.pending.timer.Some?
    case Receive(_) => s.running && s.pending.receive.Some?
    case ArpDone(_, _) => s.running && s.pending.arp != NoArp
    case _ => s.running
  }

  function TimerRun(s: State, env: Env): State
    requires s.pending.timer.Some?
  {
    var q := s.(pending := s.pending.(timer := None));
    match s.pending.timer.value
    case DelayedStart => LinkChecked(q, false, env)
    case InitStart => InitStarted(q, env)
    case InitTimeout => InitTimedOut(q, env)
    case RebootTimeout => RebootTimedOut(q, env)
    case SelectTimeout => SelectTry(q, env)
    case RenewStart => RenewStarted(q, env)
    case RenewTimeout => RenewTry(q, env)
    case CheckLink => LinkChecked(q, false, env)
    case WaitTimeout => LinkChecked(q, false, env)
    case ResolveRetry => RouterResolving(q, env)
  }

  function Received(s: State, p: Packet, env: Env): State
    requires s.pending.receive.Some?
  {
    match s.pending.receive.value
    case OnInit => InitReceived(s, p, env)
    case OnInitReboot => RebootReceived(s, p, env)
    case OnSelect => SelectReceived(s, p, env)
    case OnRenewRebind => RenewReceived(s, p, env)
  }

  function ArpReported(s: State, work: ArpWork, r: ArpResult, hw: nat, env: Env): State {
    match work
    case NoArp => s
    case ArpRouter => RouterArpDone(s, r, env)
    case ArpBound => BoundArpDone(s, r, env)
    case ArpCheckRouter => CheckRouterDone(s, r, env)
    case ArpResolve => RouterResolved(s, r, hw)
  }

  function ArpFinished(s: State, r: ArpResult, hw: nat, env: Env): State {
    ArpReported(ArpStarted(s, NoArp), s.pending.arp, r, hw, env)
  }

  function Step(s: State, e: Event, env: Env): State
    requires Enabled(s, e)
  {
    match e
    case Start(recovered) => StartedUp(s, recovered, env.isPrivate)
    case Stop => Stopped(s, env)
    case TimerFires => TimerRun(s, env)
    case Receive(p) => Received(s, p, env)
    case ArpDone(r, hw) => ArpFinished(s, r, hw, env)
    case Collision(ip) => Collided(s, ip, env)
    case LinkStatusChanged(renew) => LinkEvent(s, renew, env)
    case LinkTimerExpired => LinkLost(s)
    case Wake => Woken(s, env)
    case BssidChanged => Roamed(s, env)
    case ForgetSsid(ssid) => Forgotten(s, ssid, env)
  }
}
