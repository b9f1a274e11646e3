/**
 What the DHCPv4 client does with each packet, each ARP result, each timer and each outside event, told from
 its fields: which answers configure, which take the address away, and which are ignored.
 */
module Dhcp4ClientAnswers {
  import opened Common
  import opened Dhcp4Lease
  import opened Dhcp4Client
  import opened Dhcp4ClientLaws

  // ---------------------------------------------------------------- what it leads to

  function Only(t: TimerKind): Pending { Pending(Some(t), None, NoArp) }

  predicate RouterUnknown(r: Router) { !r.ipValid && !r.hwValid && !r.verified }

  /** The address is gone and nothing is waited for. */
  predicate Fails(q: State) { q.cstate == Inactive && q.activeIp == 0 && q.pending == Nothing }

  /** Lease, address and router are gone, and a search is about to start. */
  predicate GivesUp(q: State) {
    && q.activeIp == 0 && !q.held.valid && q.held.ssid == None && q.held.networkId == None
    && q.saved.ip == 0 && RouterUnknown(q.router) && q.pending == Only(InitStart)
  }

  predicate Unbinds(q: State) { GivesUp(q) && q.cstate == Unbound && !q.gotNak }

  predicate Declines(q: State, env: Env) {
    if env.buildFails then Fails(q) else GivesUp(q) && q.cstate == Declined
  }

  /** The client steps aside for IPv6 and looks at the link again later. */
  predicate StepsAside(q: State) { q.cstate == Inactive && q.activeIp == 0 && q.pending == Only(WaitTimeout) }

  /** The routers of stored leases are probed, if that is wanted and they are not known. */
  predicate ProbesRouters(s: State, env: Env) {
    env.cfg.routerArp && !s.router.verified && (env.wireless ==> env.ssid.Some?) && env.leasesToTry
  }

  predicate RouterKnown(r: Router) { r.ipValid && r.hwValid && r.verified }

  /** Discovery from the first try. */
  predicate Searches(s: State, q: State, env: Env) {
    if env.buildFails then Fails(q)
    else
      var probe := env.cfg.arpAtRetry == 0 && !RouterKnown(s.router) && ProbesRouters(s, env);
      q == s.(cstate := Init, tries := 1, gathering := false, gotNak := false, resolveTimedOut := false,
              held := s.held.(mac := None), saved := s.saved.(rating := 0),
              pending := Pending(Some(InitTimeout), Some(OnInit), if probe then ArpRouter else NoArp))
  }

  /** Asking for the address of the lease held, from the first try. */
  predicate Reboots(s: State, q: State, env: Env) {
    if env.buildFails then Fails(q)
    else
      q == s.(cstate := InitReboot, tries := 1, gathering := false, gotNak := false, resolveTimedOut := false,
              held := s.held.(mac := None), saved := s.saved.(rating := 0),
              pending := Pending(Some(RebootTimeout), Some(OnInitReboot), if ProbesRouters(s, env) then ArpRouter else NoArp))
  }

  /** Requesting the address that was offered. */
  predicate Selects(s: State, q: State, env: Env) {
    if env.buildFails then Fails(q)
    else q == s.(cstate := Select, tries := 1, gathering := false, pending := Pending(Some(SelectTimeout), Some(OnSelect), NoArp))
  }

  function NoLess(o: UInt32, least: UInt32): UInt32 { if o < least then least else o }

  /** The three spans, from the options that are there: T1 and T2 as stated if they lie in order within the
      lease, else half and seven eighths of it, in whole seconds. */
  predicate SpansFrom(x: Spans, o: Options) {
    && x.lease == (if o.lease.Some? then NoLess(o.lease.value, 3) else if o.t1.Some? then NoLess(o.t1.value, 2)
                   else if o.t2.Some? then NoLess(o.t2.value, 2) else 3600)
    && if x.lease == 0xffff_ffff then x.t1 == 0 && x.t2 == 0
       else if o.t1.Some? && o.t2.Some? && NoLess(o.t1.value, 2) <= NoLess(o.t2.value, 2) < x.lease
       then x.t1 == NoLess(o.t1.value, 2) && x.t2 == NoLess(o.t2.value, 2)
       else 2 * x.t1 <= x.lease < 2 * x.t1 + 2 && 8 * x.t2 <= 7 * x.lease < 8 * x.t2 + 8
  }

  /** Times counted from `start`; a lease for ever has none. */
  ghost predicate TimesFrom(l: Lease, start: real, o: Options) {
    && l.start == start
    && exists x: Spans :: SpansFrom(x, o) && l.length == x.lease
                          && if x.lease == 0xffff_ffff then l.t1 == 0.0 && l.t2 == 0.0 && l.expiration == 0.0
                             else l.t1 == start + x.t1 as real && l.t2 == start + x.t2 as real
                                  && l.expiration == start + x.lease as real
  }

  /** The packet is what is saved now, and the times are the ones it states. */
  ghost predicate Keeps(q: State, p: Packet, rating: nat, server: nat, now: real) {
    && q.saved.ip == p.yiaddr && q.saved.server == server && q.saved.rating == rating && q.saved.hasPacket
    && TimesFrom(q.held.times, now, p.options)
  }

  /** The router a packet names is the known one, or has to be looked for. */
  predicate LooksUp(s: State, q: State, env: Env) {
    if env.routerOption.None? then RouterUnknown(q.router) && q.pending.arp == NoArp
    else if RouterKnown(s.router) && s.router.ip == env.routerOption.value
    then q.router == s.router && q.pending.arp == NoArp
    else
      && q.router.ip == env.routerOption.value && q.router.ipValid && !q.router.hwValid && !q.router.verified
      && q.pending.arp == (if env.cfg.discoverRouter then ArpResolve else NoArp)
  }

  /** The lease is valid, its address configured, its renewal set at T1, and the router looked for. */
  predicate Configures(s: State, q: State, env: Env) {
    && q.cstate == Bound && q.activeIp == s.saved.ip && q.saved == s.saved && !q.resolveTimedOut && !q.ignoreCollisions
    && q.held == s.held.(valid := true, ssid := env.ssid, networkId := env.networkId)
    && q.pending.timer == (if s.held.times.length == 0xffff_ffff then None else Some(RenewStart))
    && (s.held.times.length != 0xffff_ffff ==> q.renewTime == s.held.times.t1)
    && q.pending.receive == None
    && if s.held.times.length != 0xffff_ffff && s.held.times.t1 < env.now
       then q.router == s.router && q.pending.arp == NoArp
       else LooksUp(s, q, env)
  }

  /** A new address is probed first, and one already in use announced; a renewed one is configured at once. */
  predicate Binds(s: State, q: State, env: Env) {
    if (s.cstate == Select && !env.isolated)
       || ((s.cstate == InitReboot || s.cstate == Init) && s.activeIp == s.saved.ip)
    then q == s.(cstate := Bound, ignoreCollisions := true, pending := Pending(None, None, ArpBound))
    else Configures(s, q, env)
  }

  // ---------------------------------------------------------------- the pieces

  lemma SpansAre(o: Options)
    ensures SpansFrom(FromOptions(o.lease, o.t1, o.t2), o)
  {
  }

  lemma TimesAre(start: real, o: Options)
    ensures TimesFrom(WithSpans(start, FromOptions(o.lease, o.t1, o.t2)), start, o)
  {
    SpansAre(o);
  }

  lemma UnboundIs(s: State)
    ensures Unbinds(UnboundStarted(s))
  {
  }

  lemma DeclineIs(s: State, env: Env)
    ensures Declines(DeclineStarted(s, env), env)
  {
  }

  lemma InitIs(s: State, env: Env)
    ensures Searches(s, InitStarted(s, env), env)
  {
  }

  lemma RebootIs(s: State, env: Env)
    ensures Reboots(s, RebootStarted(s, env), env)
  {
  }

  lemma SelectIs(s: State, env: Env)
    ensures Selects(s, SelectStarted(s, env), env)
  {
  }

  lemma LookupIs(s: State, env: Env)
    requires s.pending.arp == NoArp
    ensures var u := RouterUpdated(s, env);
            var q := if env.routerOption.None? || RouterKept(s, env) then u else RouterResolving(u, env);
            LooksUp(s, q, env) && q == s.(router := q.router, pending := s.pending.(arp := q.pending.arp))
  {
  }

  lemma BoundFinishIs(s: State, env: Env)
    requires s.cstate == Bound && s.pending == Nothing
    ensures Configures(s, BoundFinished(s, env), env)
  {
    var b := s.(held := s.held.(valid := true, ssid := env.ssid, networkId := env.networkId), activeIp := s.saved.ip,
                ignoreCollisions := false, resolveTimedOut := false);
    LookupIs(b, env);
    LookupIs(TimerSet(b.(renewTime := b.held.times.t1), RenewStart), env);
  }

  lemma BoundIs(s: State, env: Env)
    ensures Binds(s, BoundStarted(s, env), env)
  {
    BoundFinishIs(Canceled(s.(cstate := Bound, ignoreCollisions := true)), env);
  }

  // ---------------------------------------------------------------- packets

  /** A packet is kept, with the router forgotten if `anew`, and then the client binds. */
  ghost predicate KeptThenBinds(s: State, q: State, p: Packet, rating: nat, server: nat, anew: bool, env: Env) {
    exists r: State :: Binds(r, q, env) && Keeps(r, p, rating, server, env.now) && r.saved.granted
      && r == s.(saved := r.saved, held := s.held.(times := r.held.times), router := r.router)
      && (if anew then RouterUnknown(r.router) else r.router == s.router)
  }

  lemma KeptIs(s: State, p: Packet, rating: nat, server: nat, anew: bool, env: Env)
    ensures var r := PacketSaved(if anew then RouterCleared(s) else s, p, rating, server, env.now);
            && Keeps(r, p, rating, server, env.now) && (r.saved.granted <==> p.kind == Ack)
            && r == s.(saved := r.saved, held := s.held.(times := r.held.times), router := r.router)
            && (if anew then RouterUnknown(r.router) else r.router == s.router)
  {
    TimesAre(env.now, p.options);
  }

  lemma KeptBindsIs(s: State, p: Packet, rating: nat, server: nat, anew: bool, env: Env)
    requires p.kind == Ack
    ensures var r := PacketSaved(if anew then RouterCleared(s) else s, p, rating, server, env.now);
            KeptThenBinds(s, BoundStarted(r, env), p, rating, server, anew, env)
  {
    KeptIs(s, p, rating, server, anew, env);
    BoundIs(PacketSaved(if anew then RouterCleared(s) else s, p, rating, server, env.now), env);
  }

  /** Discovery keeps the best usable offer; an ideal one is requested at once, and the first other starts the
      gathering; a server may ask an IPv6-capable client to wait. */
  lemma InitAnswers(s: State, p: Packet, env: Env)
    requires Inv(s) && Enabled(s, Receive(p)) && s.pending.receive == Some(OnInit)
    ensures var q := Step(s, Receive(p), env);
            if p.server == 0 || p.kind != Offer then q == s
            else if p.wait && !s.gathering then StepsAside(q)
            else if !p.usable || (s.saved.hasPacket && p.rating <= s.saved.rating) then q == s
            else
              && Keeps(q, p, p.rating, p.server, env.now) && RouterUnknown(q.router) && !q.saved.granted
              && if p.ideal || env.isolated
                 then if env.buildFails then Fails(q) else q.cstate == Select && q.tries == 1 && q.pending == Pending(Some(SelectTimeout), Some(OnSelect), NoArp)
                 else q.cstate == Init && q.gathering && q.tries == s.tries && q.activeIp == s.activeIp
                      && q.pending == (if s.gathering then s.pending else s.pending.(timer := Some(InitTimeout)))
  {
    KeptIs(s, p, p.rating, p.server, true, env);
    SelectIs(PacketSaved(RouterCleared(s), p, p.rating, p.server, env.now), env);
  }

  /** Select: a refusal of the chosen server starts again, a usable acknowledgement binds, the rest is ignored. */
  lemma SelectAnswers(s: State, p: Packet, env: Env)
    requires Inv(s) && Enabled(s, Receive(p)) && s.pending.receive == Some(OnSelect)
    ensures var q := Step(s, Receive(p), env);
            if p.kind == Nak && p.server != 0 && p.server == s.saved.server then q == s.(pending := Only(InitStart))
            else if p.kind == Ack && p.usable
            then KeptThenBinds(s, q, p, 0, if p.server != 0 then p.server else s.saved.server, false, env)
            else q == s
  {
    if p.kind == Ack {
      KeptBindsIs(s, p, 0, if p.server != 0 then p.server else s.saved.server, false, env);
    }
  }

  /** Init-Reboot: a refusal unbinds, or is remembered while routers are probed; an acknowledgement of a named
      server for the address asked for is kept, or binds at once on an isolated network. */
  lemma RebootAnswers(s: State, p: Packet, env: Env)
    requires Inv(s) && Enabled(s, Receive(p)) && s.pending.receive == Some(OnInitReboot)
    ensures var q := Step(s, Receive(p), env);
            if p.kind == Nak then if s.pending.arp == NoArp then Unbinds(q) else q == s.(gotNak := true)
            else if p.kind != Ack || p.server == 0 then q == s
            else if p.wait && !s.gathering then StepsAside(q)
            else if p.yiaddr != s.saved.ip || (s.saved.hasPacket && p.rating <= s.saved.rating) then q == s
            else if env.isolated then KeptThenBinds(s, q, p, p.rating, p.server, true, env)
            else
              && Keeps(q, p, p.rating, p.server, env.now) && RouterUnknown(q.router) && q.saved.granted
              && q.cstate == InitReboot && q.gathering && q.tries == s.tries && q.activeIp == s.activeIp
              && q.pending == (if s.gathering then s.pending else s.pending.(timer := Some(RebootTimeout)))
  {
    UnboundIs(s);
    if p.kind == Ack {
      if env.isolated {
        KeptBindsIs(s, p, p.rating, p.server, true, env);
      } else {
        KeptIs(s, p, p.rating, p.server, true, env);
      }
    }
  }

  /** Renew and Rebind: a refusal, or a usable acknowledgement of another address, gives the address up; one for
      its own address is kept and configured; anything else is ignored. */
  lemma RenewAnswers(s: State, p: Packet, env: Env)
    requires Inv(s) && Enabled(s, Receive(p)) && s.pending.receive == Some(OnRenewRebind)
    ensures var q := Step(s, Receive(p), env); var granted := p.kind == Ack && p.server != 0 && p.usable;
            if p.kind == Nak || (granted && p.yiaddr != s.saved.ip) then Unbinds(q)
            else if granted then KeptThenBinds(s, q, p, 0, p.server, false, env) && q.cstate == Bound
            else q == s
  {
    UnboundIs(s);
    if p.kind == Ack {
      KeptBindsIs(s, p, 0, p.server, false, env);
    }
  }

  /** The address in use is given up if and only if a server refuses it or acknowledges another one. */
  lemma RenewGivesUpIff(s: State, p: Packet, env: Env)
    requires Inv(s) && Enabled(s, Receive(p)) && s.pending.receive == Some(OnRenewRebind)
    ensures Unbinds(Step(s, Receive(p), env)) <==>
            p.kind == Nak || (p.kind == Ack && p.server != 0 && p.usable && p.yiaddr != s.saved.ip)
  {
    RenewAnswers(s, p, env);
  }

  // ---------------------------------------------------------------- stored leases and the network

  /** The stored lease is the one saved: the same public address, or the same private one behind the same router. */
  predicate SameStored(s: State, l: Stored, isPrivate: bool) {
    && l.ip == s.saved.ip
    && (isPrivate ==> s.router.ipValid && s.router.hwValid && l.routerIp == s.router.ip && l.routerHw == Some(s.router.hw))
  }

  /** A stored lease is taken over, times and router with it; the address is not configured yet. */
  ghost predicate TakesStored(s: State, q: State, l: Stored, loading: bool) {
    && q == s.(activeIp := 0, saved := q.saved, held := q.held, router := q.router)
    && q.saved.ip == l.ip && q.saved.server == l.server && q.saved.rating == 0 && q.saved.hasPacket && q.saved.granted
    && q.held.valid && q.held.ssid == l.ssid && q.held.networkId == l.networkId
    && q.held.mac == (if loading then l.mac else None)
    && TimesFrom(q.held.times, l.start, l.options)
    && q.router.ipValid == (l.routerIp != 0) && (l.routerIp != 0 ==> q.router.ip == l.routerIp)
    && q.router.hwValid == (l.routerIp != 0 && l.routerHw.Some?)
    && (q.router.hwValid ==> q.router.hw == l.routerHw.value)
    && !q.router.verified
  }

  lemma SwitchedIs(s: State, l: Stored, isPrivate: bool, loading: bool)
    ensures var q := Switched(s, l, isPrivate, loading);
            if SameStored(s, l, isPrivate) then q == s else TakesStored(s, q, l, loading)
  {
    TimesAre(l.start, l.options);
  }

  /** Lease, network names, router and address go. */
  predicate Drops(s: State, q: State) {
    && q == s.(activeIp := 0, held := s.held.(valid := false, ssid := None, networkId := None), router := q.router)
    && RouterUnknown(q.router)
  }

  /** On another network the lease stored for it is taken over, or the old one dropped. */
  ghost predicate TakesNetwork(s: State, q: State, env: Env) {
    if env.wifiLease.None? then Drops(s, q)
    else if SameStored(s, env.wifiLease.value, env.isPrivate) then q == s
    else TakesStored(s, q, env.wifiLease.value, false)
  }

  /** A lease loaded for another hardware address is dropped, and that address is not looked at again. */
  predicate ChecksMac(s: State, q: State, env: Env) {
    if s.held.mac.Some? && s.held.mac.value != env.mac
    then q.tries == 0 && q.held.mac == None && Drops(s, q.(tries := s.tries, held := q.held.(mac := s.held.mac)))
    else q == s.(held := s.held.(mac := None))
  }

  ghost predicate ChecksNetwork(s: State, q: State, env: Env) {
    if !s.held.valid || s.held.ssid.None? || env.ssid.None? then q == s
    else if s.held.ssid != env.ssid && (s.held.networkId.None? || s.held.networkId != env.networkId)
    then exists n: State :: TakesNetwork(s, n, env) && q == n.(tries := 0)
    else ChecksMac(s, q, env)
  }

  lemma SwitchIs(s: State, env: Env)
    ensures TakesNetwork(s, NetworkSwitched(s, env), env)
  {
    if env.wifiLease.Some? {
      SwitchedIs(s, env.wifiLease.value, env.isPrivate, false);
    }
  }

  lemma MacIs(s: State, env: Env)
    ensures ChecksMac(s, MacChecked(s, env), env)
  {
  }

  lemma NetworkIs(s: State, env: Env)
    ensures ChecksNetwork(s, NetworkChecked(s, env), env)
  {
    if NetworkChanged(s, env) {
      SwitchIs(s, env);
      assert NetworkChecked(s, env) == NetworkSwitched(s, env).(tries := 0);
    } else {
      MacIs(s, env);
    }
  }

  predicate RunOut(s: State, now: real) {
    s.held.valid && s.held.times.length != 0xffff_ffff && now >= s.held.times.expiration
  }

  predicate ChecksLease(s: State, q: State, now: real) { if RunOut(s, now) then Drops(s, q) else q == s }

  lemma LeaseIs(s: State, now: real)
    ensures ChecksLease(s, LeaseChecked(s, now), now)
  {
  }

  /** Start over with the lease or without one, unless the first try of that kind is under way. */
  predicate StartsOver(s: State, q: State, renew: bool, env: Env) {
    if s.held.valid
    then if renew || s.cstate != InitReboot || s.tries != 1 then Reboots(s, q, env) else q == s
    else if renew || s.cstate != Init || s.tries != 1 then Searches(s, q, env)
    else q == s
  }

  predicate NoLink(env: Env) {
    if env.wireless then !(env.link.valid && env.link.active) else env.link.valid && !env.link.active
  }

  /** Without a link the client waits for one; with one it checks the network, then the lease, then starts over. */
  ghost predicate ChecksLink(s: State, q: State, renew: bool, env: Env) {
    if NoLink(env) then q == s.(tries := 0, cstate := Inactive, pending := Nothing)
    else exists n: State, m: State ::
           ChecksNetwork(s, n, env) && ChecksLease(n, m, env.now) && StartsOver(m, q, renew, env)
  }

  lemma RestartIs(s: State, renew: bool, env: Env)
    ensures StartsOver(s, Restarted(s, renew, env), renew, env)
  {
    RebootIs(s, env);
    InitIs(s, env);
  }

  lemma LinkIs(s: State, renew: bool, env: Env)
    ensures ChecksLink(s, LinkChecked(s, renew, env), renew, env)
  {
    if !NoLink(env) {
      var n := NetworkChecked(s, env);
      var m := LeaseChecked(n, env.now);
      NetworkIs(s, env);
      LeaseIs(n, env.now);
      RestartIs(m, renew, env);
      assert LinkChecked(s, renew, env) == Restarted(m, renew, env);
    }
  }

  // ---------------------------------------------------------------- renewing

  /** The next wait: half the time left to T2, or after it to the end, a minute at least. */
  function NextTime(now: real, limit: real): real {
    if limit - now < 120.0 then now + 60.0 else now + (limit - now) / 2.0
  }

  /** A detected jump of the clock moves the whole lease by the difference from the planned moment. */
  function Moved(s: State, env: Env): Lease {
    var jump := if env.jumped then env.now - s.renewTime else 0.0;
    var l := s.held.times;
    Lease(l.start + jump, l.length, l.t1 + jump, l.t2 + jump, l.expiration + jump)
  }

  /** One turn of Renew or Rebind: the lease moved by a detected jump of the clock, then given up at its end, or
      renewed before T2 and rebound after it. */
  predicate TakesTurn(s: State, q: State, env: Env) {
    var moved := Moved(s, env);
    if env.now >= moved.expiration then Unbinds(q)
    else
      q == s.(held := s.held.(times := moved), cstate := if env.now < moved.t2 then Renewing else Rebinding,
              pending := s.pending.(timer := Some(RenewTimeout)),
              renewTime := NextTime(env.now, if env.now < moved.t2 then moved.t2 else moved.expiration))
  }

  predicate StartsRenewing(s: State, q: State, env: Env) {
    if env.buildFails then Fails(q)
    else TakesTurn(s.(cstate := Renewing, tries := 0, pending := Pending(None, Some(OnRenewRebind), NoArp)), q, env)
  }

  lemma ClockIs(s: State, env: Env)
    ensures ClockCorrected(s, env) == s.(held := s.held.(times := Moved(s, env)))
  {
  }

  lemma TurnIs(s: State, env: Env)
    ensures TakesTurn(s, RenewTry(s, env), env)
  {
    ClockIs(s, env);
    UnboundIs(ClockCorrected(s, env));
  }

  lemma RenewStartIs(s: State, env: Env)
    ensures StartsRenewing(s, RenewStarted(s, env), env)
  {
    TurnIs(s.(cstate := Renewing, tries := 0, pending := Pending(None, Some(OnRenewRebind), NoArp)), env);
  }

  // ---------------------------------------------------------------- ARP results

  function Verified(r: Router): Router { Router(r.ip, r.hw, true, true, true) }

  /** A stored lease found behind the router that answered: the one saved, or taken over. */
  ghost predicate Confirmed(s: State, q: State, l: Stored, isPrivate: bool) {
    && q.router == Verified(q.router)
    && if SameStored(s, l, isPrivate) then q == s.(router := Verified(s.router))
       else exists n: State :: TakesStored(s, n, l, false) && q == n.(router := Verified(n.router))
  }

  lemma ConfirmedIs(s: State, l: Stored, isPrivate: bool)
    ensures Confirmed(s, RouterVerified(Switched(s, l, isPrivate, false)), l, isPrivate)
  {
    SwitchedIs(s, l, isPrivate, false);
  }

  /** Init: without offers gathered the stored lease is made ready.  Init-Reboot: the address of the stored lease is
      configured, unless the server's own answer says otherwise; a refusal remembered is acted on if nothing is
      taken over. */
  ghost predicate HearsRouter(s: State, q: State, r: ArpResult, env: Env) {
    if r != ArpInUse || env.routerLease.None? then if s.gotNak then Unbinds(q) else q == s
    else
      var l := env.routerLease.value;
      if s.cstate == Init then if s.gathering then q == s else Confirmed(s, q, l, env.isPrivate)
      else if s.gathering then
        if l.ip != s.saved.ip || !env.sameRouterOption then q == s
        else q == s.(router := Verified(s.router), activeIp := s.saved.ip)
      else if SameStored(s, l, env.isPrivate) then
        if s.gotNak then Unbinds(q) else q == s.(router := Verified(s.router), activeIp := s.saved.ip)
      else q.activeIp == l.ip && q.tries == 0 && Confirmed(s, q.(activeIp := 0, tries := s.tries), l, env.isPrivate)
  }

  lemma RouterInInitIs(s: State, l: Stored, env: Env)
    requires s.cstate == Init && env.routerLease == Some(l)
    ensures HearsRouter(s, RouterArpDone(s, ArpInUse, env), ArpInUse, env)
  {
    ConfirmedIs(s, l, env.isPrivate);
  }

  lemma TakenOverIs(s: State, l: Stored, isPrivate: bool)
    requires !SameStored(s, l, isPrivate)
    ensures var q := Configured(Switched(s, l, isPrivate, false).(tries := 0));
            q.activeIp == l.ip && q.tries == 0 && Confirmed(s, q.(activeIp := 0, tries := s.tries), l, isPrivate)
  {
    var n := Switched(s, l, isPrivate, false);
    SwitchedIs(s, l, isPrivate, false);
    ConfirmedIs(s, l, isPrivate);
    assert Configured(n.(tries := 0)).(activeIp := 0, tries := s.tries) == RouterVerified(n);
  }

  lemma RouterInRebootIs(s: State, l: Stored, env: Env)
    requires s.cstate == InitReboot && env.routerLease == Some(l)
    ensures HearsRouter(s, RouterArpDone(s, ArpInUse, env), ArpInUse, env)
  {
    UnboundIs(s);
    if !s.gathering && !SameStored(s, l, env.isPrivate) {
      TakenOverIs(s, l, env.isPrivate);
    }
  }

  lemma RouterIs(s: State, r: ArpResult, env: Env)
    requires s.cstate == Init || s.cstate == InitReboot
    ensures HearsRouter(s, RouterArpDone(s, r, env), r, env)
  {
    if r != ArpInUse || env.routerLease.None? {
      UnboundIs(s);
    } else if s.cstate == Init {
      RouterInInitIs(s, env.routerLease.value, env);
    } else {
      RouterInRebootIs(s, env.routerLease.value, env);
    }
  }

  lemma RouterAnswers(s: State, r: ArpResult, hw: nat, env: Env)
    requires Inv(s) && Enabled(s, ArpDone(r, hw)) && s.pending.arp == ArpRouter
    ensures HearsRouter(s.(pending := s.pending.(arp := NoArp)), Step(s, ArpDone(r, hw), env), r, env)
  {
    RouterIs(s.(pending := s.pending.(arp := NoArp)), r, env);
  }

  /** The probe of a new address: an error fails, a conflict declines it, silence configures it. */
  lemma BoundProbeAnswers(s: State, r: ArpResult, hw: nat, env: Env)
    requires Inv(s) && Enabled(s, ArpDone(r, hw)) && s.pending.arp == ArpBound
    ensures var q := Step(s, ArpDone(r, hw), env);
            match r
            case ArpError => Fails(q)
            case ArpInUse => Declines(q, env)
            case ArpNotInUse => Configures(s.(pending := Nothing), q, env)
  {
    var t := s.(pending := s.pending.(arp := NoArp));
    DeclineIs(RouterCleared(Invalidated(t)), env);
    BoundFinishIs(Canceled(t), env);
  }

  /** The router of the lease in use: unless it answers, the link is checked; if it does, renewal goes on. */
  lemma CheckAnswers(s: State, r: ArpResult, hw: nat, env: Env)
    requires Inv(s) && Enabled(s, ArpDone(r, hw)) && s.pending.arp == ArpCheckRouter
    ensures var q := Step(s, ArpDone(r, hw), env); var t := s.(pending := s.pending.(arp := NoArp));
            if r != ArpInUse then ChecksLink(t, q, false, env)
            else if s.held.times.length == 0xffff_ffff then q == t
            else if env.now < s.renewTime then q == t.(pending := t.pending.(timer := Some(RenewStart)))
            else StartsRenewing(t, q, env)
  {
    var t := s.(pending := s.pending.(arp := NoArp));
    LinkIs(t, false, env);
    RenewStartIs(t, env);
  }

  /** The search for the router: its hardware address is kept; silence takes the timer for another try. */
  lemma ResolveAnswers(s: State, r: ArpResult, hw: nat, env: Env)
    requires Inv(s) && Enabled(s, ArpDone(r, hw)) && s.pending.arp == ArpResolve
    ensures var q := Step(s, ArpDone(r, hw), env); var t := s.(pending := s.pending.(arp := NoArp));
            match r
            case ArpError => q == t
            case ArpInUse => q == t.(router := Router(s.router.ip, hw, true, true, true))
            case ArpNotInUse => q == t.(resolveTimedOut := true, pending := t.pending.(timer := Some(ResolveRetry)))
  {
  }

  // ---------------------------------------------------------------- timers

  predicate LinkLostAfter(s: State, env: Env) { s.tries > 1 && env.link.valid && !env.link.active }

  function ProbeOr(s: State, env: Env): ArpWork { if ProbesRouters(s, env) then ArpRouter else s.pending.arp }

  /** Discovery's timeout: gathered offers are requested from; else another try, probing routers when it is late,
      until the tries are used up: then a router known to be there is enough. */
  lemma InitTimer(s: State, env: Env)
    requires Inv(s) && Enabled(s, TimerFires) && s.pending.timer == Some(InitTimeout)
    ensures var q := Step(s, TimerFires, env);
            var t := s.(pending := s.pending.(timer := None), tries := if s.gathering then s.tries else s.tries + 1);
            var late := t.tries >= env.cfg.arpAtRetry + 1 && !RouterKnown(s.router);
            if s.gathering then Selects(t, q, env)
            else if LinkLostAfter(t, env) then Fails(q)
            else if t.tries <= env.cfg.maxRetries + 1 then
              q == t.(pending := Pending(Some(InitTimeout), s.pending.receive, if late then ProbeOr(t, env) else s.pending.arp))
            else if RouterKnown(s.router) then Binds(t, q, env)
            else q == t.(pending := Only(InitStart))
  {
    var u := s.(pending := s.pending.(timer := None));
    if s.gathering {
      SelectIs(u, env);
    } else if RouterKnown(s.router) {
      BoundIs(u.(tries := s.tries + 1), env);
    }
  }

  lemma RebootTimer(s: State, env: Env)
    requires Inv(s) && Enabled(s, TimerFires) && s.pending.timer == Some(RebootTimeout)
    ensures var q := Step(s, TimerFires, env);
            var t := s.(pending := s.pending.(timer := None), tries := if s.gathering then s.tries else s.tries + 1);
            if s.gathering then Binds(t, q, env)
            else if LinkLostAfter(t, env) then Fails(q)
            else if t.tries > env.cfg.rebootRetries + 1 then Searches(t.(activeIp := 0), q, env)
            else q == t.(pending := Pending(Some(RebootTimeout), s.pending.receive, ProbeOr(t, env)))
  {
    var u := s.(pending := s.pending.(timer := None));
    BoundIs(u, env);
    RebootTryIs(u, env);
  }

  lemma RebootTryIs(s: State, env: Env)
    ensures var q := RebootTry(s, env); var t := s.(tries := s.tries + 1);
            if LinkLostAfter(t, env) then Fails(q)
            else if t.tries > env.cfg.rebootRetries + 1 then Searches(t.(activeIp := 0), q, env)
            else q == t.(pending := Pending(Some(RebootTimeout), s.pending.receive, ProbeOr(t, env)))
  {
    var t := s.(tries := s.tries + 1);
    if !LinkLostAfter(t, env) {
      var a := RouterArpStarted(t, env);
      assert a == t.(pending := t.pending.(arp := ProbeOr(t, env)));
      if t.tries > env.cfg.rebootRetries + 1 {
        var w := AddressRemoved(a).(tries := a.tries - 1);
        InitIs(w, env);
        SearchesFromEither(w, t.(activeIp := 0), InitStarted(w, env), env);
      }
    }
  }

  lemma SearchesFromEither(s: State, t: State, q: State, env: Env)
    requires Searches(s, q, env) && t == s.(pending := t.pending, tries := t.tries)
    ensures Searches(t, q, env)
  {
  }

  lemma SelectTimer(s: State, env: Env)
    requires Inv(s) && Enabled(s, TimerFires) && s.pending.timer == Some(SelectTimeout)
    ensures var q := Step(s, TimerFires, env);
            var t := s.(pending := s.pending.(timer := None), tries := s.tries + 1);
            if t.tries > env.cfg.selectRetries + 1 then Searches(t, q, env)
            else q == t.(pending := t.pending.(timer := Some(SelectTimeout)))
  {
    InitIs(s.(pending := s.pending.(timer := None), tries := s.tries + 1), env);
  }

  /** The start of a search, of renewal, or its next turn. */
  lemma StartTimers(s: State, env: Env)
    requires Inv(s) && Enabled(s, TimerFires)
    ensures var q := Step(s, TimerFires, env); var t := s.(pending := s.pending.(timer := None));
            match s.pending.timer.value
            case InitStart => Searches(t, q, env)
            case RenewStart => StartsRenewing(t, q, env)
            case RenewTimeout => TakesTurn(t, q, env)
            case _ => true
  {
    var t := s.(pending := s.pending.(timer := None));
    match s.pending.timer.value
    case InitStart => InitIs(t, env);
    case RenewStart => RenewStartIs(t, env);
    case RenewTimeout => TurnIs(t, env);
    case _ =>
  }

  /** The link is checked, or the router looked for again. */
  lemma CheckTimers(s: State, env: Env)
    requires Inv(s) && Enabled(s, TimerFires)
    ensures var q := Step(s, TimerFires, env); var t := s.(pending := s.pending.(timer := None));
            match s.pending.timer.value
            case ResolveRetry =>
              if !env.cfg.discoverRouter then q == t
              else q == t.(router := s.router.(verified := false),
                           pending := t.pending.(arp := if s.router.ipValid then ArpResolve else s.pending.arp))
            case DelayedStart => ChecksLink(t, q, false, env)
            case CheckLink => ChecksLink(t, q, false, env)
            case WaitTimeout => ChecksLink(t, q, false, env)
            case _ => true
  {
    var k := s.pending.timer.value;
    if k == DelayedStart || k == CheckLink || k == WaitTimeout {
      LinkIs(s.(pending := s.pending.(timer := None)), false, env);
    }
  }

  // ---------------------------------------------------------------- outside events

  /** A conflict for the configured address that cannot be defended declines it; a changed link is checked, the
      address gone first on another network; a link gone for long fails. */
  lemma ConflictAndLink(s: State, e: Event, env: Env)
    requires Inv(s) && Enabled(s, e) && (e.Collision? || e.LinkStatusChanged? || e.LinkTimerExpired?)
    ensures var q := Step(s, e, env);
            match e
            case Collision(ip) =>
              if !s.ignoreCollisions && s.activeIp == s.saved.ip && ip == s.saved.ip && !env.defended
              then Declines(q, env) else q == s
            case LinkStatusChanged(renew) =>
              ChecksLink(if env.link.networkChanged then s.(activeIp := 0) else s, q, renew, env)
            case LinkTimerExpired => q == s.(activeIp := 0, cstate := Inactive, pending := Nothing)
  {
    match e
    case Collision(_) => DeclineIs(s, env);
    case LinkStatusChanged(renew) => LinkIs(if env.link.networkChanged then s.(activeIp := 0) else s, renew, env);
    case LinkTimerExpired =>
  }

  /** Another network, or none: seen on the link when the machine wakes. */
  predicate Elsewhere(env: Env) {
    || (env.link.valid && !env.link.active)
    || if env.wireless then env.link.networkChanged else !env.link.sameNetwork
  }

  /** The router of the lease in use is asked again, if it is known. */
  predicate AsksRouter(s: State, q: State, env: Env) {
    if !env.cfg.discoverRouter then q == s
    else q == s.(router := s.router.(verified := false),
                 pending := s.pending.(arp := if s.router.ipValid then ArpCheckRouter else s.pending.arp))
  }

  /** A lease kept over sleep: renewal waits if it is half a minute off at least, and else starts. */
  predicate Maintains(s: State, q: State, env: Env) {
    if s.held.times.length == 0xffff_ffff then q == s
    else if s.renewTime >= env.now + 30.0 then q == s.(pending := s.pending.(timer := Some(RenewStart)))
    else StartsRenewing(s, q, env)
  }

  /** Waking: elsewhere the address is lost and the link checked; without a good lease a search starts; a lease not
      in use, or whose router was not found, is asked for again; one in use is kept, its router asked after a change
      of access point. */
  ghost predicate Wakes(s: State, q: State, env: Env) {
    if Elsewhere(env) then ChecksLink(s.(activeIp := 0), q, false, env)
    else if !s.held.valid || RunOut(s, env.now) then
      exists c: State :: ChecksLease(s, c, env.now) && Searches(c, q, env)
    else if !(s.cstate == Bound || s.cstate == Renewing || s.cstate == Rebinding) || !env.published || s.resolveTimedOut
    then Reboots(s, q, env)
    else if env.link.bssidChanged && env.cfg.discoverRouter && s.router.ipValid then AsksRouter(s, q, env)
    else Maintains(if env.link.bssidChanged && env.cfg.discoverRouter then s.(router := s.router.(verified := false)) else s,
                   q, env)
  }

  lemma MaintainedIs(s: State, env: Env)
    ensures Maintains(s, WakeMaintained(s, env), env)
  {
    RenewStartIs(s, env);
  }

  lemma WakeInUseIs(s: State, env: Env)
    requires !(env.link.bssidChanged && env.cfg.discoverRouter && s.router.ipValid)
    ensures Maintains(if env.link.bssidChanged && env.cfg.discoverRouter then s.(router := s.router.(verified := false)) else s,
                      WakeMaintained(if env.link.bssidChanged then RouterCheckStarted(s, env) else s, env), env)
  {
    var m := if env.link.bssidChanged && env.cfg.discoverRouter then s.(router := s.router.(verified := false)) else s;
    assert m == if env.link.bssidChanged then RouterCheckStarted(s, env) else s;
    MaintainedIs(m, env);
  }

  lemma WakeElsewhereIs(s: State, env: Env)
    requires Elsewhere(env)
    ensures ChecksLink(s.(activeIp := 0), Woken(s, env), false, env)
  {
    LinkIs(s.(activeIp := 0), false, env);
  }

  lemma WakeWithoutLeaseIs(s: State, env: Env)
    requires !Elsewhere(env) && (!s.held.valid || RunOut(s, env.now))
    ensures exists c: State :: ChecksLease(s, c, env.now) && Searches(c, Woken(s, env), env)
  {
    LeaseIs(s, env.now);
    InitIs(LeaseChecked(s, env.now), env);
  }

  lemma WakeWithLeaseIs(s: State, env: Env)
    requires !Elsewhere(env) && s.held.valid && !RunOut(s, env.now)
    ensures Woken(s, env) ==
            if !BoundRenewOrRebind(s.cstate) || !env.published || s.resolveTimedOut then RebootStarted(s, env)
            else if env.link.bssidChanged && ResolveStarts(s, env) then RouterCheckStarted(s, env)
            else WakeMaintained(if env.link.bssidChanged then RouterCheckStarted(s, env) else s, env)
  {
    assert LeaseChecked(s, env.now) == s;
  }

  lemma WakeDecides(s: State, env: Env)
    requires Inv(s) && Enabled(s, Wake)
    ensures Wakes(s, Step(s, Wake, env), env)
  {
    if Elsewhere(env) {
      WakeElsewhereIs(s, env);
    } else if !s.held.valid || RunOut(s, env.now) {
      WakeWithoutLeaseIs(s, env);
    } else {
      WakeWithLeaseIs(s, env);
      RebootIs(s, env);
      if !(env.link.bssidChanged && env.cfg.discoverRouter && s.router.ipValid) {
        WakeInUseIs(s, env);
      }
    }
  }

  /** A roam asks the router of a published lease in use, and does nothing else. */
  lemma RoamDecides(s: State, env: Env)
    requires Inv(s) && Enabled(s, BssidChanged)
    ensures var q := Step(s, BssidChanged, env);
            if (s.cstate == Bound || s.cstate == Renewing || s.cstate == Rebinding) && env.published
            then AsksRouter(s, q, env) else q == s
  {
  }

  /** Lease, network names, router and everything pending go; what was saved too, if the server can be told. */
  predicate LetsGo(s: State, q: State, env: Env) {
    && !q.held.valid && q.held.ssid == None && q.held.networkId == None && RouterUnknown(q.router)
    && q.saved == (if (env.link.valid && !env.link.active) || env.buildFails then s.saved else s.saved.(ip := 0))
  }

  /** Forgetting the network of the lease gives it up with its address, and the link is checked next. */
  lemma ForgetDecides(s: State, ssid: nat, env: Env)
    requires Inv(s) && Enabled(s, ForgetSsid(ssid))
    ensures var q := Step(s, ForgetSsid(ssid), env);
            if s.held.ssid != Some(ssid) then q == s
            else LetsGo(s, q, env) && q.activeIp == 0 && q.cstate == s.cstate && q.pending == Only(CheckLink)
  {
  }

  predicate Resting(q: State) {
    q.cstate == Inactive && q.tries == 0 && !q.gathering && !q.gotNak && !q.ignoreCollisions && !q.resolveTimedOut
  }

  /** A stop leaves nothing. */
  lemma StopLeaves(s: State, env: Env)
    requires Inv(s) && Enabled(s, Stop)
    ensures var q := Step(s, Stop, env);
            && Resting(q) && q.activeIp == 0
            && !q.running && !q.held.valid && q.saved == Saved(0, 0, 0, false, false) && q.pending == Nothing
            && if s.held.valid then RouterUnknown(q.router) else q.router == s.router
  {
  }

  /** A start holds nothing but a lease found stored. */
  lemma StartHolds(s: State, recovered: Option<Stored>, env: Env)
    requires Inv(s) && Enabled(s, Start(recovered))
    ensures var q := Step(s, Start(recovered), env);
            && Resting(q) && q.activeIp == 0
            && q.running && q.pending == Only(DelayedStart)
            && if recovered.None? then !q.held.valid && q.saved == Saved(0, 0, 0, false, false) && RouterUnknown(q.router)
               else q.held.valid && q.saved.ip == recovered.value.ip && q.saved.granted
                    && TimesFrom(q.held.times, recovered.value.start, recovered.value.options)
                    && q.held.mac == recovered.value.mac && q.held.ssid == recovered.value.ssid
  {
    if recovered.Some? {
      SwitchedIs(Fresh(s.activeIp).(router := s.router.Cleared()), recovered.value, env.isPrivate, true);
    }
  }
}
