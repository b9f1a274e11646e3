/** An address is configured only while the lease it belongs to is held, whatever happens in any order. */
module Dhcp4ClientLaws {
  import opened Common
  import opened Dhcp4Lease
  import opened Dhcp4Client

  // ---------------------------------------------------------------- the invariant

  /** The one the rest is for: a configured address is that of a valid lease. */
  predicate Safe(s: State) {
    s.activeIp != 0 ==> s.held.valid && s.activeIp == s.saved.ip
  }

  /** States in which a new address is being sought. */
  predicate Seeking(c: CState) { c == Init || c == Select || c == Declined || c == Unbound }

  /** Nothing is configured while seeking; in Init-Reboot whatever could configure an address comes
      with a valid lease; a lease knows its network only while it is valid. */
  predicate Known(s: State) { s.held.ssid.Some? ==> s.held.valid }

  predicate Guarded(s: State) {
    && (Seeking(s.cstate) ==> s.activeIp == 0)
    && (s.cstate == InitReboot && !s.held.valid ==>
          s.pending.timer != Some(RebootTimeout) && s.pending.arp != ArpRouter && s.pending.receive != Some(OnInitReboot))
    && Known(s)
    && (!s.running ==> s.activeIp == 0)
  }

  predicate TimerOk(c: CState, t: TimerKind) {
    match t
    case InitStart => Seeking(c)
    case InitTimeout => c == Init
    case RebootTimeout => c == InitReboot
    case SelectTimeout => c == Select
    case RenewStart => BoundRenewOrRebind(c)
    case RenewTimeout => Renews(c)
    case ResolveRetry => c == Bound
    case _ => true
  }

  predicate ReceiveOk(c: CState, h: Handler) {
    match h
    case OnInit => c == Init
    case OnInitReboot => c == InitReboot
    case OnSelect => c == Select
    case OnRenewRebind => Renews(c)
  }

  predicate ArpOk(c: CState, a: ArpWork) {
    match a
    case NoArp => true
    case ArpRouter => c == Init || c == InitReboot
    case ArpBound => c == Bound
    case ArpCheckRouter => BoundRenewOrRebind(c)
    case ArpResolve => c == Bound
  }

  predicate PendingOk(s: State) {
    && (s.pending.timer.Some? ==> TimerOk(s.cstate, s.pending.timer.value))
    && (s.pending.receive.Some? ==> ReceiveOk(s.cstate, s.pending.receive.value))
    && ArpOk(s.cstate, s.pending.arp)
  }

  predicate Inv(s: State) { Safe(s) && Guarded(s) && PendingOk(s) }

  // ---------------------------------------------------------------- ends of a lease

  lemma FailedOk(s: State)
    requires s.running && Known(s)
    ensures Inv(Failed(s))
  {
  }

  lemma WaitStartedOk(s: State)
    requires s.running && Known(s)
    ensures Inv(WaitStarted(s))
  {
  }

  lemma LinkLostOk(s: State)
    requires s.running && Known(s)
    ensures Inv(LinkLost(s))
  {
  }

  lemma DeclineStartedOk(s: State, env: Env)
    requires s.running && (env.buildFails ==> Known(s))
    ensures Inv(DeclineStarted(s, env))
  {
  }

  lemma UnboundStartedOk(s: State)
    requires s.running
    ensures Inv(UnboundStarted(s))
  {
  }

  /** The lease may have changed, safely; nothing else that is pending did. */
  predicate Kept(s: State, c: State) {
    Safe(c) && Known(c) && c.running == s.running && c.cstate == s.cstate && c.pending == s.pending
    && (s.activeIp == 0 ==> c.activeIp == 0)
  }

  lemma LeaseCheckedOk(s: State, now: real)
    requires s.running && Safe(s) && Known(s)
    ensures Kept(s, LeaseChecked(s, now))
  {
  }

  // ---------------------------------------------------------------- Bound

  lemma RouterResolvingOk(s: State, env: Env)
    requires Inv(s) && s.running && s.cstate == Bound
    ensures Inv(RouterResolving(s, env))
  {
  }

  lemma BoundFinishedOk(s: State, env: Env)
    requires s.running && s.cstate == Bound && s.pending == Nothing
    ensures Inv(BoundFinished(s, env))
  {
  }

  lemma BoundStartedOk(s: State, env: Env)
    requires s.running && Safe(s) && Known(s)
    ensures Inv(BoundStarted(s, env))
  {
    var b := Canceled(s.(cstate := Bound, ignoreCollisions := true));
    BoundFinishedOk(b, env);
    assert Inv(ArpStarted(b, ArpBound));
  }

  lemma BoundArpDoneOk(s: State, r: ArpResult, env: Env)
    requires Inv(s) && s.running && s.cstate == Bound
    ensures Inv(BoundArpDone(s, r, env))
  {
    match r
    case ArpError => FailedOk(s);
    case ArpInUse => DeclineStartedOk(RouterCleared(Invalidated(s)), env);
    case ArpNotInUse => BoundFinishedOk(Canceled(s), env);
  }

  // ---------------------------------------------------------------- seeking

  lemma RouterArpStartedOk(s: State, env: Env)
    requires Inv(s) && (s.cstate == Init || (s.cstate == InitReboot && s.held.valid))
    ensures var a := RouterArpStarted(s, env);
            Inv(a) && a.cstate == s.cstate && a.held.valid == s.held.valid && a.running == s.running
  {
  }

  lemma InitNextOk(s: State, env: Env)
    requires Inv(s) && s.running && s.cstate == Init
    ensures Inv(InitNext(s, env))
  {
    if s.tries > env.cfg.maxRetries + 1 && s.router.AllValid() {
      BoundStartedOk(s, env);
    }
  }

  lemma InitTryOk(s: State, env: Env)
    requires Inv(s) && s.running && s.cstate == Init
    ensures Inv(InitTry(s, env))
  {
    var t := s.(tries := s.tries + 1);
    if t.tries > 1 && LinkDown(env.link) {
      LinkLostOk(t);
    } else {
      var a := if t.tries >= env.cfg.arpAtRetry + 1 && !t.router.AllValid() then RouterArpStarted(t, env) else t;
      RouterArpStartedOk(t, env);
      InitNextOk(a, env);
    }
  }

  lemma InitStartedOk(s: State, env: Env)
    requires s.running && s.activeIp == 0 && Known(s)
    ensures Inv(InitStarted(s, env))
  {
    var i := InitEntered(s);
    if env.buildFails {
      FailedOk(i);
    }
    InitTryOk(InitReady(i), env);
  }

  lemma SelectTryOk(s: State, env: Env)
    requires Inv(s) && s.running && s.cstate == Select
    ensures Inv(SelectTry(s, env))
  {
    var t := s.(tries := s.tries + 1);
    if t.tries > env.cfg.selectRetries + 1 {
      InitStartedOk(t, env);
    }
  }

  lemma SelectStartedOk(s: State, env: Env)
    requires s.running && s.activeIp == 0 && Known(s)
    ensures Inv(SelectStarted(s, env))
  {
    var c := Canceled(s.(cstate := Select));
    if env.buildFails {
      FailedOk(c);
    }
    SelectTryOk(Receiving(c.(tries := 0, gathering := false), OnSelect), env);
  }

  lemma InitReceivedOk(s: State, p: Packet, env: Env)
    requires Inv(s) && s.running && s.cstate == Init
    ensures Inv(InitReceived(s, p, env))
  {
    WaitStartedOk(s);
    SelectStartedOk(PacketSaved(RouterCleared(s), p, p.rating, p.server, env.now), env);
  }

  lemma SelectReceivedOk(s: State, p: Packet, env: Env)
    requires Inv(s) && s.running && s.cstate == Select
    ensures Inv(SelectReceived(s, p, env))
  {
    BoundStartedOk(PacketSaved(s, p, 0, if p.server != 0 then p.server else s.saved.server, env.now), env);
  }

  // ---------------------------------------------------------------- Init-Reboot

  lemma RebootNextOk(s: State, env: Env)
    requires Inv(s) && s.running && s.cstate == InitReboot && s.held.valid
    ensures Inv(RebootNext(s, env))
  {
    if s.tries > env.cfg.rebootRetries + 1 {
      InitStartedOk(AddressRemoved(s).(tries := s.tries - 1), env);
    }
  }

  lemma RebootTryOk(s: State, env: Env)
    requires Inv(s) && s.running && s.cstate == InitReboot && s.held.valid
    ensures Inv(RebootTry(s, env))
  {
    var t := s.(tries := s.tries + 1);
    if t.tries > 1 && LinkDown(env.link) {
      LinkLostOk(t);
    } else {
      var a := RouterArpStarted(t, env);
      RouterArpStartedOk(t, env);
      RebootNextOk(a, env);
    }
  }

  lemma RebootStartedOk(s: State, env: Env)
    requires s.running && Safe(s) && s.held.valid
    ensures Inv(RebootStarted(s, env))
  {
    var r := RebootEntered(s);
    if env.buildFails {
      FailedOk(r);
    }
    RebootTryOk(RebootReady(r), env);
  }

  lemma RebootReceivedOk(s: State, p: Packet, env: Env)
    requires Inv(s) && s.running && s.cstate == InitReboot
    requires s.held.valid
    ensures Inv(RebootReceived(s, p, env))
  {
    if p.kind == Nak {
      UnboundStartedOk(s);
    } else if p.wait && !s.gathering {
      WaitStartedOk(s);
    } else if p.yiaddr == s.saved.ip && env.isolated {
      BoundStartedOk(PacketSaved(RouterCleared(s), p, p.rating, p.server, env.now), env);
    }
  }

  lemma ConfiguredOk(s: State)
    requires Inv(s) && s.running && s.cstate == InitReboot && s.held.valid
    ensures Inv(Configured(s))
  {
  }

  lemma SwitchedOk(s: State, l: Stored, isPrivate: bool, loading: bool)
    requires Inv(s)
    ensures var q := Switched(s, l, isPrivate, loading);
            Inv(q) && q.cstate == s.cstate && q.running == s.running && (s.held.valid ==> q.held.valid)
            && (!SameLease(s, l, isPrivate) ==> q.held.valid)
  {
  }

  lemma RouterArpDoneOk(s: State, r: ArpResult, env: Env)
    requires Inv(s) && s.running && (s.cstate == Init || s.cstate == InitReboot) && s.pending.arp == NoArp
    requires s.cstate == InitReboot ==> s.held.valid
    ensures Inv(RouterArpDone(s, r, env))
  {
    if r != ArpInUse || env.routerLease.None? {
      UnboundStartedOk(s);
    } else {
      var l := env.routerLease.value;
      SwitchedOk(s, l, env.isPrivate, false);
      var q := Switched(s, l, env.isPrivate, false);
      if s.cstate == InitReboot {
        ConfiguredOk(s);
        if !s.gathering && !SameLease(s, l, env.isPrivate) {
          ConfiguredOk(q.(tries := 0));
        } else if !s.gathering && s.gotNak {
          UnboundStartedOk(s);
        }
      }
    }
  }

  // ---------------------------------------------------------------- Renew, link, wake

  lemma RenewChosenOk(s: State, env: Env)
    requires Inv(s) && s.running && Renews(s.cstate) && s.pending.timer == None
    ensures Inv(RenewChosen(s, env))
  {
    UnboundStartedOk(s);
  }

  lemma RenewTryOk(s: State, env: Env)
    requires Inv(s) && s.running && Renews(s.cstate) && s.pending.timer == None
    ensures Inv(RenewTry(s, env))
  {
    RenewChosenOk(ClockCorrected(s, env), env);
  }

  lemma RenewStartedOk(s: State, env: Env)
    requires s.running && Safe(s) && Known(s)
    ensures Inv(RenewStarted(s, env))
  {
    var r := RenewEntered(s);
    if env.buildFails {
      FailedOk(r);
    }
    RenewTryOk(Receiving(r.(tries := 0), OnRenewRebind), env);
  }

  lemma RenewReceivedOk(s: State, p: Packet, env: Env)
    requires Inv(s) && s.running
    ensures Inv(RenewReceived(s, p, env))
  {
    if p.kind == Nak || p.yiaddr != s.saved.ip {
      UnboundStartedOk(s);
    } else {
      BoundStartedOk(PacketSaved(s, p, 0, p.server, env.now), env);
    }
  }

  lemma LeaseDroppedOk(s: State)
    ensures Kept(s, LeaseDropped(s))
  {
  }

  lemma SwitchedSafe(s: State, l: Stored, isPrivate: bool, loading: bool)
    requires Safe(s) && Known(s)
    ensures Kept(s, Switched(s, l, isPrivate, loading))
  {
  }

  lemma NetworkSwitchedOk(s: State, env: Env)
    requires Safe(s) && Known(s)
    ensures Kept(s, NetworkSwitched(s, env))
  {
    if env.wifiLease.Some? {
      SwitchedSafe(s, env.wifiLease.value, env.isPrivate, false);
    } else {
      LeaseDroppedOk(s);
    }
  }

  lemma MacCheckedOk(s: State, env: Env)
    requires Safe(s) && Known(s)
    ensures Kept(s, MacChecked(s, env))
  {
    LeaseDroppedOk(s);
  }

  lemma NetworkCheckedOk(s: State, env: Env)
    requires s.running && Safe(s) && Known(s)
    ensures Kept(s, NetworkChecked(s, env))
  {
    if NetworkChanged(s, env) {
      NetworkSwitchedOk(s, env);
    } else {
      MacCheckedOk(s, env);
    }
  }

  predicate Resting(s: State) { s.cstate == Init || (s.cstate == InitReboot && s.held.valid) ==> Inv(s) }

  lemma RestingKept(s: State, c: State)
    requires Kept(s, c) && PendingOk(s) && (Seeking(s.cstate) ==> s.activeIp == 0) && s.running
    ensures Resting(c) && PendingOk(c) && (Seeking(c.cstate) ==> c.activeIp == 0)
  {
  }

  lemma RestartedOk(s: State, renew: bool, env: Env)
    requires s.running && Safe(s) && Known(s) && Resting(s)
    ensures Inv(Restarted(s, renew, env))
  {
    if s.held.valid {
      RebootStartedOk(s, env);
    } else {
      InitStartedOk(s, env);
    }
  }

  lemma LinkCheckedOk(s: State, renew: bool, env: Env)
    requires Inv(s) && s.running
    ensures Inv(LinkChecked(s, renew, env))
  {
    if !WaitsForLink(env) {
      var n := NetworkChecked(s, env);
      NetworkCheckedOk(s, env);
      LeaseCheckedOk(n, env.now);
      RestingKept(s, n);
      RestingKept(n, LeaseChecked(n, env.now));
      RestartedOk(LeaseChecked(n, env.now), renew, env);
    }
  }

  lemma RouterCheckStartedOk(s: State, env: Env)
    requires Inv(s) && BoundRenewOrRebind(s.cstate)
    ensures var q := RouterCheckStarted(s, env);
            Inv(q) && q.cstate == s.cstate && q.running == s.running && q.held.valid == s.held.valid
  {
  }

  lemma WokenOk(s: State, env: Env)
    requires Inv(s) && s.running
    ensures Inv(Woken(s, env))
  {
    if WakeLosesAddress(env) {
      LinkCheckedOk(AddressRemoved(s), false, env);
    } else {
      LeaseCheckedOk(s, env.now);
      var c := LeaseChecked(s, env.now);
      if !c.held.valid {
        InitStartedOk(c, env);
      } else if !BoundRenewOrRebind(c.cstate) || !env.published || c.resolveTimedOut {
        RebootStartedOk(c, env);
      } else {
        RouterCheckStartedOk(c, env);
        var q := if env.link.bssidChanged then RouterCheckStarted(c, env) else c;
        RenewStartedOk(q, env);
      }
    }
  }

  lemma CheckRouterDoneOk(s: State, r: ArpResult, env: Env)
    requires Inv(s) && s.running && BoundRenewOrRebind(s.cstate)
    ensures Inv(CheckRouterDone(s, r, env))
  {
    if r != ArpInUse {
      LinkCheckedOk(s, false, env);
    } else {
      RenewStartedOk(s, env);
    }
  }

  // ---------------------------------------------------------------- every event, every run

  lemma TimerRunOk(s: State, env: Env)
    requires Inv(s) && s.running && s.pending.timer.Some?
    ensures Inv(TimerRun(s, env))
  {
    var q := s.(pending := s.pending.(timer := None));
    match s.pending.timer.value
    case DelayedStart => LinkCheckedOk(q, false, env);
    case InitStart => InitStartedOk(q, env);
    case InitTimeout => if q.gathering { SelectStartedOk(q, env); } else { InitTryOk(q, env); }
    case RebootTimeout => if q.gathering { BoundStartedOk(q, env); } else { RebootTryOk(q, env); }
    case SelectTimeout => SelectTryOk(q, env);
    case RenewStart => RenewStartedOk(q, env);
    case RenewTimeout => RenewTryOk(q, env);
    case CheckLink => LinkCheckedOk(q, false, env);
    case WaitTimeout => LinkCheckedOk(q, false, env);
    case ResolveRetry => RouterResolvingOk(q, env);
  }

  lemma ReceivedOk(s: State, p: Packet, env: Env)
    requires Inv(s) && s.running && s.pending.receive.Some?
    ensures Inv(Received(s, p, env))
  {
    match s.pending.receive.value
    case OnInit => InitReceivedOk(s, p, env);
    case OnInitReboot => RebootReceivedOk(s, p, env);
    case OnSelect => SelectReceivedOk(s, p, env);
    case OnRenewRebind => RenewReceivedOk(s, p, env);
  }

  lemma ArpFinishedOk(s: State, r: ArpResult, hw: nat, env: Env)
    requires Inv(s) && s.running
    ensures Inv(ArpFinished(s, r, hw, env))
  {
    var q := ArpStarted(s, NoArp);
    match s.pending.arp
    case NoArp =>
    case ArpRouter => RouterArpDoneOk(q, r, env);
    case ArpBound => BoundArpDoneOk(q, r, env);
    case ArpCheckRouter => CheckRouterDoneOk(q, r, env);
    case ArpResolve =>
  }

  lemma StartedUpOk(s: State, recovered: Option<Stored>, isPrivate: bool)
    requires Inv(s) && !s.running
    ensures Inv(StartedUp(s, recovered, isPrivate))
  {
    var f := Fresh(s.activeIp).(router := s.router.Cleared());
    if recovered.Some? {
      SwitchedOk(f, recovered.value, isPrivate, true);
    }
  }

  lemma ReleasedOk(s: State, env: Env)
    requires Inv(s)
    ensures var r := Released(s, env);
            && Known(r) && !r.held.valid && r.running == s.running && r.cstate == s.cstate
            && (s.held.valid ==> r.pending == Nothing)
  {
  }

  lemma GivenUpOk(s: State, e: Event, env: Env)
    requires Inv(s) && s.running && (e.Stop? || e.ForgetSsid?)
    ensures Inv(Step(s, e, env))
  {
    ReleasedOk(s, env);
    if e.Stop? {
      FailedOk(Released(s, env));
    }
  }

  lemma StepKeepsInv(s: State, e: Event, env: Env)
    requires Inv(s) && Enabled(s, e)
    ensures Inv(Step(s, e, env))
  {
    match e
    case Start(recovered) => StartedUpOk(s, recovered, env.isPrivate);
    case TimerFires => TimerRunOk(s, env);
    case Receive(p) => ReceivedOk(s, p, env);
    case ArpDone(r, hw) => ArpFinishedOk(s, r, hw, env);
    case Collision(ip) => DeclineStartedOk(s, env);
    case LinkStatusChanged(renew) =>
      LinkCheckedOk(if env.link.networkChanged then AddressRemoved(s) else s, renew, env);
    case LinkTimerExpired => LinkLostOk(s);
    case Wake => WokenOk(s, env);
    case BssidChanged => if BoundRenewOrRebind(s.cstate) { RouterCheckStartedOk(s, env); }
    case _ => GivenUpOk(s, e, env);
  }

  datatype Happening = Happening(e: Event, env: Env)

  predicate CanRun(s: State, hs: seq<Happening>)
    decreases |hs|
  {
    hs == [] || (Enabled(s, hs[0].e) && CanRun(Step(s, hs[0].e, hs[0].env), hs[1..]))
  }

  function Run(s: State, hs: seq<Happening>): State
    requires CanRun(s, hs)
    decreases |hs|
  {
    if hs == [] then s else Run(Step(s, hs[0].e, hs[0].env), hs[1..])
  }

  lemma {:induction false} RunKeepsInv(s: State, hs: seq<Happening>)
    requires Inv(s) && CanRun(s, hs)
    ensures Inv(Run(s, hs))
    decreases |hs|
  {
    if hs != [] {
      StepKeepsInv(s, hs[0].e, hs[0].env);
      RunKeepsInv(Step(s, hs[0].e, hs[0].env), hs[1..]);
    }
  }

  /** Over every run: an address is configured only with a valid lease for that very address, and none
      while one is being sought; a router's answer finds the client in Init or Init-Reboot. */
  lemma {:induction false} ConfiguredOnlyWithItsLease(hs: seq<Happening>)
    requires CanRun(Initial(), hs)
    ensures var s := Run(Initial(), hs);
            && (s.activeIp != 0 ==> s.running && s.held.valid && s.activeIp == s.saved.ip && !Seeking(s.cstate))
            && (s.pending.arp == ArpRouter ==> s.cstate == Init || s.cstate == InitReboot)
  {
    RunKeepsInv(Initial(), hs);
  }

  // ---------------------------------------------------------------- renewal

  /** A lease that ends is to be renewed: Bound always sets the timer, and only then. */
  lemma BoundSetsRenewalIff(s: State, env: Env)
    requires s.pending.timer == None
    ensures BoundFinished(s, env).pending.timer == Some(RenewStart) <==> s.held.times.length != INFINITE
    ensures s.held.times.length != INFINITE ==> BoundFinished(s, env).renewTime == s.held.times.t1
  {
  }

  /** The search for the router's address keeps that timer exactly when it does not come back empty. */
  lemma ResolveKeepsRenewalIff(s: State, r: ArpResult, hw: nat)
    requires s.pending.timer == Some(RenewStart)
    ensures RouterResolved(s, r, hw).pending.timer == s.pending.timer <==> r != ArpNotInUse
  {
  }
}
