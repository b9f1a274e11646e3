/** The times of the DHCPv4 client's lease stay in order through every run. */
module Dhcp4ClientTimes {
  import opened Common
  import opened Dhcp4Lease
  import opened Dhcp4Client
  import opened Dhcp4ClientLaws

  /** Once a packet has been kept, the lease's times are in order. */
  predicate Timely(s: State) { s.saved.hasPacket ==> InOrder(s.held.times) }

  predicate TimesKept(s: State, q: State) {
    q.held.times == s.held.times && q.saved.hasPacket == s.saved.hasPacket
  }

  lemma UnboundKeepsTimes(s: State)
    ensures TimesKept(s, UnboundStarted(s))
  {
  }

  lemma DeclineKeepsTimes(s: State, env: Env)
    ensures TimesKept(s, DeclineStarted(s, env))
  {
  }

  lemma BoundFinishKeepsTimes(s: State, env: Env)
    ensures TimesKept(s, BoundFinished(s, env))
  {
  }

  lemma BoundKeepsTimes(s: State, env: Env)
    ensures TimesKept(s, BoundStarted(s, env))
  {
    BoundFinishKeepsTimes(Canceled(s.(cstate := Bound, ignoreCollisions := true)), env);
  }

  lemma InitNextKeepsTimes(s: State, env: Env)
    ensures TimesKept(s, InitNext(s, env))
  {
    if s.tries > env.cfg.maxRetries + 1 && s.router.AllValid() {
      BoundKeepsTimes(s, env);
    }
  }

  lemma InitTryKeepsTimes(s: State, env: Env)
    ensures TimesKept(s, InitTry(s, env))
  {
    var t := s.(tries := s.tries + 1);
    if !(t.tries > 1 && LinkDown(env.link)) {
      var a := if t.tries >= env.cfg.arpAtRetry + 1 && !t.router.AllValid() then RouterArpStarted(t, env) else t;
      assert TimesKept(s, a);
      InitNextKeepsTimes(a, env);
    }
  }

  lemma InitKeepsTimes(s: State, env: Env)
    ensures TimesKept(s, InitStarted(s, env))
  {
    InitTryKeepsTimes(InitReady(InitEntered(s)), env);
  }

  lemma SelectTryKeepsTimes(s: State, env: Env)
    ensures TimesKept(s, SelectTry(s, env))
  {
    InitKeepsTimes(s.(tries := s.tries + 1), env);
  }

  lemma SelectKeepsTimes(s: State, env: Env)
    ensures TimesKept(s, SelectStarted(s, env))
  {
    SelectTryKeepsTimes(Receiving(Canceled(s.(cstate := Select)).(tries := 0, gathering := false), OnSelect), env);
  }

  lemma RebootNextKeepsTimes(s: State, env: Env)
    ensures TimesKept(s, RebootNext(s, env))
  {
    InitKeepsTimes(AddressRemoved(s).(tries := s.tries - 1), env);
  }

  lemma RebootTryKeepsTimes(s: State, env: Env)
    ensures TimesKept(s, RebootTry(s, env))
  {
    RebootNextKeepsTimes(RouterArpStarted(s.(tries := s.tries + 1), env), env);
  }

  lemma RebootKeepsTimes(s: State, env: Env)
    ensures TimesKept(s, RebootStarted(s, env))
  {
    RebootTryKeepsTimes(RebootReady(RebootEntered(s)), env);
  }

  lemma PacketSavedTimely(s: State, p: Packet, rating: nat, server: nat, now: real)
    ensures Timely(PacketSaved(s, p, rating, server, now))
  {
    AlwaysNormal(p.options.lease, p.options.t1, p.options.t2);
  }

  lemma SwitchedTimely(s: State, l: Stored, isPrivate: bool, loading: bool)
    requires Timely(s)
    ensures Timely(Switched(s, l, isPrivate, loading))
  {
    AlwaysNormal(l.options.lease, l.options.t1, l.options.t2);
  }

  lemma RenewTryTimely(s: State, env: Env)
    requires Timely(s)
    ensures Timely(RenewTry(s, env))
  {
    var c := ClockCorrected(s, env);
    assert Timely(c);
    UnboundKeepsTimes(c);
    assert TimesKept(c, RenewChosen(c, env));
  }

  lemma RenewTimely(s: State, env: Env)
    requires Timely(s)
    ensures Timely(RenewStarted(s, env))
  {
    RenewTryTimely(Receiving(RenewEntered(s).(tries := 0), OnRenewRebind), env);
  }

  lemma NetworkSwitchedTimely(s: State, env: Env)
    requires Timely(s)
    ensures Timely(NetworkSwitched(s, env))
  {
    if env.wifiLease.Some? {
      SwitchedTimely(s, env.wifiLease.value, env.isPrivate, false);
    }
  }

  lemma NetworkCheckedTimely(s: State, env: Env)
    requires Timely(s)
    ensures Timely(NetworkChecked(s, env))
  {
    if NetworkChanged(s, env) {
      NetworkSwitchedTimely(s, env);
    } else {
      assert TimesKept(s, MacChecked(s, env));
    }
  }

  lemma RestartedKeepsTimes(s: State, renew: bool, env: Env)
    ensures TimesKept(s, Restarted(s, renew, env))
  {
    if s.held.valid {
      RebootKeepsTimes(s, env);
    } else {
      InitKeepsTimes(s, env);
    }
  }

  lemma LinkCheckedTimely(s: State, renew: bool, env: Env)
    requires Timely(s)
    ensures Timely(LinkChecked(s, renew, env))
  {
    if !WaitsForLink(env) {
      var n := NetworkChecked(s, env);
      NetworkCheckedTimely(s, env);
      assert TimesKept(n, LeaseChecked(n, env.now));
      RestartedKeepsTimes(LeaseChecked(n, env.now), renew, env);
    }
  }

  lemma WakeMaintainedTimely(s: State, env: Env)
    requires Timely(s)
    ensures Timely(WakeMaintained(s, env))
  {
    RenewTimely(s, env);
  }

  lemma WokenTimely(s: State, env: Env)
    requires Timely(s)
    ensures Timely(Woken(s, env))
  {
    if WakeLosesAddress(env) {
      LinkCheckedTimely(AddressRemoved(s), false, env);
    } else {
      var c := LeaseChecked(s, env.now);
      assert TimesKept(s, c);
      if !c.held.valid {
        InitKeepsTimes(c, env);
      } else if !BoundRenewOrRebind(c.cstate) || !env.published || c.resolveTimedOut {
        RebootKeepsTimes(c, env);
      } else {
        var q := if env.link.bssidChanged then RouterCheckStarted(c, env) else c;
        assert TimesKept(s, q);
        WakeMaintainedTimely(q, env);
      }
    }
  }

  lemma InitReceivedTimely(s: State, p: Packet, env: Env)
    requires Timely(s)
    ensures Timely(InitReceived(s, p, env))
  {
    PacketSavedTimely(RouterCleared(s), p, p.rating, p.server, env.now);
    SelectKeepsTimes(PacketSaved(RouterCleared(s), p, p.rating, p.server, env.now), env);
  }

  lemma SelectReceivedTimely(s: State, p: Packet, env: Env)
    requires Timely(s)
    ensures Timely(SelectReceived(s, p, env))
  {
    var server := if p.server != 0 then p.server else s.saved.server;
    PacketSavedTimely(s, p, 0, server, env.now);
    BoundKeepsTimes(PacketSaved(s, p, 0, server, env.now), env);
  }

  lemma RebootReceivedTimely(s: State, p: Packet, env: Env)
    requires Timely(s)
    ensures Timely(RebootReceived(s, p, env))
  {
    if p.kind == Nak {
      UnboundKeepsTimes(s);
    } else {
      PacketSavedTimely(RouterCleared(s), p, p.rating, p.server, env.now);
      BoundKeepsTimes(PacketSaved(RouterCleared(s), p, p.rating, p.server, env.now), env);
    }
  }

  lemma RenewReceivedTimely(s: State, p: Packet, env: Env)
    requires Timely(s)
    ensures Timely(RenewReceived(s, p, env))
  {
    if p.kind == Nak || p.yiaddr != s.saved.ip {
      UnboundKeepsTimes(s);
    } else {
      PacketSavedTimely(s, p, 0, p.server, env.now);
      BoundKeepsTimes(PacketSaved(s, p, 0, p.server, env.now), env);
    }
  }

  lemma ReceivedTimely(s: State, p: Packet, env: Env)
    requires Timely(s) && s.pending.receive.Some?
    ensures Timely(Received(s, p, env))
  {
    match s.pending.receive.value
    case OnInit => InitReceivedTimely(s, p, env);
    case OnInitReboot => RebootReceivedTimely(s, p, env);
    case OnSelect => SelectReceivedTimely(s, p, env);
    case OnRenewRebind => RenewReceivedTimely(s, p, env);
  }

  lemma RouterArpDoneTimely(s: State, r: ArpResult, env: Env)
    requires Timely(s)
    ensures Timely(RouterArpDone(s, r, env))
  {
    UnboundKeepsTimes(s);
    if env.routerLease.Some? {
      SwitchedTimely(s, env.routerLease.value, env.isPrivate, false);
    }
  }

  lemma BoundArpDoneTimely(s: State, r: ArpResult, env: Env)
    requires Timely(s)
    ensures Timely(BoundArpDone(s, r, env))
  {
    match r
    case ArpError =>
    case ArpInUse => DeclineKeepsTimes(RouterCleared(Invalidated(s)), env);
    case ArpNotInUse => BoundFinishKeepsTimes(Canceled(s), env);
  }

  lemma CheckRouterDoneTimely(s: State, r: ArpResult, env: Env)
    requires Timely(s)
    ensures Timely(CheckRouterDone(s, r, env))
  {
    if r != ArpInUse {
      LinkCheckedTimely(s, false, env);
    } else {
      RenewTimely(s, env);
    }
  }

  lemma ArpFinishedTimely(s: State, r: ArpResult, hw: nat, env: Env)
    requires Timely(s)
    ensures Timely(ArpFinished(s, r, hw, env))
  {
    var q := ArpStarted(s, NoArp);
    match s.pending.arp
    case NoArp =>
    case ArpRouter => RouterArpDoneTimely(q, r, env);
    case ArpBound => BoundArpDoneTimely(q, r, env);
    case ArpCheckRouter => CheckRouterDoneTimely(q, r, env);
    case ArpResolve =>
  }

  lemma TimerRunTimely(s: State, env: Env)
    requires Timely(s) && s.pending.timer.Some?
    ensures Timely(TimerRun(s, env))
  {
    var q := s.(pending := s.pending.(timer := None));
    match s.pending.timer.value
    case DelayedStart => LinkCheckedTimely(q, false, env);
    case InitStart => InitKeepsTimes(q, env);
    case InitTimeout => if q.gathering { SelectKeepsTimes(q, env); } else { InitTryKeepsTimes(q, env); }
    case RebootTimeout => if q.gathering { BoundKeepsTimes(q, env); } else { RebootTryKeepsTimes(q, env); }
    case SelectTimeout => SelectTryKeepsTimes(q, env);
    case RenewStart => RenewTimely(q, env);
    case RenewTimeout => RenewTryTimely(q, env);
    case CheckLink => LinkCheckedTimely(q, false, env);
    case WaitTimeout => LinkCheckedTimely(q, false, env);
    case ResolveRetry =>
  }

  lemma StepKeepsTimely(s: State, e: Event, env: Env)
    requires Timely(s) && Enabled(s, e)
    ensures Timely(Step(s, e, env))
  {
    match e
    case Start(recovered) =>
      if recovered.Some? { SwitchedTimely(Fresh(s.activeIp).(router := s.router.Cleared()), recovered.value, env.isPrivate, true); }
    case TimerFires => TimerRunTimely(s, env);
    case Receive(p) => ReceivedTimely(s, p, env);
    case ArpDone(r, hw) => ArpFinishedTimely(s, r, hw, env);
    case Collision(ip) => DeclineKeepsTimes(s, env);
    case LinkStatusChanged(renew) =>
      LinkCheckedTimely(if env.link.networkChanged then AddressRemoved(s) else s, renew, env);
    case Wake => WokenTimely(s, env);
    case _ =>
  }

  /** Over every run, with clock jumps, switched leases and replies of any kind: start < T1 <= T2 < end. */
  lemma {:induction false} ReachableTimely(s: State, hs: seq<Happening>)
    requires Timely(s) && CanRun(s, hs)
    ensures Timely(Run(s, hs))
    decreases |hs|
  {
    if hs != [] {
      StepKeepsTimely(s, hs[0].e, hs[0].env);
      ReachableTimely(Step(s, hs[0].e, hs[0].env), hs[1..]);
    }
  }

  // ---------------------------------------------------------------- a valid lease has a packet

  /** Before the first packet is kept there is nothing to be valid, in use, or known about a router. */
  predicate Bare(s: State) {
    !s.saved.hasPacket ==>
      && s.saved.ip == 0 && !s.held.valid && !s.router.ipValid && !s.gathering
      && (s.cstate == Inactive || s.cstate == Init || s.cstate == Declined || s.cstate == Unbound)
  }

  lemma UnboundBare(s: State)
    requires Bare(s)
    ensures Bare(UnboundStarted(s))
  {
  }

  lemma DeclineBare(s: State, env: Env)
    requires Bare(s)
    ensures Bare(DeclineStarted(s, env))
  {
  }

  lemma InitNextBare(s: State, env: Env)
    requires Bare(s)
    ensures Bare(InitNext(s, env))
  {
    BoundKeepsTimes(s, env);
  }

  lemma InitTryBare(s: State, env: Env)
    requires Bare(s)
    ensures Bare(InitTry(s, env))
  {
    var t := s.(tries := s.tries + 1);
    if !(t.tries > 1 && LinkDown(env.link)) {
      var a := if t.tries >= env.cfg.arpAtRetry + 1 && !t.router.AllValid() then RouterArpStarted(t, env) else t;
      assert Bare(a);
      InitNextBare(a, env);
    }
  }

  lemma InitBare(s: State, env: Env)
    requires Bare(s)
    ensures Bare(InitStarted(s, env))
  {
    InitTryBare(InitReady(InitEntered(s)), env);
  }

  lemma RestartedBare(s: State, renew: bool, env: Env)
    requires Bare(s)
    ensures Bare(Restarted(s, renew, env))
  {
    if s.held.valid {
      RebootKeepsTimes(s, env);
    } else {
      InitBare(s, env);
    }
  }

  lemma SwitchedBare(s: State, l: Stored, isPrivate: bool, loading: bool)
    requires Bare(s)
    ensures Bare(Switched(s, l, isPrivate, loading)) && Switched(s, l, isPrivate, loading).saved.hasPacket
  {
  }

  lemma NetworkCheckedBare(s: State, env: Env)
    requires Bare(s)
    ensures Bare(NetworkChecked(s, env))
  {
    if NetworkChanged(s, env) && env.wifiLease.Some? {
      SwitchedBare(s, env.wifiLease.value, env.isPrivate, false);
    }
  }

  lemma LinkCheckedBare(s: State, renew: bool, env: Env)
    requires Bare(s)
    ensures Bare(LinkChecked(s, renew, env))
  {
    if !WaitsForLink(env) {
      NetworkCheckedBare(s, env);
      var n := NetworkChecked(s, env);
      assert Bare(LeaseChecked(n, env.now));
      RestartedBare(LeaseChecked(n, env.now), renew, env);
    }
  }

  lemma RenewTryKeepsPacket(s: State, env: Env)
    ensures RenewTry(s, env).saved.hasPacket == s.saved.hasPacket
  {
    var c := ClockCorrected(s, env);
    assert c.saved == s.saved;
    UnboundKeepsTimes(c);
  }

  lemma RenewKeepsPacket(s: State, env: Env)
    ensures RenewStarted(s, env).saved.hasPacket == s.saved.hasPacket
  {
    if !env.buildFails {
      RenewTryKeepsPacket(Receiving(RenewEntered(s).(tries := 0), OnRenewRebind), env);
    }
  }

  lemma WakeMaintainedKeepsPacket(s: State, env: Env)
    ensures WakeMaintained(s, env).saved.hasPacket == s.saved.hasPacket
  {
    RenewKeepsPacket(s, env);
  }

  /** A lease that is still there on waking has a packet, and nothing done for it throws the packet away. */
  lemma MaintainedOnWakeBare(c: State, env: Env)
    requires c.saved.hasPacket
    ensures Bare(WakeMaintained(if env.link.bssidChanged then RouterCheckStarted(c, env) else c, env))
  {
    var q := if env.link.bssidChanged then RouterCheckStarted(c, env) else c;
    assert q.saved == c.saved;
    WakeMaintainedKeepsPacket(q, env);
  }

  lemma WokenBare(s: State, env: Env)
    requires Bare(s)
    ensures Bare(Woken(s, env))
  {
    if WakeLosesAddress(env) {
      LinkCheckedBare(AddressRemoved(s), false, env);
    } else {
      var c := LeaseChecked(s, env.now);
      assert Bare(c);
      if !c.held.valid {
        InitBare(c, env);
      } else if !BoundRenewOrRebind(c.cstate) || !env.published || c.resolveTimedOut {
        RebootKeepsTimes(c, env);
      } else if env.link.bssidChanged && ResolveStarts(c, env) {
        assert RouterCheckStarted(c, env).saved == c.saved;
      } else {
        MaintainedOnWakeBare(c, env);
      }
    }
  }

  lemma InitReceivedBare(s: State, p: Packet, env: Env)
    requires Bare(s)
    ensures Bare(InitReceived(s, p, env))
  {
    SelectKeepsTimes(PacketSaved(RouterCleared(s), p, p.rating, p.server, env.now), env);
  }

  lemma SelectReceivedBare(s: State, p: Packet, env: Env)
    requires s.saved.hasPacket
    ensures Bare(SelectReceived(s, p, env))
  {
    BoundKeepsTimes(PacketSaved(s, p, 0, if p.server != 0 then p.server else s.saved.server, env.now), env);
  }

  lemma RebootReceivedBare(s: State, p: Packet, env: Env)
    requires s.saved.hasPacket
    ensures Bare(RebootReceived(s, p, env))
  {
    UnboundKeepsTimes(s);
    BoundKeepsTimes(PacketSaved(RouterCleared(s), p, p.rating, p.server, env.now), env);
  }

  lemma RenewReceivedBare(s: State, p: Packet, env: Env)
    requires s.saved.hasPacket
    ensures Bare(RenewReceived(s, p, env))
  {
    UnboundKeepsTimes(s);
    BoundKeepsTimes(PacketSaved(s, p, 0, p.server, env.now), env);
  }

  lemma ReceivedBare(s: State, p: Packet, env: Env)
    requires Inv(s) && Bare(s) && s.pending.receive.Some?
    ensures Bare(Received(s, p, env))
  {
    match s.pending.receive.value
    case OnInit => InitReceivedBare(s, p, env);
    case OnInitReboot => RebootReceivedBare(s, p, env);
    case OnSelect => SelectReceivedBare(s, p, env);
    case OnRenewRebind => RenewReceivedBare(s, p, env);
  }

  lemma RouterArpDoneBare(s: State, r: ArpResult, env: Env)
    requires Bare(s)
    ensures Bare(RouterArpDone(s, r, env))
  {
    UnboundBare(s);
    if env.routerLease.Some? {
      SwitchedBare(s, env.routerLease.value, env.isPrivate, false);
    }
  }

  lemma BoundArpDoneBare(s: State, r: ArpResult, env: Env)
    requires s.saved.hasPacket
    ensures Bare(BoundArpDone(s, r, env))
  {
    DeclineKeepsTimes(RouterCleared(Invalidated(s)), env);
    BoundFinishKeepsTimes(Canceled(s), env);
  }

  lemma CheckRouterDoneBare(s: State, r: ArpResult, env: Env)
    requires Bare(s) && s.saved.hasPacket
    ensures Bare(CheckRouterDone(s, r, env))
  {
    if r != ArpInUse {
      LinkCheckedBare(s, false, env);
    } else {
      RenewKeepsPacket(s, env);
    }
  }

  lemma ArpFinishedBare(s: State, r: ArpResult, hw: nat, env: Env)
    requires Inv(s) && Bare(s)
    ensures Bare(ArpFinished(s, r, hw, env))
  {
    var q := ArpStarted(s, NoArp);
    match s.pending.arp
    case NoArp =>
    case ArpRouter => RouterArpDoneBare(q, r, env);
    case ArpBound => BoundArpDoneBare(q, r, env);
    case ArpCheckRouter => CheckRouterDoneBare(q, r, env);
    case ArpResolve =>
  }

  lemma TimerRunBare(s: State, env: Env)
    requires Inv(s) && Bare(s) && s.pending.timer.Some?
    ensures Bare(TimerRun(s, env))
  {
    var q := s.(pending := s.pending.(timer := None));
    match s.pending.timer.value
    case DelayedStart => LinkCheckedBare(q, false, env);
    case InitStart => InitBare(q, env);
    case InitTimeout => if q.gathering { SelectKeepsTimes(q, env); } else { InitTryBare(q, env); }
    case RebootTimeout => if q.gathering { BoundKeepsTimes(q, env); } else { RebootTryKeepsTimes(q, env); }
    case SelectTimeout => SelectTryKeepsTimes(q, env);
    case RenewStart => RenewKeepsPacket(q, env);
    case RenewTimeout => RenewTryKeepsPacket(q, env);
    case CheckLink => LinkCheckedBare(q, false, env);
    case WaitTimeout => LinkCheckedBare(q, false, env);
    case ResolveRetry =>
  }

  lemma StepKeepsBare(s: State, e: Event, env: Env)
    requires Inv(s) && (s.running ==> Bare(s)) && Enabled(s, e)
    ensures Step(s, e, env).running ==> Bare(Step(s, e, env))
  {
    match e
    case Start(recovered) =>
      if recovered.Some? { SwitchedBare(Fresh(s.activeIp).(router := s.router.Cleared()), recovered.value, env.isPrivate, true); }
    case Stop =>
    case TimerFires => TimerRunBare(s, env);
    case Receive(p) => ReceivedBare(s, p, env);
    case ArpDone(r, hw) => ArpFinishedBare(s, r, hw, env);
    case Collision(ip) => DeclineBare(s, env);
    case LinkStatusChanged(renew) =>
      LinkCheckedBare(if env.link.networkChanged then AddressRemoved(s) else s, renew, env);
    case LinkTimerExpired =>
    case Wake => WokenBare(s, env);
    case BssidChanged =>
    case ForgetSsid(ssid) =>
  }

  lemma {:induction false} RunKeepsBare(s: State, hs: seq<Happening>)
    requires Inv(s) && (s.running ==> Bare(s)) && CanRun(s, hs)
    ensures Run(s, hs).running ==> Bare(Run(s, hs))
    decreases |hs|
  {
    if hs != [] {
      StepKeepsInv(s, hs[0].e, hs[0].env);
      StepKeepsBare(s, hs[0].e, hs[0].env);
      RunKeepsBare(Step(s, hs[0].e, hs[0].env), hs[1..]);
    }
  }

  /** Over every run from the start, whatever servers send and however the clock jumps: a valid lease that
      ends has its times in order, and so has every configured one. */
  lemma {:induction false} ValidLeasesInOrder(hs: seq<Happening>)
    requires CanRun(Initial(), hs)
    ensures var s := Run(Initial(), hs);
            s.running && (s.held.valid || s.activeIp != 0) ==> InOrder(s.held.times)
  {
    RunKeepsBare(Initial(), hs);
    ReachableTimely(Initial(), hs);
    RunKeepsInv(Initial(), hs);
  }
}
