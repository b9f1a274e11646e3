/** The DHCPv4 client as it runs: handlers that update its fields, proved against `Dhcp4Client`. */
module Dhcp4Machine {
  import opened Common
  import opened Dhcp4Lease
  import opened Dhcp4Client
  import opened Dhcp4ClientLaws

  class Client {
    var running: bool
    var cstate: CState
    var tries: int
    var gathering: bool
    var gotNak: bool
    var held: Held
    var saved: Saved
    var activeIp: nat
    var router: Router
    var pending: Pending
    var renewTime: real
    var resolveTimedOut: bool
    var ignoreCollisions: bool

    function View(): State
      reads this
    {
      State(running, cstate, tries, gathering, gotNak, held, saved, activeIp, router, pending, renewTime,
            resolveTimedOut, ignoreCollisions)
    }

    constructor ()
      ensures View() == Initial()
    {
      running, cstate, tries, gathering, gotNak := false, Inactive, 0, false, false;
      held, saved, activeIp, router, pending := NoLease, Saved(0, 0, 0, false, false), 0, NoRouter, Nothing;
      renewTime, resolveTimedOut, ignoreCollisions := 0.0, false, false;
    }

    // -------------------------------------------------------------- small steps

    method CancelPendingEvents()
      modifies this`pending
      ensures View() == Canceled(old(View()))
    {
      pending := pending.(timer := None);
      pending := pending.(receive := None);
      pending := pending.(arp := NoArp);
    }

    method SetTimer(t: TimerKind)
      modifies this`pending
      ensures View() == TimerSet(old(View()), t)
    {
      pending := pending.(timer := Some(t));
    }

    method InvalidateLease()
      modifies this`held
      ensures View() == Invalidated(old(View()))
    {
      held := held.(valid := false);
      held := held.(ssid := None);
      held := held.(networkId := None);
    }

    method ClearRouter()
      modifies this`router
      ensures View() == RouterCleared(old(View()))
    {
      router := router.(ipValid := false, hwValid := false, verified := false);
    }

    method Fail()
      modifies this`pending, this`activeIp, this`cstate
      ensures View() == Failed(old(View()))
    {
      CancelPendingEvents();
      activeIp := 0;
      cstate := Inactive;
    }

    method BecomeInactive()
      modifies this`pending, this`activeIp, this`cstate
      ensures View() == LinkLost(old(View()))
    {
      CancelPendingEvents();
      activeIp := 0;
      cstate := Inactive;
    }

    method WaitStart()
      modifies this`pending, this`activeIp, this`cstate
      ensures View() == WaitStarted(old(View()))
    {
      Fail();
      SetTimer(WaitTimeout);
    }

    /** Clears an expired lease; tells whether a lease is left. */
    method CheckLease(now: real) returns (valid: bool)
      modifies this`held, this`router, this`activeIp
      ensures View() == LeaseChecked(old(View()), now) && valid == held.valid
    {
      if held.valid {
        if held.times.length != INFINITE && now >= held.times.expiration {
          InvalidateLease();
          ClearRouter();
          activeIp := 0;
        }
      }
      valid := held.valid;
    }

    method SwitchToLease(l: Stored, isPrivate: bool, loading: bool) returns (switched: bool)
      modifies this
      ensures View() == Switched(old(View()), l, isPrivate, loading)
      ensures switched == !SameLease(old(View()), l, isPrivate)
    {
      if l.ip == saved.ip {
        if !isPrivate {
          return false;
        }
        if router.ipValid && router.hwValid && l.routerIp == router.ip && l.routerHw == Some(router.hw) {
          return false;
        }
      }
      activeIp := 0;
      var lease, t1, t2 := LeaseClock.GetLeaseFromOptions(l.options.lease, l.options.t1, l.options.t2);
      held := Held(true, WithSpans(l.start, Spans(lease, t1, t2)), l.ssid, l.networkId,
                   if loading then l.mac else None);
      saved := Saved(l.ip, l.server, 0, true, true);
      ClearRouter();
      if l.routerIp != 0 {
        router := router.(ip := l.routerIp, ipValid := true);
        if l.routerHw.Some? {
          router := router.(hw := l.routerHw.value, hwValid := true);
        }
      }
      switched := true;
    }

    method KeepPacket(p: Packet, rating: nat, server: nat, now: real)
      modifies this`saved, this`held
      ensures View() == PacketSaved(old(View()), p, rating, server, now)
    {
      var lease, t1, t2 := LeaseClock.GetLeaseFromOptions(p.options.lease, p.options.t1, p.options.t2);
      saved := Saved(p.yiaddr, server, rating, true, p.kind == Ack);
      held := held.(times := WithSpans(now, Spans(lease, t1, t2)));
    }

    // -------------------------------------------------------------- the router

    method ArpRouterStart(env: Env)
      modifies this`pending
      ensures View() == RouterArpStarted(old(View()), env)
    {
      if !env.cfg.routerArp || router.verified {
        return;
      }
      if env.wireless && env.ssid.None? {
        return;
      }
      if env.leasesToTry {
        pending := pending.(arp := ArpRouter);
      }
    }

    method UpdateRouter(env: Env) returns (changed: bool)
      modifies this`router
      ensures View() == RouterUpdated(old(View()), env)
      ensures changed == (env.routerOption.Some? && !RouterKept(old(View()), env))
    {
      if env.routerOption.None? {
        ClearRouter();
        return false;
      }
      if router.AllValid() && env.routerOption.value == router.ip {
        return false;
      }
      ClearRouter();
      router := router.(ip := env.routerOption.value, ipValid := true);
      changed := true;
    }

    method ResolveRouter(env: Env)
      modifies this`router, this`pending
      ensures View() == RouterResolving(old(View()), env)
    {
      if !env.cfg.discoverRouter {
        return;
      }
      router := router.(verified := false);
      if router.ipValid {
        pending := pending.(arp := ArpResolve);
      }
    }

    method ResolveRouterDone(r: ArpResult, hw: nat)
      modifies this`router, this`pending, this`resolveTimedOut
      ensures View() == RouterResolved(old(View()), r, hw)
    {
      match r
      case ArpError =>
      case ArpInUse => router := router.(hw := hw, ipValid := true, hwValid := true, verified := true);
      case ArpNotInUse =>
        SetTimer(ResolveRetry);
        resolveTimedOut := true;
    }

    // -------------------------------------------------------------- Bound, Decline, Unbound

    method BoundStart(env: Env)
      modifies this
      ensures View() == BoundStarted(old(View()), env)
    {
      var previous := cstate;
      cstate := Bound;
      ignoreCollisions := true;
      CancelPendingEvents();
      if previous == Rebinding || previous == Renewing {
        BoundFinish(env);
        return;
      }
      if !env.isolated && previous == Select {
        pending := pending.(arp := ArpBound);
        return;
      }
      if activeIp == saved.ip {
        if previous == InitReboot || previous == Init {
          pending := pending.(arp := ArpBound);
          return;
        }
      }
      BoundFinish(env);
    }

    method BoundFinish(env: Env)
      modifies this
      ensures View() == BoundFinished(old(View()), env)
    {
      held := held.(valid := true, ssid := env.ssid, networkId := env.networkId);
      if saved.ip != activeIp {
        activeIp := saved.ip;
      }
      ignoreCollisions := false;
      var doArp := true;
      if held.times.length != INFINITE {
        if held.times.t1 < env.now {
          doArp := false;
        }
        renewTime := held.times.t1;
        SetTimer(RenewStart);
      }
      resolveTimedOut := false;
      if doArp {
        var changed := UpdateRouter(env);
        if changed {
          ResolveRouter(env);
        }
      }
    }

    method BoundArp(r: ArpResult, env: Env)
      modifies this
      ensures View() == BoundArpDone(old(View()), r, env)
    {
      match r
      case ArpError => Fail();
      case ArpInUse =>
        InvalidateLease();
        ClearRouter();
        DeclineStart(env);
      case ArpNotInUse =>
        CancelPendingEvents();
        BoundFinish(env);
    }

    method DeclineStart(env: Env)
      modifies this`cstate, this`pending, this`activeIp, this`saved, this`held, this`router
      ensures View() == DeclineStarted(old(View()), env)
    {
      cstate := Declined;
      CancelPendingEvents();
      if env.buildFails {
        Fail();
        return;
      }
      DropLease();
      saved := saved.(ip := 0);
      SetTimer(InitStart);
    }

    method UnboundStart()
      modifies this`cstate, this`pending, this`activeIp, this`saved, this`held, this`gotNak, this`router
      ensures View() == UnboundStarted(old(View()))
    {
      cstate := Unbound;
      CancelPendingEvents();
      DropLease();
      saved, gotNak := saved.(ip := 0), false;
      SetTimer(InitStart);
    }

    // -------------------------------------------------------------- Init and Select

    method InitAttempt(env: Env)
      modifies this
      ensures View() == InitTry(old(View()), env)
    {
      tries := tries + 1;
      if tries > 1 && env.link.valid && !env.link.active {
        BecomeInactive();
        return;
      }
      if tries >= env.cfg.arpAtRetry + 1 && !router.AllValid() {
        ArpRouterStart(env);
      }
      InitProceed(env);
    }

    method InitProceed(env: Env)
      modifies this
      ensures View() == InitNext(old(View()), env)
    {
      if tries > env.cfg.maxRetries + 1 {
        if router.AllValid() {
          BoundStart(env);
          return;
        }
        CancelPendingEvents();
        SetTimer(InitStart);
        return;
      }
      SetTimer(InitTimeout);
    }

    method InitEnter()
      modifies this`held, this`cstate, this`resolveTimedOut, this`pending
      ensures View() == InitEntered(old(View()))
    {
      held := held.(mac := None);
      cstate := Init;
      resolveTimedOut := false;
      CancelPendingEvents();
    }

    method InitPrepare()
      modifies this`tries, this`gathering, this`gotNak, this`saved, this`pending
      ensures View() == InitReady(old(View()))
    {
      tries, gathering, gotNak := 0, false, false;
      saved := saved.(rating := 0);
      pending := pending.(receive := Some(OnInit));
    }

    method InitBegin(env: Env)
      modifies this
      ensures View() == InitStarted(old(View()), env)
    {
      InitEnter();
      if env.buildFails {
        Fail();
        return;
      }
      InitPrepare();
      InitAttempt(env);
    }

    method InitTimerExpires(env: Env)
      modifies this
      ensures View() == InitTimedOut(old(View()), env)
    {
      if gathering {
        SelectBegin(env);
      } else {
        InitAttempt(env);
      }
    }

    method InitData(p: Packet, env: Env)
      modifies this
      ensures View() == InitReceived(old(View()), p, env)
    {
      if p.server == 0 || p.kind != Offer {
        return;
      }
      if p.wait && !gathering {
        WaitStart();
        return;
      }
      if p.usable {
        if !saved.hasPacket || p.rating > saved.rating {
          ClearRouter();
          KeepPacket(p, p.rating, p.server, env.now);
          if p.ideal || env.isolated {
            SelectBegin(env);
            return;
          }
          if !gathering {
            gathering := true;
            SetTimer(InitTimeout);
          }
        }
      }
    }

    method SelectAttempt(env: Env)
      modifies this
      ensures View() == SelectTry(old(View()), env)
    {
      tries := tries + 1;
      if tries > env.cfg.selectRetries + 1 {
        InitBegin(env);
        return;
      }
      SetTimer(SelectTimeout);
    }

    method SelectBegin(env: Env)
      modifies this
      ensures View() == SelectStarted(old(View()), env)
    {
      cstate := Select;
      CancelPendingEvents();
      if env.buildFails {
        Fail();
        return;
      }
      tries := 0;
      gathering := false;
      pending := pending.(receive := Some(OnSelect));
      SelectAttempt(env);
    }

    method SelectData(p: Packet, env: Env)
      modifies this
      ensures View() == SelectReceived(old(View()), p, env)
    {
      if p.kind == Nak {
        if p.server == 0 || p.server != saved.server {
          return;
        }
        CancelPendingEvents();
        SetTimer(InitStart);
        return;
      }
      if p.kind != Ack || !p.usable {
        return;
      }
      KeepPacket(p, 0, if p.server != 0 then p.server else saved.server, env.now);
      BoundStart(env);
    }

    // -------------------------------------------------------------- Init-Reboot

    method RebootAttempt(env: Env)
      modifies this
      ensures View() == RebootTry(old(View()), env)
    {
      tries := tries + 1;
      if tries > 1 && env.link.valid && !env.link.active {
        BecomeInactive();
        return;
      }
      ArpRouterStart(env);
      RebootProceed(env);
    }

    method RebootProceed(env: Env)
      modifies this
      ensures View() == RebootNext(old(View()), env)
    {
      if tries > env.cfg.rebootRetries + 1 {
        activeIp := 0;
        tries := tries - 1;
        InitBegin(env);
        return;
      }
      SetTimer(RebootTimeout);
    }

    method RebootEnter()
      modifies this`held, this`cstate, this`resolveTimedOut, this`tries, this`pending
      ensures View() == RebootEntered(old(View()))
    {
      held := held.(mac := None);
      cstate := InitReboot;
      resolveTimedOut := false;
      tries := 0;
      CancelPendingEvents();
    }

    method RebootPrepare()
      modifies this`gathering, this`gotNak, this`saved, this`pending
      ensures View() == RebootReady(old(View()))
    {
      gotNak, gathering := false, false;
      saved := saved.(rating := 0);
      pending := pending.(receive := Some(OnInitReboot));
    }

    method RebootBegin(env: Env)
      modifies this
      ensures View() == RebootStarted(old(View()), env)
    {
      RebootEnter();
      if env.buildFails {
        Fail();
        return;
      }
      RebootPrepare();
      RebootAttempt(env);
    }

    method RebootTimerExpires(env: Env)
      modifies this
      ensures View() == RebootTimedOut(old(View()), env)
    {
      if gathering {
        BoundStart(env);
      } else {
        RebootAttempt(env);
      }
    }

    method RebootData(p: Packet, env: Env)
      modifies this
      ensures View() == RebootReceived(old(View()), p, env)
    {
      if p.kind == Nak {
        if pending.arp != NoArp {
          gotNak := true;
        } else {
          UnboundStart();
          return;
        }
      }
      if p.server == 0 || p.kind != Ack {
        return;
      }
      if p.wait && !gathering {
        WaitStart();
        return;
      }
      if p.yiaddr == saved.ip {
        if !saved.hasPacket || p.rating > saved.rating {
          ClearRouter();
          KeepPacket(p, p.rating, p.server, env.now);
          if env.isolated {
            BoundStart(env);
            return;
          }
          if !gathering {
            gathering := true;
            SetTimer(RebootTimeout);
          }
        }
      }
    }

    method ArpRouterResult(r: ArpResult, env: Env)
      modifies this
      ensures View() == RouterArpDone(old(View()), r, env)
    {
      if r != ArpInUse || env.routerLease.None? {
        if gotNak {
          UnboundStart();
        }
        return;
      }
      var l := env.routerLease.value;
      if cstate == Init {
        if gathering {
          return;
        }
        var switched := SwitchToLease(l, env.isPrivate, false);
        router := router.Verified();
        return;
      }
      if cstate != InitReboot {
        return;
      }
      if gathering {
        if l.ip != saved.ip || !env.sameRouterOption {
          return;
        }
      } else {
        var switched := SwitchToLease(l, env.isPrivate, false);
        if switched {
          tries := 0;
        } else if gotNak {
          UnboundStart();
          return;
        }
      }
      router := router.Verified();
      activeIp := saved.ip;
    }

    // -------------------------------------------------------------- Renew and Rebind

    method CorrectClock(env: Env)
      modifies this`held
      ensures View() == ClockCorrected(old(View()), env)
    {
      if env.jumped {
        var moved := LeaseClock.MoveLease(held.times, env.now - renewTime);
        held := held.(times := moved);
      }
    }

    method ChooseRenewal(env: Env)
      modifies this`cstate, this`pending, this`activeIp, this`saved, this`held, this`gotNak, this`router, this`renewTime
      ensures View() == RenewChosen(old(View()), env)
    {
      if env.now >= held.times.expiration {
        UnboundStart();
        return;
      }
      var wait;
      if env.now < held.times.t2 {
        cstate := Renewing;
        renewTime, wait := LeaseClock.HalfTime(env.now, held.times.t2);
      } else {
        cstate := Rebinding;
        renewTime, wait := LeaseClock.HalfTime(env.now, held.times.expiration);
      }
      SetTimer(RenewTimeout);
    }

    method RenewAttempt(env: Env)
      modifies this`cstate, this`pending, this`activeIp, this`saved, this`held, this`gotNak, this`router, this`renewTime
      ensures View() == RenewTry(old(View()), env)
    {
      CorrectClock(env);
      ChooseRenewal(env);
    }

    method RenewBegin(env: Env)
      modifies this
      ensures View() == RenewStarted(old(View()), env)
    {
      CancelPendingEvents();
      cstate := Renewing;
      if env.buildFails {
        Fail();
        return;
      }
      tries := 0;
      pending := pending.(receive := Some(OnRenewRebind));
      RenewAttempt(env);
    }

    method RenewData(p: Packet, env: Env)
      modifies this
      ensures View() == RenewReceived(old(View()), p, env)
    {
      if p.kind == Nak {
        UnboundStart();
        return;
      }
      if p.kind != Ack || p.server == 0 || !p.usable {
        return;
      }
      if p.yiaddr != saved.ip {
        UnboundStart();
        return;
      }
      KeepPacket(p, 0, p.server, env.now);
      BoundStart(env);
    }

    method CheckRouterResult(r: ArpResult, env: Env)
      modifies this
      ensures View() == CheckRouterDone(old(View()), r, env)
    {
      if r != ArpInUse {
        CheckLinkStatus(false, env);
        return;
      }
      if held.times.length == INFINITE {
        return;
      }
      if env.now < renewTime {
        SetTimer(RenewStart);
      } else {
        RenewBegin(env);
      }
    }

    // -------------------------------------------------------------- link, wake and roam

    method DropLease()
      modifies this`held, this`router, this`activeIp
      ensures View() == LeaseDropped(old(View()))
    {
      InvalidateLease();
      ClearRouter();
      activeIp := 0;
    }

    method CheckNetwork(env: Env)
      modifies this
      ensures View() == NetworkChecked(old(View()), env)
    {
      if !held.valid || held.ssid.None? || env.ssid.None? {
        return;
      }
      if held.ssid != env.ssid && !(held.networkId.Some? && held.networkId == env.networkId) {
        SwitchNetwork(env);
        tries := 0;
      } else {
        CheckMac(env);
      }
    }

    method SwitchNetwork(env: Env)
      modifies this
      ensures View() == NetworkSwitched(old(View()), env)
    {
      if env.wifiLease.Some? {
        var switched := SwitchToLease(env.wifiLease.value, env.isPrivate, false);
      } else {
        DropLease();
      }
    }

    /** A lease recovered at start is checked once against the interface's hardware address. */
    method CheckMac(env: Env)
      modifies this`held, this`tries, this`activeIp, this`router
      ensures View() == MacChecked(old(View()), env)
    {
      if held.mac.Some? {
        if held.mac.value != env.mac {
          DropLease();
          tries := 0;
        }
        held := held.(mac := None);
      }
    }

    method CheckLinkStatus(renew: bool, env: Env)
      modifies this
      ensures View() == LinkChecked(old(View()), renew, env)
    {
      var wait := if env.wireless then !env.link.valid || !env.link.active else env.link.valid && !env.link.active;
      if wait {
        tries := 0;
        cstate := Inactive;
        CancelPendingEvents();
        return;
      }
      CheckNetwork(env);
      var valid := CheckLease(env.now);
      StartOver(renew, env);
    }

    method StartOver(renew: bool, env: Env)
      modifies this
      ensures View() == Restarted(old(View()), renew, env)
    {
      if held.valid {
        if renew || cstate != InitReboot || tries != 1 {
          RebootBegin(env);
        }
        return;
      }
      if renew || cstate != Init || tries != 1 {
        InitBegin(env);
      }
    }

    method HandleLink(renew: bool, env: Env)
      modifies this
      ensures View() == LinkEvent(old(View()), renew, env)
    {
      if env.link.networkChanged {
        activeIp := 0;
      }
      CheckLinkStatus(renew, env);
    }

    method CheckRouterStart(env: Env) returns (started: bool)
      modifies this`router, this`pending
      ensures View() == RouterCheckStarted(old(View()), env)
      ensures started == ResolveStarts(old(View()), env)
    {
      if !env.cfg.discoverRouter {
        return false;
      }
      router := router.(verified := false);
      if !router.ipValid {
        return false;
      }
      pending := pending.(arp := ArpCheckRouter);
      started := true;
    }

    method MaintainAfterWake(env: Env)
      modifies this
      ensures View() == WakeMaintained(old(View()), env)
    {
      if held.times.length == INFINITE {
        return;
      }
      if env.now < renewTime && renewTime - env.now >= WAKE_SKEW {
        SetTimer(RenewStart);
      } else {
        RenewBegin(env);
      }
    }

    method HandleWake(env: Env)
      modifies this
      ensures View() == Woken(old(View()), env)
    {
      if WakeLosesAddress(env) {
        activeIp := 0;
        CheckLinkStatus(false, env);
        return;
      }
      var valid := CheckLease(env.now);
      if !valid {
        InitBegin(env);
        return;
      }
      if !BoundRenewOrRebind(cstate) || !env.published || resolveTimedOut {
        RebootBegin(env);
        return;
      }
      if env.link.bssidChanged {
        var started := CheckRouterStart(env);
        if started {
          return;
        }
      }
      MaintainAfterWake(env);
    }

    method HandleRoam(env: Env)
      modifies this
      ensures View() == Roamed(old(View()), env)
    {
      if !BoundRenewOrRebind(cstate) || !env.published {
        return;
      }
      var started := CheckRouterStart(env);
    }

    method HandleCollision(ip: nat, env: Env)
      modifies this
      ensures View() == Collided(old(View()), ip, env)
    {
      if ignoreCollisions || activeIp != saved.ip || ip != saved.ip {
        return;
      }
      if env.defended {
        return;
      }
      DeclineStart(env);
    }

    method Release(env: Env)
      modifies this`held, this`router, this`pending, this`saved
      ensures View() == Released(old(View()), env)
    {
      if !held.valid {
        return;
      }
      InvalidateLease();
      ClearRouter();
      CancelPendingEvents();
      if env.link.valid && !env.link.active {
        return;
      }
      if env.buildFails {
        return;
      }
      saved := saved.(ip := 0);
    }

    method ForgetSsid(ssid: nat, env: Env)
      modifies this
      ensures View() == Forgotten(old(View()), ssid, env)
    {
      if held.ssid != Some(ssid) {
        return;
      }
      Release(env);
      activeIp := 0;
      held := held.(ssid := None, networkId := None);
      SetTimer(CheckLink);
    }

    method TimerExpires(env: Env)
      requires pending.timer.Some?
      modifies this
      ensures View() == TimerRun(old(View()), env)
    {
      var t := pending.timer.value;
      pending := pending.(timer := None);
      match t
      case DelayedStart => CheckLinkStatus(false, env);
      case InitStart => InitBegin(env);
      case InitTimeout => InitTimerExpires(env);
      case RebootTimeout => RebootTimerExpires(env);
      case SelectTimeout => SelectAttempt(env);
      case RenewStart => RenewBegin(env);
      case RenewTimeout => RenewAttempt(env);
      case CheckLink => CheckLinkStatus(false, env);
      case WaitTimeout => CheckLinkStatus(false, env);
      case ResolveRetry => ResolveRouter(env);
    }

    method PacketArrives(p: Packet, env: Env)
      requires pending.receive.Some?
      modifies this
      ensures View() == Received(old(View()), p, env)
    {
      match pending.receive.value
      case OnInit => InitData(p, env);
      case OnInitReboot => RebootData(p, env);
      case OnSelect => SelectData(p, env);
      case OnRenewRebind => RenewData(p, env);
    }

    method ReportArp(work: ArpWork, r: ArpResult, hw: nat, env: Env)
      modifies this
      ensures View() == ArpReported(old(View()), work, r, hw, env)
    {
      match work
      case NoArp =>
      case ArpRouter => ArpRouterResult(r, env);
      case ArpBound => BoundArp(r, env);
      case ArpCheckRouter => CheckRouterResult(r, env);
      case ArpResolve => ResolveRouterDone(r, hw);
    }

    method ArpFinishes(r: ArpResult, hw: nat, env: Env)
      requires pending.arp != NoArp
      modifies this
      ensures View() == ArpFinished(old(View()), r, hw, env)
    {
      var work := pending.arp;
      pending := pending.(arp := NoArp);
      ReportArp(work, r, hw, env);
    }

    // -------------------------------------------------------------- the service

    /** A new client record: the service keeps its address and its router, whose flags are cleared. */
    method Reset()
      modifies this
      ensures View() == Fresh(old(activeIp)).(router := old(router))
    {
      running, cstate, tries, gathering, gotNak := true, Inactive, 0, false, false;
      held, saved, pending := NoLease, Saved(0, 0, 0, false, false), Nothing;
      renewTime, resolveTimedOut, ignoreCollisions := 0.0, false, false;
    }

    method StartUp(recovered: Option<Stored>, isPrivate: bool)
      modifies this
      ensures View() == StartedUp(old(View()), recovered, isPrivate)
    {
      Reset();
      ClearRouter();
      if recovered.Some? {
        var switched := SwitchToLease(recovered.value, isPrivate, true);
      }
      SetTimer(DelayedStart);
    }

    method StopService(env: Env)
      modifies this
      ensures View() == Stopped(old(View()), env)
    {
      Release(env);
      Fail();
      Reset();
      running := false;
    }

    /**
     Any event, whatever came before: the service does what the client step says, and an address is
     configured only while a lease for that very address is valid, and never while one is being sought.
     */
    method Handle(e: Event, env: Env)
      requires Inv(View()) && Enabled(View(), e)
      modifies this
      ensures View() == Step(old(View()), e, env)
      ensures Inv(View())
      ensures activeIp != 0 ==> running && held.valid && activeIp == saved.ip && !Seeking(cstate)
    {
      StepKeepsInv(View(), e, env);
      match e
      case Start(recovered) => StartUp(recovered, env.isPrivate);
      case Stop => StopService(env);
      case TimerFires => TimerExpires(env);
      case Receive(p) => PacketArrives(p, env);
      case ArpDone(r, hw) => ArpFinishes(r, hw, env);
      case Collision(ip) => HandleCollision(ip, env);
      case LinkStatusChanged(renew) => HandleLink(renew, env);
      case LinkTimerExpired => BecomeInactive();
      case Wake => HandleWake(env);
      case BssidChanged => HandleRoam(env);
      case ForgetSsid(ssid) => ForgetSsid(ssid, env);
    }
  }
}
