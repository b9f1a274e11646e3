/** The DHCPv6 client as it runs: handlers that update its fields, proved against `Dhcp6Client`. */
module Dhcp6Machine {
  import opened Common
  import opened Dhcp6Lease
  import opened Dhcp6Backoff
  import opened Dhcp6Client
  import opened Dhcp6ClientLaws

  class Client {
    var mode: Mode
    var cstate: CState
    var tries: nat
    var startTime: real
    var retransmit: real
    var renewTime: real
    var ourIp: nat
    var delegated: nat
    var saved: Option<Packet>
    var savedMode: Mode
    var serverId: Option<nat>
    var ia: Option<IA>
    var address: Option<SubOption>
    var lease: Lease
    var timer: Option<Timer>
    var receive: Option<Handler>
    var installed: Option<Install>
    var lastSent: Message
    var nullDereference: bool

    function View(): State
      reads this
    {
      State(mode, cstate, tries, startTime, retransmit, renewTime, ourIp, delegated, saved, savedMode, serverId,
            ia, address, lease, timer, receive, installed, lastSent, nullDereference)
    }

    constructor ()
      ensures View() == Initial()
    {
      mode, cstate, tries, startTime, retransmit, renewTime := NoMode, Inactive, 0, 0.0, 0.0, 0.0;
      ourIp, delegated, saved, savedMode, serverId, ia, address := 0, 0, None, NoMode, None, None, None;
      lease := NoLease;
      timer, receive, installed, lastSent, nullDereference := None, None, None, NoMessage, false;
    }

    // -------------------------------------------------------------- small steps

    method SetTimer(h: Handler, start: bool, at: real)
      modifies this`timer
      ensures View() == TimerSet(old(View()), h, start, at)
    {
      timer := Some(Timer(h, start, at));
    }

    method CancelPendingEvents()
      modifies this`timer, this`receive
      ensures View() == Canceled(old(View()))
    {
      receive := None;
      timer := None;
    }

    method ClearLease()
      modifies this`lease
      ensures View() == LeaseCleared(old(View()))
    {
      lease := NoLease;
    }

    method ClearPacket()
      modifies this`lease, this`saved, this`serverId, this`ia, this`address, this`savedMode
      ensures View() == PacketCleared(old(View()))
    {
      ClearLease();
      saved, serverId := None, None;
      ia, address := None, None;
      savedMode := NoMode;
    }

    method BecomeInactive()
      modifies this`lease, this`saved, this`serverId, this`ia, this`address, this`savedMode
      modifies this`timer, this`receive, this`ourIp
      ensures View() == Inactivated(old(View()))
    {
      CancelPendingEvents();
      ClearPacket();
      ourIp := 0;
    }

    method NextTimeout(irt: real, mrt: real, d: Draw) returns (rt: real)
      modifies this`tries, this`retransmit
      ensures View() == NextRetransmit(old(View()), irt, mrt, d) && rt == retransmit
    {
      tries := tries + 1;
      if tries == 1 {
        retransmit := irt + d.double * irt;
      } else {
        var next := 2.0 * retransmit + d.double * retransmit;
        if mrt != 0.0 && next > mrt {
          next := mrt + d.cap * mrt;
        }
        retransmit := next;
      }
      rt := retransmit;
    }

    method LeaseStillValid(now: real) returns (valid: bool)
      modifies this`lease, this`saved, this`serverId, this`ia, this`address, this`savedMode
      ensures View() == LeaseChecked(old(View()), now) && valid == lease.valid
    {
      if !lease.valid || lease.times.valid == INFINITE {
        return lease.valid;
      }
      if now < lease.start {
        ClearPacket();
        return lease.valid;
      }
      if now - lease.start >= lease.times.valid as real {
        ClearPacket();
      }
      valid := lease.valid;
    }

    method HoldPacket(p: Packet, env: Env)
      modifies this`lease, this`saved, this`serverId, this`ia, this`address, this`savedMode
      ensures View() == PacketHeld(old(View()), p, env)
    {
      ClearPacket();
      lease := lease.(ssid := env.ssid);
      saved, serverId := Some(p), p.server;
    }

    method Adopt(c: Chosen, env: Env)
      requires c.address.Address?
      modifies this`lease, this`ia, this`address, this`savedMode
      ensures View() == Adopted(old(View()), c, env)
    {
      ia, address := Some(c.ia), Some(c.address);
      var x := Normalise(c);
      lease := lease.(start := env.now, times := x);
      savedMode := mode;
    }

    method SavePacket(p: Packet, env: Env)
      modifies this`lease, this`saved, this`serverId, this`ia, this`address, this`savedMode
      ensures View() == PacketSaved(old(View()), p, env)
    {
      HoldPacket(p, env);
      if mode == StatefulAddress || mode == StatefulPrefix {
        var chosen, code := GetIA(if mode == StatefulAddress then p.na else p.pd);
        if chosen.Some? {
          Adopt(chosen.value, env);
        }
      } else {
        savedMode := mode;
      }
    }

    method SendPacket()
      modifies this`nullDereference, this`lastSent
      ensures View() == Sent(old(View()))
    {
      if mode == NoMode || mode == Stateless {
        return;
      }
      if savedMode != mode || serverId.None? || ia.None? {
        return;
      }
      var message: Message;
      match cstate {
      case Request => message := RequestMessage;
      case Renew => message := RenewMessage;
      case Rebind => message := RebindMessage;
      case Releasing => message := ReleaseMessage;
      case Confirm => message := if mode == StatefulPrefix then RebindMessage else ConfirmMessage;
      case Decline => message := DeclineMessage;
      case _ => return;
      }
      nullDereference := nullDereference || address.None?;
      lastSent := message;
    }

    // -------------------------------------------------------------- Solicit and Request

    method SolicitStart(env: Env)
      modifies this
      ensures View() == SolicitStarted(old(View()), env)
    {
      cstate := Solicit;
      tries := 0;
      ClearPacket();
      receive := Some(OnSolicit);
      SetTimer(OnSolicit, false, env.now + env.delay);
    }

    method SolicitTimeout(env: Env)
      modifies this
      ensures View() == SolicitTimedOut(old(View()), env)
    {
      if tries == 0 {
        startTime := env.now;
      } else if env.linkInactive {
        BecomeInactive();
        return;
      }
      if saved.Some? {
        RequestStart(env);
        return;
      }
      var rt := NextTimeout(1.0, 3600.0, env.draw);
      SetTimer(OnSolicit, false, env.now + rt);
    }

    method SolicitData(p: Packet, env: Env)
      modifies this
      ensures View() == SolicitReceived(old(View()), p, env)
    {
      if p.kind != Advertise || !p.forUs {
        return;
      }
      if p.server.None? || !p.serverValid {
        return;
      }
      if p.status.None? {
        return;
      }
      if p.status.value == NO_ADDRS_AVAIL || p.status.value == NO_PREFIX_AVAIL {
        return;
      }
      if mode != StatefulAddress && mode != StatefulPrefix {
        return;
      }
      var chosen, code := GetIA(if mode == StatefulAddress then p.na else p.pd);
      if chosen.None? {
        return;
      }
      if saved.Some? && saved.value.preference >= p.preference {
        return;
      }
      SavePacket(p, env);
      if tries > 1 || p.preference == MAX_PREFERENCE {
        RequestStart(env);
      }
    }

    method RequestStart(env: Env)
      modifies this
      ensures View() == RequestStarted(old(View()), env)
    {
      cstate := Request;
      tries := 0;
      startTime := env.now;
      receive := Some(OnRequest);
      RequestTimeout(env);
    }

    method RequestTimeout(env: Env)
      modifies this
      ensures View() == RequestTimedOut(old(View()), env)
    {
      if tries >= REQ_MAX_RC {
        SolicitStart(env);
        return;
      }
      var rt := NextTimeout(1.0, 30.0, env.draw);
      SetTimer(OnRequest, false, env.now + rt);
      SendPacket();
    }

    method RequestData(p: Packet, env: Env)
      modifies this
      ensures View() == RequestReceived(old(View()), p, env)
    {
      if p.kind != Reply || !p.forUs || p.server.None? || !p.serverValid || p.status.None? {
        return;
      }
      if p.status.value == NO_ADDRS_AVAIL || p.status.value == NO_PREFIX_AVAIL {
        return;
      }
      var chosen, code := GetIA(if mode == StatefulAddress then p.na else p.pd);
      if code == NOT_ON_LINK {
        ourIp := 0;
        SolicitStart(env);
        return;
      }
      if chosen.None? {
        return;
      }
      SavePacket(p, env);
      BoundStart(env);
    }

    // -------------------------------------------------------------- Decline and Unbound

    method EnterDecline()
      modifies this`cstate, this`ourIp, this`lease, this`timer, this`receive, this`tries
      ensures View() == DeclineEntered(old(View()))
    {
      cstate := Decline;
      ourIp := 0;
      CancelPendingEvents();
      ClearLease();
      tries := 0;
      receive := Some(OnDecline);
    }

    method DeclineStart(env: Env)
      modifies this
      ensures View() == DeclineStarted(old(View()), env)
    {
      EnterDecline();
      DeclineTimeout(env);
    }

    method DeclineTimeout(env: Env)
      modifies this
      ensures View() == DeclineTimedOut(old(View()), env)
    {
      if tries >= DEC_MAX_RC {
        SolicitStart(env);
        return;
      }
      var rt := NextTimeout(1.0, 0.0, env.draw);
      SetTimer(OnDecline, false, env.now + rt);
      SendPacket();
    }

    method DeclineData(p: Packet, env: Env)
      modifies this
      ensures View() == DeclineReceived(old(View()), p, env)
    {
      if p.kind != Reply || !p.forUs || p.server.None? || !p.serverValid {
        return;
      }
      SolicitStart(env);
    }

    method UnboundStart(env: Env)
      modifies this
      ensures View() == UnboundStarted(old(View()), env)
    {
      cstate := Unbound;
      CancelPendingEvents();
      ourIp := 0;
      ClearPacket();
      SolicitStart(env);
    }

    // -------------------------------------------------------------- Bound

    method HandleAddressChanged(a: AddressState, env: Env)
      modifies this
      ensures View() == AddressChanged(old(View()), a, env)
    {
      if cstate != Bound || ourIp == 0 {
        return;
      }
      if a == Duplicated {
        DeclineStart(env);
      }
    }

    method InstallAddress(valid: nat, preferred: nat, env: Env)
      modifies this
      ensures View() == BoundAddress(old(View()), valid, preferred, env)
    {
      if address.None? || !address.value.Address? {
        nullDereference := true;
        return;
      }
      ourIp := address.value.address;
      installed := Some(Install(ourIp, valid, preferred));
      HandleAddressChanged(env.addressState, env);
    }

    method InstallPrefix(valid: nat, preferred: nat)
      modifies this
      ensures View() == BoundPrefix(old(View()), valid, preferred)
    {
      if address.None? || !address.value.Address? {
        nullDereference := true;
        return;
      }
      delegated := address.value.address;
      installed := Some(Install(delegated, valid, preferred));
    }

    /** Passes down what is left of the lifetimes. */
    method InstallLease(elapsed: nat, env: Env)
      modifies this
      ensures View() == Installed(old(View()), elapsed, env)
    {
      var valid: nat := lease.times.valid;
      var preferred: nat := lease.times.preferred;
      if lease.times.valid != INFINITE {
        valid := if elapsed < valid then valid - elapsed else 0;
        preferred := if elapsed < preferred then preferred - elapsed else 0;
      }
      if mode == StatefulAddress {
        InstallAddress(valid, preferred, env);
      } else {
        InstallPrefix(valid, preferred);
      }
    }

    method ScheduleRenew(elapsed: nat, env: Env)
      modifies this`renewTime, this`timer
      ensures View() == RenewScheduled(old(View()), elapsed, env)
    {
      var wait := if elapsed < lease.times.t1 then lease.times.t1 - elapsed else 10;
      renewTime := env.now + wait as real;
      SetTimer(OnRenewRebind, true, env.now + wait as real);
    }

    method EnterBound()
      modifies this`cstate, this`lease, this`timer, this`receive
      ensures View() == BoundEntered(old(View()))
    {
      cstate := Bound;
      lease := lease.(valid := true);
      CancelPendingEvents();
    }

    method BoundStart(env: Env)
      modifies this
      ensures View() == BoundStarted(old(View()), env)
    {
      EnterBound();
      var forever := lease.times.valid == INFINITE;
      var elapsed: nat := 0;
      if !forever {
        if env.now < lease.start {
          UnboundStart(env);
          return;
        }
        elapsed := (env.now - lease.start).Floor;
        if elapsed >= lease.times.valid {
          UnboundStart(env);
          return;
        }
      }
      InstallLease(elapsed, env);
      if !forever {
        ScheduleRenew(elapsed, env);
      }
    }

    // -------------------------------------------------------------- Renew and Rebind

    method EnterRenew(env: Env)
      modifies this`cstate, this`tries, this`startTime, this`timer, this`receive
      ensures View() == RenewEntered(old(View()), env)
    {
      cstate := Renew;
      CancelPendingEvents();
      tries := 0;
      startTime := env.now;
      receive := Some(OnRenewRebind);
    }

    method RenewStart(env: Env)
      modifies this
      ensures View() == RenewStarted(old(View()), env)
    {
      EnterRenew(env);
      RenewTimeout(env);
    }

    method WaitFor(wait: real, env: Env)
      modifies this`renewTime, this`timer, this`nullDereference, this`lastSent
      ensures View() == Waiting(old(View()), wait, env)
    {
      renewTime := env.now + wait;
      SetTimer(OnRenewRebind, false, env.now + wait);
      SendPacket();
    }

    method SendRenew(elapsed: nat, env: Env)
      modifies this`tries, this`retransmit, this`renewTime, this`timer, this`nullDereference, this`lastSent
      ensures View() == RenewSent(old(View()), elapsed, env)
    {
      var wait := NextTimeout(10.0, 600.0, env.draw);
      if wait > (lease.times.t2 - elapsed) as real {
        wait := (lease.times.t2 - elapsed) as real;
      }
      WaitFor(wait, env);
    }

    method EnterRebind(env: Env)
      modifies this`cstate, this`tries, this`startTime, this`receive
      ensures View() == RebindEntered(old(View()), env)
    {
      if cstate != Rebind {
        receive := Some(OnRenewRebind);
        startTime := env.now;
        cstate := Rebind;
        tries := 0;
      }
    }

    method SendRebind(elapsed: nat, env: Env)
      modifies this
      ensures View() == RebindSent(old(View()), elapsed, env)
    {
      EnterRebind(env);
      var wait := NextTimeout(10.0, 600.0, env.draw);
      if wait > (lease.times.valid - elapsed) as real {
        wait := (lease.times.valid - elapsed) as real;
      }
      WaitFor(wait, env);
    }

    method RenewTimeout(env: Env)
      modifies this
      ensures View() == RenewTimedOut(old(View()), env)
    {
      var still := LeaseStillValid(env.now);
      if !still {
        UnboundStart(env);
        return;
      }
      var elapsed: nat := if env.now < lease.start then 0 else (env.now - lease.start).Floor;
      if elapsed < lease.times.t2 {
        SendRenew(elapsed, env);
      } else {
        SendRebind(elapsed, env);
      }
    }

    method RenewData(p: Packet, env: Env)
      modifies this
      ensures View() == RenewReceived(old(View()), p, env)
    {
      if p.kind != Reply || !p.forUs || p.server.None? || !p.serverValid || p.status.None? {
        return;
      }
      if p.status.value != SUCCESS {
        UnboundStart(env);
        return;
      }
      var chosen, code := GetIA(if mode == StatefulAddress then p.na else p.pd);
      if chosen.None? {
        UnboundStart(env);
        return;
      }
      SavePacket(p, env);
      BoundStart(env);
    }

    // -------------------------------------------------------------- Confirm

    method ConfirmStart(env: Env)
      modifies this
      ensures View() == ConfirmStarted(old(View()), env)
    {
      cstate := Confirm;
      CancelPendingEvents();
      tries := 0;
      receive := Some(OnConfirm);
      SetTimer(OnConfirm, false, env.now + env.delay);
    }

    method ConfirmTimeout(env: Env)
      modifies this
      ensures View() == ConfirmTimedOut(old(View()), env)
    {
      if tries == 0 {
        startTime := env.now;
      } else {
        if env.linkInactive {
          BecomeInactive();
          return;
        }
        var done := false;
        if env.now > startTime {
          if env.now - startTime >= CNF_MAX_RD {
            done := true;
          }
        } else {
          done := true;
        }
        if done {
          var still := LeaseStillValid(env.now);
          if still {
            BoundStart(env);
          } else {
            SolicitStart(env);
          }
          return;
        }
      }
      var rt := NextTimeout(1.0, 4.0, env.draw);
      SetTimer(OnConfirm, false, env.now + rt);
      SendPacket();
    }

    method ConfirmData(p: Packet, env: Env)
      modifies this
      ensures View() == ConfirmReceived(old(View()), p, env)
    {
      if p.kind != Reply || !p.forUs || p.server.None? || !p.serverValid || p.status.None? {
        return;
      }
      if p.status.value != SUCCESS {
        UnboundStart(env);
        return;
      }
      if mode == StatefulPrefix {
        var chosen, code := GetIA(p.pd);
        if chosen.Some? {
          SavePacket(p, env);
        }
      }
      BoundStart(env);
    }

    // -------------------------------------------------------------- Inform

    method InformStart(env: Env)
      modifies this
      ensures View() == InformStarted(old(View()), env)
    {
      cstate := Inform;
      ClearPacket();
      tries := 0;
      receive := Some(OnInform);
      if env.cellular {
        InformTimeout(env);
      } else {
        SetTimer(OnInform, false, env.now + env.delay);
      }
    }

    method InformTimeout(env: Env)
      modifies this
      ensures View() == InformTimedOut(old(View()), env)
    {
      if tries == 0 {
        startTime := env.now;
      } else if env.linkInactive {
        BecomeInactive();
        return;
      }
      var rt := NextTimeout(1.0, 3600.0, env.draw);
      SetTimer(OnInform, false, env.now + rt);
    }

    method InformData(p: Packet, env: Env)
      modifies this
      ensures View() == InformReceived(old(View()), p, env)
    {
      if p.kind != Reply || !p.forUs || p.server.None? || !p.serverValid {
        return;
      }
      SavePacket(p, env);
      cstate := InformComplete;
      CancelPendingEvents();
    }

    // -------------------------------------------------------------- the outside world

    method Start(env: Env)
      modifies this
      ensures View() == Started(old(View()), env)
    {
      if mode == Stateless {
        InformStart(env);
      } else if mode == StatefulAddress || mode == StatefulPrefix {
        var confirm := savedMode == mode;
        if confirm {
          confirm := LeaseStillValid(env.now);
        }
        if confirm && env.wireless {
          confirm := env.ssid.Some? && lease.ssid == env.ssid;
        }
        if confirm {
          ConfirmStart(env);
        } else {
          SolicitStart(env);
        }
      }
    }

    method ChooseMode(m: Mode)
      modifies this`mode
      ensures View() == ModeSet(old(View()), m)
    {
      if mode == NoMode {
        mode := m;
      }
    }

    method DiscardInformation()
      modifies this
      ensures View() == Discarded(old(View()))
    {
      if mode == NoMode {
        ClearPacket();
      }
    }

    method Halt()
      modifies this
      ensures View() == Stopped(old(View()))
    {
      ourIp := 0;
      CancelPendingEvents();
      delegated := 0;
      cstate := Inactive;
      mode := NoMode;
    }

    method HandleWake(w: Wake, env: Env)
      modifies this
      ensures View() == Woken(old(View()), w, env)
    {
      if w.linkInactive || (env.wireless && w.networkChanged) || (!env.wireless && !w.onSameNetwork) {
        ourIp := 0;
        if w.linkInactive {
          return;
        }
        if cstate != Solicit {
          SolicitStart(env);
        }
        return;
      }
      var still := LeaseStillValid(env.now);
      if !still {
        if cstate != Solicit {
          UnboundStart(env);
        }
        return;
      }
      if !BoundRenewOrRebind(cstate) || w.bssidChanged {
        ConfirmStart(env);
        return;
      }
      if lease.times.valid == INFINITE {
        return;
      }
      if env.now < renewTime && renewTime - env.now >= WAKE_SKEW {
        var delta := renewTime - env.now;
        SetTimer(OnRenewRebind, true, env.now + delta);
      } else {
        RenewStart(env);
      }
    }

    method HandleRoam(env: Env)
      modifies this
      ensures View() == Roamed(old(View()), env)
    {
      var still := LeaseStillValid(env.now);
      if still && BoundRenewOrRebind(cstate) {
        ConfirmStart(env);
      }
    }

    method TimerExpires(env: Env)
      requires timer.Some?
      modifies this
      ensures View() == TimerRun(old(View()), env)
    {
      var t := timer.value;
      timer := None;
      match t.handler
      case OnSolicit => SolicitTimeout(env);
      case OnRequest => RequestTimeout(env);
      case OnRenewRebind => if t.start { RenewStart(env); } else { RenewTimeout(env); }
      case OnConfirm => ConfirmTimeout(env);
      case OnDecline => DeclineTimeout(env);
      case OnInform => InformTimeout(env);
    }

    method PacketArrives(p: Packet, env: Env)
      requires receive.Some?
      modifies this
      ensures View() == Received(old(View()), p, env)
    {
      match receive.value
      case OnSolicit => SolicitData(p, env);
      case OnRequest => RequestData(p, env);
      case OnRenewRebind => RenewData(p, env);
      case OnConfirm => ConfirmData(p, env);
      case OnDecline => DeclineData(p, env);
      case OnInform => InformData(p, env);
    }

    method ReleaseStart()
      modifies this`cstate, this`ourIp, this`timer, this`receive, this`tries, this`nullDereference, this`lastSent
      ensures View() == ReleaseStarted(old(View()))
    {
      cstate := Releasing;
      ourIp := 0;
      CancelPendingEvents();
      tries := 0;
      SendPacket();
    }

    /** The client's last act; nothing may be asked of it afterwards. */
    method ReleaseClient(env: Env)
      modifies this
      ensures View() == ClientReleased(old(View()), env)
    {
      if mode == StatefulAddress || mode == StatefulPrefix {
        if !env.linkInactive {
          var still := LeaseStillValid(env.now);
          if still {
            ReleaseStart();
          }
        }
      }
      CancelPendingEvents();
      ClearPacket();
      cstate := Freed;
      mode := NoMode;
    }

    /**
     Any event, whatever came before: the client does what the step says, its pointers, packet and lease
     stay coherent, and it follows no null pointer.
     */
    method Handle(e: Event, env: Env)
      requires Inv(View()) && Enabled(View(), e)
      modifies this
      ensures View() == Step(old(View()), e, env)
      ensures Inv(View()) && !nullDereference && (ia.Some? <==> address.Some?)
      ensures lease.valid ==> saved.Some? && address.Some? && Normal(lease.times)
    {
      StepKeepsInv(View(), e, env);
      match e {
      case SetModeAndStart(m) =>
        ChooseMode(m);
        Start(env);
      case SetMode(m) => ChooseMode(m);
      case Stop => Halt();
      case Discard => DiscardInformation();
      case TimerFires => TimerExpires(env);
      case Receive(p) => PacketArrives(p, env);
      case AddressEvent => HandleAddressChanged(env.addressState, env);
      case WakeEvent(w) => HandleWake(w, env);
      case Roam => HandleRoam(env);
      case LinkActive => Start(env);
      case Release => ReleaseClient(env);
      }
      if lease.valid {
        CoherentNormal(View());
      }
    }
  }
}
