/** What the DHCPv6 client keeps through every run, whatever the order of its events. */
module Dhcp6ClientLaws {
  import opened Common
  import opened Dhcp6Lease
  import opened Dhcp6Backoff
  import opened Dhcp6Client

  // ---------------------------------------------------------------- coherence

  predicate HasLease(s: State) { s.lease.valid || s.lease.times.valid != 0 }

  /** The lease is the one the saved packet carries, and the pointers are what was chosen from it. */
  ghost predicate Backed(s: State) {
    && Stateful(s.savedMode) && s.saved.Some? && s.ia.Some? && s.address.Some? && s.serverId.Some?
    && Choose(IAOf(s.saved.value, s.savedMode)) == Some(Chosen(s.ia.value, s.address.value))
    && s.address.value.Address?
    && s.lease.times == Normalised(Chosen(s.ia.value, s.address.value))
  }

  ghost predicate Coherent(s: State) {
    && (s.ia.Some? <==> s.address.Some?)
    && (HasLease(s) ==> Backed(s))
    && (Stateful(s.mode) && HasLease(s) ==> s.savedMode == s.mode)
    && !s.nullDereference
  }

  /** While choosing a server there is no lease yet; Request always has a packet to answer. */
  ghost predicate Choosing(s: State) {
    && (s.cstate == Solicit || s.cstate == Request ==>
          Stateful(s.mode) && !s.lease.valid && (s.saved.Some? ==> HasLease(s) && s.serverId.Some?))
    && (s.cstate == Request ==> s.saved.Some?)
  }

  predicate HandlerOk(s: State, h: Handler) {
    match h
    case OnSolicit => s.cstate == Solicit
    case OnRequest => s.cstate == Request
    case OnInform => s.mode == Stateless && s.cstate != Solicit && s.cstate != Request
    case _ => Stateful(s.mode) && s.cstate != Solicit && s.cstate != Request
  }

  ghost predicate Handlers(s: State) {
    (s.timer.Some? ==> HandlerOk(s, s.timer.value.handler)) && (s.receive.Some? ==> HandlerOk(s, s.receive.value))
  }

  ghost predicate Inv(s: State) { Coherent(s) && Choosing(s) && Handlers(s) }

  lemma InitialInv()
    ensures Inv(Initial())
  {
  }

  // ---------------------------------------------------------------- handlers that clear everything

  lemma SolicitStartedOk(s: State, env: Env)
    requires Stateful(s.mode) && !s.nullDereference
    ensures Inv(SolicitStarted(s, env))
  {
  }

  lemma UnboundStartedOk(s: State, env: Env)
    requires Stateful(s.mode) && !s.nullDereference
    ensures Inv(UnboundStarted(s, env))
  {
  }

  lemma InactivatedOk(s: State)
    requires !s.nullDereference && s.cstate != Request && (s.cstate == Solicit ==> Stateful(s.mode))
    ensures Inv(Inactivated(s))
  {
  }

  /** Saving a packet whose address was just found usable. */
  lemma PacketSavedBacks(s: State, p: Packet, env: Env)
    requires Stateful(s.mode) && Choose(IAOf(p, s.mode)).Some? && p.server.Some? && !s.nullDereference
    ensures var q := PacketSaved(s, p, env);
            && Coherent(q) && HasLease(q) && !q.lease.valid && q.savedMode == q.mode == s.mode
            && q.serverId == p.server && q.saved == Some(p) && q.lease.start == env.now
            && Normal(q.lease.times)
  {
    ChosenIsNormal(IAOf(p, s.mode));
  }

  lemma CoherentNormal(s: State)
    requires Coherent(s) && HasLease(s)
    ensures Normal(s.lease.times)
  {
    ChosenIsNormal(IAOf(s.saved.value, s.savedMode));
  }

  // ---------------------------------------------------------------- Solicit and Request

  lemma RequestTimedOutOk(s: State, env: Env)
    requires Coherent(s) && Choosing(s) && s.cstate == Request
    requires s.receive.Some? ==> s.receive == Some(OnRequest)
    ensures Inv(RequestTimedOut(s, env))
  {
    if s.tries >= REQ_MAX_RC {
      SolicitStartedOk(s, env);
    }
  }

  lemma RequestStartedOk(s: State, env: Env)
    requires Coherent(s) && Stateful(s.mode) && !s.lease.valid
    requires s.saved.Some? && HasLease(s) && s.serverId.Some?
    ensures Inv(RequestStarted(s, env))
  {
    RequestTimedOutOk(s.(cstate := Request, tries := 0, startTime := env.now, receive := Some(OnRequest)), env);
  }

  lemma SolicitTimedOutOk(s: State, env: Env)
    requires Inv(s) && s.cstate == Solicit
    ensures Inv(SolicitTimedOut(s, env))
  {
    if s.tries > 0 && env.linkInactive {
      InactivatedOk(s);
    } else if s.saved.Some? {
      RequestStartedOk(if s.tries == 0 then s.(startTime := env.now) else s, env);
    }
  }

  lemma SolicitReceivedOk(s: State, p: Packet, env: Env)
    requires Inv(s) && s.cstate == Solicit
    ensures Inv(SolicitReceived(s, p, env))
  {
    if Usable6(p, s.mode) {
      PacketSavedBacks(s, p, env);
      RequestStartedOk(PacketSaved(s, p, env), env);
    }
  }

  // ---------------------------------------------------------------- Decline and Bound

  lemma DeclineTimedOutOk(s: State, env: Env)
    requires Coherent(s) && Stateful(s.mode) && s.cstate != Solicit && s.cstate != Request
    requires s.receive.Some? ==> HandlerOk(s, s.receive.value)
    ensures Inv(DeclineTimedOut(s, env))
  {
    if s.tries >= DEC_MAX_RC {
      SolicitStartedOk(s, env);
    }
  }

  lemma DeclineStartedOk(s: State, env: Env)
    requires Coherent(s) && Stateful(s.mode)
    ensures Inv(DeclineStarted(s, env)) && DeclineStarted(s, env).cstate == Decline
    ensures DeclineStarted(s, env).lease == NoLease && DeclineStarted(s, env).mode == s.mode
  {
    DeclineTimedOutOk(DeclineEntered(s), env);
  }

  /** Installing never meets a missing address. */
  lemma InstalledOk(s: State, elapsed: nat, env: Env)
    requires Coherent(s) && HasLease(s) && Stateful(s.mode) && s.cstate == Bound
    requires s.timer == None && s.receive == None
    ensures var q := Installed(s, elapsed, env);
            && Inv(q) && q.mode == s.mode
            && (q.cstate == Bound || (q.cstate == Decline && q.lease == NoLease))
            && (q.cstate == Bound ==> q.lease == s.lease && q.timer == None)
  {
    if s.mode == StatefulAddress && env.addressState == Duplicated {
      var forever := s.lease.times.valid == INFINITE;
      var ip := s.address.value.address;
      var valid := if forever then INFINITE else Left(s.lease.times.valid, elapsed);
      var preferred := if forever then s.lease.times.preferred else Left(s.lease.times.preferred, elapsed);
      DeclineStartedOk(s.(ourIp := ip, installed := Some(Install(ip, valid, preferred))), env);
    }
  }

  lemma TimerSetOk(s: State, h: Handler, start: bool, at: real, renew: real)
    requires Inv(s) && HandlerOk(s, h)
    ensures Inv(TimerSet(s.(renewTime := renew), h, start, at))
  {
  }

  lemma BoundStartedOk(s: State, env: Env)
    requires Coherent(s) && Stateful(s.mode)
    ensures Inv(BoundStarted(s, env))
  {
    var b := BoundEntered(s);
    if b.lease.times.valid != INFINITE
       && (env.now < b.lease.start || Elapsed(b.lease, env.now) >= b.lease.times.valid) {
      UnboundStartedOk(b, env);
    } else {
      assert HasLease(s) && Coherent(b);
      var elapsed := if b.lease.times.valid == INFINITE then 0 else Elapsed(b.lease, env.now);
      InstalledOk(b, elapsed, env);
      var q := Installed(b, elapsed, env);
      var at := env.now + RenewWait(q.lease.times.t1, elapsed) as real;
      TimerSetOk(q, OnRenewRebind, true, at, at);
    }
  }

  lemma RequestReceivedOk(s: State, p: Packet, env: Env)
    requires Inv(s) && s.cstate == Request
    ensures Inv(RequestReceived(s, p, env))
  {
    if Acceptable(p, Reply) && p.status.Some? {
      if StatusOf(IAOf(p, s.mode)) == NOT_ON_LINK {
        SolicitStartedOk(s.(ourIp := 0), env);
      } else if Choose(IAOf(p, s.mode)).Some? {
        PacketSavedBacks(s, p, env);
        BoundStartedOk(PacketSaved(s, p, env), env);
      }
    }
  }

  // ---------------------------------------------------------------- Renew, Rebind, Confirm

  lemma LeaseCheckedOk(s: State, now: real)
    requires Inv(s)
    ensures Inv(LeaseChecked(s, now)) && LeaseChecked(s, now).cstate == s.cstate && LeaseChecked(s, now).mode == s.mode
  {
  }

  lemma RenewSentOk(s: State, elapsed: nat, env: Env)
    requires Inv(s) && Stateful(s.mode) && s.cstate != Solicit && s.cstate != Request
    ensures Inv(RenewSent(s, elapsed, env))
  {
  }

  lemma RebindSentOk(s: State, elapsed: nat, env: Env)
    requires Inv(s) && Stateful(s.mode) && s.cstate != Solicit && s.cstate != Request
    ensures Inv(RebindSent(s, elapsed, env))
  {
  }

  lemma RenewTimedOutOk(s: State, env: Env)
    requires Inv(s) && Stateful(s.mode) && s.cstate != Solicit && s.cstate != Request
    ensures Inv(RenewTimedOut(s, env))
  {
    LeaseCheckedOk(s, env.now);
    var c := LeaseChecked(s, env.now);
    if !c.lease.valid {
      UnboundStartedOk(c, env);
    } else {
      RenewSentOk(c, Elapsed(c.lease, env.now), env);
      RebindSentOk(c, Elapsed(c.lease, env.now), env);
    }
  }

  lemma RenewStartedOk(s: State, env: Env)
    requires Inv(s) && Stateful(s.mode)
    ensures Inv(RenewStarted(s, env))
  {
    RenewTimedOutOk(RenewEntered(s, env), env);
  }

  lemma RenewReceivedOk(s: State, p: Packet, env: Env)
    requires Inv(s) && Stateful(s.mode)
    ensures Inv(RenewReceived(s, p, env))
  {
    if Acceptable(p, Reply) && p.status.Some? {
      if p.status.value != SUCCESS || Choose(IAOf(p, s.mode)).None? {
        UnboundStartedOk(s, env);
      } else {
        PacketSavedBacks(s, p, env);
        BoundStartedOk(PacketSaved(s, p, env), env);
      }
    }
  }

  lemma ConfirmStartedOk(s: State, env: Env)
    requires Inv(s) && Stateful(s.mode)
    ensures Inv(ConfirmStarted(s, env))
  {
  }

  lemma ConfirmTimedOutOk(s: State, env: Env)
    requires Inv(s) && Stateful(s.mode) && s.cstate != Solicit && s.cstate != Request
    ensures Inv(ConfirmTimedOut(s, env))
  {
    if s.tries > 0 && env.linkInactive {
      InactivatedOk(s);
    } else if s.tries > 0 && ConfirmDone(s, env.now) {
      LeaseCheckedOk(s, env.now);
      var c := LeaseChecked(s, env.now);
      if c.lease.valid {
        BoundStartedOk(c, env);
      } else {
        SolicitStartedOk(c, env);
      }
    }
  }

  lemma ConfirmReceivedOk(s: State, p: Packet, env: Env)
    requires Inv(s) && Stateful(s.mode)
    ensures Inv(ConfirmReceived(s, p, env))
  {
    if Acceptable(p, Reply) && p.status.Some? {
      if p.status.value != SUCCESS {
        UnboundStartedOk(s, env);
      } else if s.mode == StatefulPrefix && Choose(p.pd).Some? {
        PacketSavedBacks(s, p, env);
        BoundStartedOk(PacketSaved(s, p, env), env);
      } else {
        BoundStartedOk(s, env);
      }
    }
  }

  // ---------------------------------------------------------------- events

  lemma TimerRunOk(s: State, env: Env)
    requires Inv(s) && s.timer.Some?
    ensures Inv(TimerRun(s, env))
  {
    var q := s.(timer := None);
    match s.timer.value.handler
    case OnSolicit => SolicitTimedOutOk(q, env);
    case OnRequest => RequestTimedOutOk(q, env);
    case OnRenewRebind => if s.timer.value.start { RenewStartedOk(q, env); } else { RenewTimedOutOk(q, env); }
    case OnConfirm => ConfirmTimedOutOk(q, env);
    case OnDecline => DeclineTimedOutOk(q, env);
    case OnInform => InformTimedOutOk(q, env);
  }

  lemma InformTimedOutOk(s: State, env: Env)
    requires Inv(s) && s.mode == Stateless && s.cstate != Solicit && s.cstate != Request
    ensures Inv(InformTimedOut(s, env))
  {
    if s.tries > 0 && env.linkInactive {
      InactivatedOk(s);
    }
  }

  lemma InformStartedOk(s: State, env: Env)
    requires Inv(s) && s.mode == Stateless
    ensures Inv(InformStarted(s, env))
  {
    InformTimedOutOk(PacketCleared(s.(cstate := Inform)).(tries := 0, receive := Some(OnInform), timer := None), env);
  }

  lemma ReceivedOk(s: State, p: Packet, env: Env)
    requires Inv(s) && s.receive.Some?
    ensures Inv(Received(s, p, env))
  {
    match s.receive.value
    case OnSolicit => SolicitReceivedOk(s, p, env);
    case OnRequest => RequestReceivedOk(s, p, env);
    case OnRenewRebind => RenewReceivedOk(s, p, env);
    case OnConfirm => ConfirmReceivedOk(s, p, env);
    case OnDecline => if Acceptable(p, Reply) { SolicitStartedOk(s, env); }
    case OnInform =>
  }

  lemma StatefulStartedOk(s: State, env: Env)
    requires Stateful(s.mode) && !s.nullDereference && (SavedInfoValid(s) ==> Inv(s))
    ensures Inv(Started(s, env))
  {
    if SavedInfoValid(s) {
      LeaseCheckedOk(s, env.now);
      var c := LeaseChecked(s, env.now);
      if c.lease.valid && OnSameNetwork(c, env) {
        ConfirmStartedOk(c, env);
      } else {
        SolicitStartedOk(c, env);
      }
    } else {
      SolicitStartedOk(s, env);
    }
  }

  lemma WokenOk(s: State, w: Wake, env: Env)
    requires Inv(s) && Stateful(s.mode)
    ensures Inv(Woken(s, w, env))
  {
    if WakeLosesAddress(w, env) {
      SolicitStartedOk(s.(ourIp := 0), env);
    } else {
      LeaseCheckedOk(s, env.now);
      var c := LeaseChecked(s, env.now);
      UnboundStartedOk(c, env);
      if c.lease.valid && BoundRenewOrRebind(c.cstate) && !w.bssidChanged {
        if InFuture(env.now, c.renewTime) {
          TimerSetOk(c, OnRenewRebind, true, c.renewTime, c.renewTime);
        } else {
          RenewStartedOk(c, env);
        }
      }
    }
  }

  lemma ReleaseStartedOk(s: State)
    requires Coherent(s) && Stateful(s.mode)
    ensures Coherent(ReleaseStarted(s))
  {
  }

  lemma ClientReleasedOk(s: State, env: Env)
    requires Inv(s)
    ensures Inv(ClientReleased(s, env))
  {
    if Stateful(s.mode) && !env.linkInactive {
      LeaseCheckedOk(s, env.now);
      ReleaseStartedOk(LeaseChecked(s, env.now));
    }
  }

  /** A client that goes tells its server so if and only if the link is up and its lease is still good. */
  lemma ReleaseTellsServerIff(s: State, env: Env)
    requires Inv(s) && s.lastSent != ReleaseMessage
    ensures ClientReleased(s, env).lastSent == ReleaseMessage <==>
            Stateful(s.mode) && !env.linkInactive && s.lease.valid && !Expired(s.lease, env.now)
    ensures Stateful(s.mode) && !env.linkInactive && s.lease.valid && !Expired(s.lease, env.now) ==>
              ClientReleased(s, env).ourIp == 0
  {
  }

  lemma StepKeepsInv(s: State, e: Event, env: Env)
    requires Inv(s) && Enabled(s, e)
    ensures Inv(Step(s, e, env))
  {
    match e
    case SetModeAndStart(m) =>
      var q := ModeSet(s, m);
      if q.mode == Stateless { InformStartedOk(q, env); } else { StatefulStartedOk(q, env); }
    case SetMode(m) =>
    case Stop =>
    case Discard =>
    case TimerFires => TimerRunOk(s, env);
    case Receive(p) => ReceivedOk(s, p, env);
    case AddressEvent => DeclineStartedOk(s, env);
    case WakeEvent(w) => WokenOk(s, w, env);
    case Roam => LeaseCheckedOk(s, env.now);
    case LinkActive => StatefulStartedOk(s, env);
    case Release => ClientReleasedOk(s, env);
  }

  // ---------------------------------------------------------------- every run

  datatype Happening = Happening(e: Event, env: Env)

  predicate CanRun(s: State, hs: seq<Happening>)
    decreases |hs|
  {
    hs == [] || (Enabled(s, hs[0].e) && CanRun(Step(s, hs[0].e, hs[0].env), hs[1..]))
  }

  function Run(s: State, hs: seq<Happening>): State
    requires CanRun(s, hs)
    decreases |hs|
  {
    if hs == [] then s else Run(Step(s, hs[0].e, hs[0].env), hs[1..])
  }

  lemma {:induction false} RunKeepsInv(s: State, hs: seq<Happening>)
    requires Inv(s) && CanRun(s, hs)
    ensures Inv(Run(s, hs))
    decreases |hs|
  {
    if hs != [] {
      StepKeepsInv(s, hs[0].e, hs[0].env);
      RunKeepsInv(Step(s, hs[0].e, hs[0].env), hs[1..]);
    }
  }

  /** Wherever a run from the start ends: the lease and its pointers agree with the saved packet, and a
      Request has all it needs to be sent. */
  lemma {:induction false} ReachableCoherent(hs: seq<Happening>)
    requires CanRun(Initial(), hs)
    ensures var s := Run(Initial(), hs);
            && (s.ia.Some? <==> s.address.Some?) && !s.nullDereference
            && (s.lease.valid || s.lease.times.valid != 0 ==>
                  s.saved.Some? && s.ia.Some? && Normal(s.lease.times)
                  && Choose(IAOf(s.saved.value, s.savedMode)) == Some(Chosen(s.ia.value, s.address.value)))
            && (s.cstate == Request ==> CanSend(s))
  {
    RunKeepsInv(Initial(), hs);
    var s := Run(Initial(), hs);
    if HasLease(s) {
      CoherentNormal(s);
    }
  }

  // ---------------------------------------------------------------- what Bound passes down

  /** A lease that has run out, or was cleared under Confirm, is never installed: the client unbinds. */
  lemma BoundUnbindsIff(s: State, env: Env)
    requires Coherent(s) && Stateful(s.mode)
    ensures BoundStarted(s, env).cstate == Solicit <==>
            s.lease.times.valid != INFINITE
            && (env.now < s.lease.start || env.now - s.lease.start >= s.lease.times.valid as real)
  {
    var b := BoundEntered(s);
    if HasLease(s) {
      var elapsed := if b.lease.times.valid == INFINITE then 0 else Elapsed(b.lease, env.now);
      InstalledOk(b, elapsed, env);
    }
  }

  /** When it is installed, what is passed down is what is left: at least a second of validity, a
      preferred lifetime no longer than that, and the same expiry to within the second. */
  lemma BoundInstallsWhatIsLeft(s: State, env: Env)
    requires Coherent(s) && Stateful(s.mode) && BoundStarted(s, env).cstate != Solicit
    ensures var q := BoundStarted(s, env); var l := s.lease;
            && q.installed.Some? && s.address.Some?
            && q.installed.value.address == s.address.value.address
            && 0 < q.installed.value.valid && q.installed.value.preferred <= q.installed.value.valid
            && (l.times.valid == INFINITE ==> q.installed.value.valid == q.installed.value.preferred == INFINITE)
            && (l.times.valid != INFINITE ==>
                  var expiry := l.start + l.times.valid as real;
                  expiry <= env.now + q.installed.value.valid as real < expiry + 1.0)
  {
    BoundUnbindsIff(s, env);
    assert HasLease(s);
    CoherentNormal(s);
    var b := BoundEntered(s);
    var elapsed := if b.lease.times.valid == INFINITE then 0 else Elapsed(b.lease, env.now);
    InstalledIs(b, elapsed, env);
  }

  lemma InstalledIs(s: State, elapsed: nat, env: Env)
    requires s.address.Some? && s.address.value.Address?
    ensures var forever := s.lease.times.valid == INFINITE;
            Installed(s, elapsed, env).installed ==
            Some(Install(s.address.value.address,
                         if forever then INFINITE else Left(s.lease.times.valid, elapsed),
                         if forever then s.lease.times.preferred else Left(s.lease.times.preferred, elapsed)))
  {
    var forever := s.lease.times.valid == INFINITE;
    var ip := s.address.value.address;
    var valid := if forever then INFINITE else Left(s.lease.times.valid, elapsed);
    var preferred := if forever then s.lease.times.preferred else Left(s.lease.times.preferred, elapsed);
    DeclineKeepsInstalled(s.(ourIp := ip, installed := Some(Install(ip, valid, preferred))), env);
  }

  lemma DeclineKeepsInstalled(s: State, env: Env)
    ensures DeclineStarted(s, env).installed == s.installed
  {
  }

  // ---------------------------------------------------------------- the expiry moves only with a packet

  /** Lifetimes and start unchanged, or the lease gone, or a packet saved now. */
  ghost predicate LeaseKept(s: State, q: State, p: Option<Packet>, env: Env) {
    || (q.lease.start == s.lease.start && q.lease.times == s.lease.times)
    || (q.lease.times == NoTimes && !q.lease.valid)
    || (p.Some? && q.saved == p && q.lease.start == env.now)
  }

  lemma BoundKeepsLease(s: State, env: Env)
    requires Coherent(s) && Stateful(s.mode)
    ensures var q := BoundStarted(s, env);
            (q.lease.start == s.lease.start && q.lease.times == s.lease.times && q.saved == s.saved)
            || (q.lease.times == NoTimes && !q.lease.valid)
  {
    var b := BoundEntered(s);
    if s.lease.times.valid == INFINITE || !Expired(s.lease, env.now) {
      assert HasLease(s);
      var elapsed := if b.lease.times.valid == INFINITE then 0 else Elapsed(b.lease, env.now);
      InstalledOk(b, elapsed, env);
      InstalledKeepsSaved(b, elapsed, env);
    } else {
      BoundUnbindsIff(s, env);
    }
  }

  lemma InstalledKeepsSaved(s: State, elapsed: nat, env: Env)
    ensures Installed(s, elapsed, env).cstate == Bound ==> Installed(s, elapsed, env).saved == s.saved
  {
  }

  lemma ReceivedKeepsLease(s: State, p: Packet, env: Env)
    requires Inv(s) && s.receive.Some?
    ensures LeaseKept(s, Received(s, p, env), Some(p), env)
  {
    if s.receive.value in {OnRequest, OnRenewRebind, OnConfirm} && Choose(IAOf(p, s.mode)).Some? && p.server.Some? {
      PacketSavedBacks(s, p, env);
      BoundKeepsLease(PacketSaved(s, p, env), env);
    }
    if s.receive.value == OnConfirm {
      BoundKeepsLease(s, env);
    }
    if s.receive.value == OnSolicit && Usable6(p, s.mode) {
      PacketSavedBacks(s, p, env);
    }
  }

  lemma RenewKeepsLease(s: State, env: Env)
    ensures LeaseKept(s, RenewTimedOut(s, env), None, env)
  {
  }

  lemma ConfirmKeepsLease(s: State, env: Env)
    requires Inv(s) && Stateful(s.mode)
    ensures LeaseKept(s, ConfirmTimedOut(s, env), None, env)
  {
    LeaseCheckedOk(s, env.now);
    BoundKeepsLease(LeaseChecked(s, env.now), env);
  }

  lemma TimerKeepsLease(s: State, env: Env)
    requires Inv(s) && s.timer.Some?
    ensures LeaseKept(s, TimerRun(s, env), None, env)
  {
    var q := s.(timer := None);
    match s.timer.value.handler
    case OnRenewRebind => RenewKeepsLease(if s.timer.value.start then RenewEntered(q, env) else q, env);
    case OnConfirm => ConfirmKeepsLease(q, env);
    case _ =>
  }

  lemma StartKeepsLease(s: State, env: Env)
    ensures LeaseKept(s, Started(s, env), None, env)
  {
  }

  lemma WakeKeepsLease(s: State, w: Wake, env: Env)
    ensures LeaseKept(s, Woken(s, w, env), None, env)
  {
    RenewKeepsLease(RenewEntered(LeaseChecked(s, env.now), env), env);
  }

  /** No wake, roam, Confirm or timer moves the moment a lease expires. */
  lemma ExpiryMovesOnlyWithAPacket(s: State, e: Event, env: Env)
    requires Inv(s) && Enabled(s, e)
    ensures LeaseKept(s, Step(s, e, env), if e.Receive? then Some(e.p) else None, env)
  {
    match e
    case TimerFires => TimerKeepsLease(s, env);
    case Receive(p) => ReceivedKeepsLease(s, p, env);
    case SetModeAndStart(m) => StartKeepsLease(ModeSet(s, m), env);
    case LinkActive => StartKeepsLease(s, env);
    case WakeEvent(w) => WakeKeepsLease(s, w, env);
    case _ =>
  }
}
