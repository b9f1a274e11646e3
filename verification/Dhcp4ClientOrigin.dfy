/**
 Where a configured DHCPv4 address comes from: a server acknowledged it, or it belongs to a stored lease;
 unless a router's answer names a stored lease for the very address a server has only offered.
 */
module Dhcp4ClientOrigin {
  import opened Common
  import opened Dhcp4Lease
  import opened Dhcp4Client
  import opened Dhcp4ClientLaws
  import Renewal = Dhcp4ClientRenewal

  /** What was only offered is not in use, no router vouches for it, and no state that uses it is entered. */
  predicate Earned(s: State) {
    !s.saved.granted ==>
      && s.activeIp == 0 && !s.router.ipValid && !BoundRenewOrRebind(s.cstate)
      && (s.cstate == InitReboot ==> !s.gathering)
  }

  /** A router's answer names a stored lease for an address that was only offered. */
  predicate Unearned(s: State, e: Event, env: Env) {
    && e.ArpDone? && e.r == ArpInUse && s.pending.arp == ArpRouter && env.routerLease.Some?
    && !s.saved.granted && SameLease(s, env.routerLease.value, env.isPrivate)
    && (if s.cstate == Init then !s.gathering else !s.gotNak)
  }

  // ---------------------------------------------------------------- the handlers

  lemma UnboundEarned(s: State)
    requires Earned(s)
    ensures Earned(UnboundStarted(s))
  {
  }

  lemma DeclineEarned(s: State, env: Env)
    requires Earned(s)
    ensures Earned(DeclineStarted(s, env))
  {
  }

  lemma BoundFinishEarned(s: State, env: Env)
    requires s.saved.granted
    ensures BoundFinished(s, env).saved.granted
  {
  }

  lemma BoundEarned(s: State, env: Env)
    requires s.saved.granted
    ensures BoundStarted(s, env).saved.granted
  {
    BoundFinishEarned(Canceled(s.(cstate := Bound, ignoreCollisions := true)), env);
  }

  lemma InitNextEarned(s: State, env: Env)
    requires Earned(s) && s.cstate == Init
    ensures Earned(InitNext(s, env))
  {
    if s.tries > env.cfg.maxRetries + 1 && s.router.AllValid() {
      BoundEarned(s, env);
    }
  }

  lemma InitTryEarned(s: State, env: Env)
    requires Earned(s) && s.cstate == Init
    ensures Earned(InitTry(s, env))
  {
    var t := s.(tries := s.tries + 1);
    if !(t.tries > 1 && LinkDown(env.link)) {
      var a := if t.tries >= env.cfg.arpAtRetry + 1 && !t.router.AllValid() then RouterArpStarted(t, env) else t;
      assert Earned(a) && a.cstate == Init;
      InitNextEarned(a, env);
    }
  }

  lemma InitEarned(s: State, env: Env)
    requires Earned(s)
    ensures Earned(InitStarted(s, env))
  {
    InitTryEarned(InitReady(InitEntered(s)), env);
  }

  lemma SelectTryEarned(s: State, env: Env)
    requires Earned(s)
    ensures Earned(SelectTry(s, env))
  {
    InitEarned(s.(tries := s.tries + 1), env);
  }

  lemma SelectEarned(s: State, env: Env)
    requires Earned(s)
    ensures Earned(SelectStarted(s, env))
  {
    SelectTryEarned(Receiving(Canceled(s.(cstate := Select)).(tries := 0, gathering := false), OnSelect), env);
  }

  lemma RebootNextEarned(s: State, env: Env)
    requires Earned(s)
    ensures Earned(RebootNext(s, env))
  {
    InitEarned(AddressRemoved(s).(tries := s.tries - 1), env);
  }

  lemma RebootTryEarned(s: State, env: Env)
    requires Earned(s)
    ensures Earned(RebootTry(s, env))
  {
    var t := RouterArpStarted(s.(tries := s.tries + 1), env);
    assert Earned(t);
    RebootNextEarned(t, env);
  }

  lemma RebootEarned(s: State, env: Env)
    requires Earned(s)
    ensures Earned(RebootStarted(s, env))
  {
    RebootTryEarned(RebootReady(RebootEntered(s)), env);
  }

  lemma RestartedEarned(s: State, renew: bool, env: Env)
    requires Earned(s)
    ensures Earned(Restarted(s, renew, env))
  {
    if s.held.valid {
      RebootEarned(s, env);
    } else {
      InitEarned(s, env);
    }
  }

  lemma MacCheckedEarned(s: State, env: Env)
    requires Earned(s)
    ensures Earned(MacChecked(s, env))
  {
  }

  lemma SwitchedEarned(s: State, l: Stored, isPrivate: bool, loading: bool)
    requires Earned(s)
    ensures Earned(Switched(s, l, isPrivate, loading))
  {
    if !SameLease(s, l, isPrivate) {
      assert Switched(s, l, isPrivate, loading).saved.granted;
    }
  }

  lemma NetworkSwitchedEarned(s: State, env: Env)
    requires Earned(s)
    ensures Earned(NetworkSwitched(s, env))
  {
    if env.wifiLease.Some? {
      SwitchedEarned(s, env.wifiLease.value, env.isPrivate, false);
    } else {
      assert Earned(LeaseDropped(s));
    }
  }

  lemma NetworkCheckedEarned(s: State, env: Env)
    requires Earned(s)
    ensures Earned(NetworkChecked(s, env))
  {
    MacCheckedEarned(s, env);
    NetworkSwitchedEarned(s, env);
  }

  lemma LinkCheckedEarned(s: State, renew: bool, env: Env)
    requires Earned(s)
    ensures Earned(LinkChecked(s, renew, env))
  {
    if !WaitsForLink(env) {
      NetworkCheckedEarned(s, env);
      var n := LeaseChecked(NetworkChecked(s, env), env.now);
      assert Earned(n);
      RestartedEarned(n, renew, env);
    }
  }

  lemma RenewTryEarned(s: State, env: Env)
    requires s.saved.granted
    ensures RenewTry(s, env).saved.granted
  {
    var c := ClockCorrected(s, env);
    assert c.saved.granted;
  }

  lemma RenewEarned(s: State, env: Env)
    requires s.saved.granted
    ensures RenewStarted(s, env).saved.granted
  {
    RenewTryEarned(Receiving(RenewEntered(s).(tries := 0), OnRenewRebind), env);
  }

  lemma MaintainedOnWakeEarned(c: State, env: Env)
    requires c.saved.granted
    ensures WakeMaintained(if env.link.bssidChanged then RouterCheckStarted(c, env) else c, env).saved.granted
  {
    var q := if env.link.bssidChanged then RouterCheckStarted(c, env) else c;
    assert q.saved == c.saved;
    RenewEarned(q, env);
  }

  lemma WokenEarned(s: State, env: Env)
    requires Earned(s)
    ensures Earned(Woken(s, env))
  {
    if WakeLosesAddress(env) {
      LinkCheckedEarned(AddressRemoved(s), false, env);
    } else {
      var c := LeaseChecked(s, env.now);
      assert Earned(c);
      if !c.held.valid {
        InitEarned(c, env);
      } else if !BoundRenewOrRebind(c.cstate) || !env.published || c.resolveTimedOut {
        RebootEarned(c, env);
      } else if env.link.bssidChanged && ResolveStarts(c, env) {
        assert RouterCheckStarted(c, env).saved == c.saved;
      } else {
        MaintainedOnWakeEarned(c, env);
      }
    }
  }

  lemma InitReceivedEarned(s: State, p: Packet, env: Env)
    requires Earned(s) && s.cstate == Init && s.activeIp == 0
    ensures Earned(InitReceived(s, p, env))
  {
    var q := PacketSaved(RouterCleared(s), p, p.rating, p.server, env.now);
    assert Earned(q);
    SelectEarned(q, env);
  }

  lemma SelectReceivedEarned(s: State, p: Packet, env: Env)
    requires Earned(s)
    ensures Earned(SelectReceived(s, p, env))
  {
    if p.kind == Ack {
      BoundEarned(PacketSaved(s, p, 0, if p.server != 0 then p.server else s.saved.server, env.now), env);
    }
  }

  lemma RebootReceivedEarned(s: State, p: Packet, env: Env)
    requires Earned(s)
    ensures Earned(RebootReceived(s, p, env))
  {
    UnboundEarned(s);
    if p.kind == Ack {
      BoundEarned(PacketSaved(RouterCleared(s), p, p.rating, p.server, env.now), env);
    }
  }

  lemma RenewReceivedEarned(s: State, p: Packet, env: Env)
    requires Earned(s)
    ensures Earned(RenewReceived(s, p, env))
  {
    UnboundEarned(s);
    if p.kind == Ack {
      BoundEarned(PacketSaved(s, p, 0, p.server, env.now), env);
    }
  }

  lemma ReceivedEarned(s: State, p: Packet, env: Env)
    requires Inv(s) && Earned(s) && s.pending.receive.Some?
    ensures Earned(Received(s, p, env))
  {
    match s.pending.receive.value
    case OnInit => InitReceivedEarned(s, p, env);
    case OnInitReboot => RebootReceivedEarned(s, p, env);
    case OnSelect => SelectReceivedEarned(s, p, env);
    case OnRenewRebind => RenewReceivedEarned(s, p, env);
  }

  /** The one place where an offered address can come into use. */
  lemma RouterArpDoneEarnedIff(s: State, r: ArpResult, env: Env)
    requires Earned(s) && (s.cstate == Init || s.cstate == InitReboot)
    ensures Earned(RouterArpDone(s, r, env)) <==>
            !(r == ArpInUse && env.routerLease.Some? && !s.saved.granted
              && SameLease(s, env.routerLease.value, env.isPrivate)
              && (if s.cstate == Init then !s.gathering else !s.gotNak))
  {
    UnboundEarned(s);
  }

  lemma CheckRouterDoneEarned(s: State, r: ArpResult, env: Env)
    requires Earned(s) && s.saved.granted
    ensures Earned(CheckRouterDone(s, r, env))
  {
    if r != ArpInUse {
      LinkCheckedEarned(s, false, env);
    } else {
      RenewEarned(s, env);
    }
  }

  lemma BoundArpDoneEarned(s: State, r: ArpResult, env: Env)
    requires Earned(s) && s.saved.granted
    ensures Earned(BoundArpDone(s, r, env))
  {
    DeclineEarned(RouterCleared(Invalidated(s)), env);
    BoundFinishEarned(Canceled(s), env);
  }

  lemma ArpFinishedEarnedIff(s: State, r: ArpResult, hw: nat, env: Env)
    requires Inv(s) && Earned(s)
    ensures Earned(ArpFinished(s, r, hw, env)) <==> !Unearned(s, ArpDone(r, hw), env)
  {
    var q := ArpStarted(s, NoArp);
    match s.pending.arp
    case NoArp =>
    case ArpRouter => RouterArpDoneEarnedIff(q, r, env);
    case ArpBound => BoundArpDoneEarned(q, r, env);
    case ArpCheckRouter => CheckRouterDoneEarned(q, r, env);
    case ArpResolve =>
  }

  lemma TimerRunEarned(s: State, env: Env)
    requires Inv(s) && Earned(s) && s.pending.timer.Some?
    ensures Earned(TimerRun(s, env))
  {
    var q := s.(pending := s.pending.(timer := None));
    match s.pending.timer.value
    case DelayedStart => LinkCheckedEarned(q, false, env);
    case InitStart => InitEarned(q, env);
    case InitTimeout => if q.gathering { SelectEarned(q, env); } else { InitTryEarned(q, env); }
    case RebootTimeout => if q.gathering { BoundEarned(q, env); } else { RebootTryEarned(q, env); }
    case SelectTimeout => SelectTryEarned(q, env);
    case RenewStart => RenewEarned(q, env);
    case RenewTimeout => RenewTryEarned(q, env);
    case CheckLink => LinkCheckedEarned(q, false, env);
    case WaitTimeout => LinkCheckedEarned(q, false, env);
    case ResolveRetry =>
  }

  lemma StartedUpEarned(s: State, recovered: Option<Stored>, isPrivate: bool)
    requires s.activeIp == 0
    ensures Earned(StartedUp(s, recovered, isPrivate))
  {
  }

  lemma ForgottenEarned(s: State, ssid: nat, env: Env)
    requires Earned(s)
    ensures Earned(Forgotten(s, ssid, env))
  {
    assert Earned(Released(s, env));
  }

  // ---------------------------------------------------------------- every run

  /** Every event keeps it, but for a router's answer that names a stored lease for an offered address. */
  lemma StepKeepsEarnedIff(s: State, e: Event, env: Env)
    requires Inv(s) && (s.running ==> Earned(s)) && Enabled(s, e)
    ensures (Step(s, e, env).running ==> Earned(Step(s, e, env))) <==> !Unearned(s, e, env)
  {
    match e
    case Start(recovered) => StartedUpEarned(s, recovered, env.isPrivate);
    case Stop =>
    case TimerFires => TimerRunEarned(s, env);
    case Receive(p) => ReceivedEarned(s, p, env);
    case ArpDone(r, hw) => ArpFinishedEarnedIff(s, r, hw, env);
    case Collision(ip) => DeclineEarned(s, env);
    case LinkStatusChanged(renew) =>
      LinkCheckedEarned(if env.link.networkChanged then AddressRemoved(s) else s, renew, env);
    case LinkTimerExpired =>
    case Wake => WokenEarned(s, env);
    case BssidChanged =>
    case ForgetSsid(ssid) => ForgottenEarned(s, ssid, env);
  }

  predicate AllEarned(s: State, hs: seq<Happening>)
    requires CanRun(s, hs)
    decreases |hs|
  {
    hs == [] || (!Unearned(s, hs[0].e, hs[0].env) && AllEarned(Step(s, hs[0].e, hs[0].env), hs[1..]))
  }

  lemma {:induction false} RunKeepsEarned(s: State, hs: seq<Happening>)
    requires Inv(s) && (s.running ==> Earned(s)) && CanRun(s, hs) && AllEarned(s, hs)
    ensures Run(s, hs).running ==> Earned(Run(s, hs))
    decreases |hs|
  {
    if hs != [] {
      StepKeepsInv(s, hs[0].e, hs[0].env);
      StepKeepsEarnedIff(s, hs[0].e, hs[0].env);
      RunKeepsEarned(Step(s, hs[0].e, hs[0].env), hs[1..]);
    }
  }

  /** Over every run from the start without such an answer, a configured address was granted: acknowledged
      by a server, or recovered with its lease. */
  lemma {:induction false} ConfiguredWasGranted(hs: seq<Happening>)
    requires CanRun(Initial(), hs) && AllEarned(Initial(), hs)
    ensures var s := Run(Initial(), hs);
            s.activeIp != 0 ==> s.saved.granted && s.held.valid && s.activeIp == s.saved.ip
  {
    RunKeepsEarned(Initial(), hs);
    RunKeepsInv(Initial(), hs);
  }
  // ---------------------------------------------------------------- an offer taken for a lease

  /** A stored lease for the address the server offers; its router is there, its time is not looked at. */
  const STORED: Stored := Stored(20, 0.0, Renewal.SPANS, 1, None, None, 254, Some(7), None)

  /** A public network; routers of stored leases are probed at once, and every search is short. */
  const PUBLIC: Env := Renewal.PLAIN.(cfg := Config(true, true, 0, 0, 0, 0), isPrivate := false,
                                      leasesToTry := true, routerLease := Some(STORED))

  const IDEAL: Packet := Renewal.OFFER.(ideal := true)

  function Here(e: Event): Happening { Happening(e, PUBLIC) }

  const BOUND: seq<Happening> := [Here(TimerFires)] + []
  const VOUCHED: seq<Happening> := [Here(ArpDone(ArpInUse, 7))] + BOUND
  const BACK: seq<Happening> := [Here(TimerFires)] + VOUCHED
  const OFFERED: seq<Happening> := [Here(Receive(IDEAL))] + BACK
  const LINKED: seq<Happening> := [Here(TimerFires)] + OFFERED

  /** Start, link up, offer, no answer to the request, an answer from a stored lease's router, no offer. */
  const UNGRANTED: seq<Happening> := [Here(Start(None))] + LINKED

  function Started(): State {
    Fresh(0).(pending := Pending(Some(DelayedStart), None, NoArp))
  }

  function Probing(): State {
    Fresh(0).(cstate := Init, tries := 1, pending := Pending(Some(InitTimeout), Some(OnInit), ArpRouter))
  }

  function Requesting(): State {
    Fresh(0).(cstate := Select, tries := 1, saved := Saved(20, 1, 5, true, false),
              held := NoLease.(times := Renewal.LEASED), pending := Pending(Some(SelectTimeout), Some(OnSelect), NoArp))
  }

  function ProbingAgain(): State {
    Probing().(saved := Saved(20, 1, 0, true, false), held := NoLease.(times := Renewal.LEASED))
  }

  function Verified(): State {
    ProbingAgain().(router := Router(0, 0, true, true, true), pending := Pending(Some(InitTimeout), Some(OnInit), NoArp))
  }

  lemma ProbingReached()
    ensures Enabled(Initial(), Start(None)) && Step(Initial(), Start(None), PUBLIC) == Started()
    ensures Step(Started(), TimerFires, PUBLIC) == Probing()
  {
  }

  lemma RequestingReached()
    ensures Step(Probing(), Receive(IDEAL), PUBLIC) == Requesting()
  {
    Renewal.SpansLeased(PUBLIC.now);
    var q := PacketSaved(RouterCleared(Probing()), IDEAL, 5, 1, PUBLIC.now);
    assert q == Probing().(saved := Saved(20, 1, 5, true, false), held := NoLease.(times := Renewal.LEASED));
  }

  lemma VerifiedReached()
    ensures Step(Requesting(), TimerFires, PUBLIC) == ProbingAgain()
    ensures Step(ProbingAgain(), ArpDone(ArpInUse, 7), PUBLIC) == Verified()
    ensures Unearned(ProbingAgain(), ArpDone(ArpInUse, 7), PUBLIC)
  {
  }

  lemma BoundReached()
    ensures var s := Step(Verified(), TimerFires, PUBLIC);
            && s.activeIp == 20 && s.cstate == Bound && s.held.valid && s.held.times == Renewal.LEASED
            && !s.saved.granted
  {
  }

  /** A run from the start with one offer and no acknowledgement, at whose end the offered address is
      configured for the time that was offered. */
  lemma OfferConfigured()
    ensures CanRun(Initial(), UNGRANTED)
    ensures var s := Run(Initial(), UNGRANTED);
            && s.activeIp == 20 && s.cstate == Bound && s.held.valid && s.held.times == Renewal.LEASED
            && !s.saved.granted
  {
    ProbingReached();
    RequestingReached();
    VerifiedReached();
    BoundReached();
    OfferRuns();
  }

  lemma OfferRuns()
    requires Enabled(Initial(), Start(None)) && Step(Initial(), Start(None), PUBLIC) == Started()
    requires Step(Started(), TimerFires, PUBLIC) == Probing()
    requires Step(Probing(), Receive(IDEAL), PUBLIC) == Requesting()
    requires Step(Requesting(), TimerFires, PUBLIC) == ProbingAgain()
    requires Step(ProbingAgain(), ArpDone(ArpInUse, 7), PUBLIC) == Verified()
    ensures CanRun(Initial(), UNGRANTED)
    ensures Run(Initial(), UNGRANTED) == Step(Verified(), TimerFires, PUBLIC)
  {
    Renewal.RunOne(Verified(), Here(TimerFires), []);
    Renewal.RunOne(ProbingAgain(), Here(ArpDone(ArpInUse, 7)), BOUND);
    Renewal.RunOne(Requesting(), Here(TimerFires), VOUCHED);
    Renewal.RunOne(Probing(), Here(Receive(IDEAL)), BACK);
    Renewal.RunOne(Started(), Here(TimerFires), OFFERED);
    Renewal.RunOne(Initial(), Here(Start(None)), LINKED);
  }
}
