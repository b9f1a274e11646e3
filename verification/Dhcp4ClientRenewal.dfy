/**
 Renewal of a DHCPv4 lease: while an address is configured under a lease that ends, its renewal is on
 the way, unless a search for the router has come back without an answer.
 */
module Dhcp4ClientRenewal {
  import opened Common
  import opened Dhcp4Lease
  import opened Dhcp4Client
  import opened Dhcp4ClientLaws

  /** A lease that ends, with its address configured, in a state that renews. */
  predicate Holding(s: State) {
    && s.running && BoundRenewOrRebind(s.cstate)
    && s.held.valid && s.held.times.length != INFINITE && s.activeIp != 0
  }

  /** The renewal timer is set, or an ARP command is out whose result sets it. */
  predicate Coming(s: State) {
    || s.pending.timer == Some(RenewStart) || s.pending.timer == Some(RenewTimeout)
    || s.pending.arp == ArpBound || s.pending.arp == ArpCheckRouter
  }

  predicate Renewable(s: State) {
    && (s.pending.timer == Some(ResolveRetry) ==> s.resolveTimedOut)
    && (Holding(s) ==> Coming(s) || s.resolveTimedOut)
  }

  /** No search for the router times out on the way from `s` to `q`. */
  predicate StaysRenewable(s: State, q: State) { Renewable(q) && (q.resolveTimedOut ==> s.resolveTimedOut) }

  /** The search for the router comes back without an answer. */
  predicate Unanswered(s: State, e: Event) { e.ArpDone? && e.r == ArpNotInUse && s.pending.arp == ArpResolve }

  // ---------------------------------------------------------------- the handlers

  lemma UnboundRenewable(s: State)
    ensures StaysRenewable(s, UnboundStarted(s))
  {
  }

  lemma DeclineRenewable(s: State, env: Env)
    ensures StaysRenewable(s, DeclineStarted(s, env))
  {
  }

  lemma BoundFinishRenewable(s: State, env: Env)
    requires s.pending == Nothing
    ensures StaysRenewable(s, BoundFinished(s, env))
  {
    BoundSetsRenewalIff(s, env);
  }

  lemma BoundRenewable(s: State, env: Env)
    ensures StaysRenewable(s, BoundStarted(s, env))
  {
    var b := Canceled(s.(cstate := Bound, ignoreCollisions := true));
    assert b.pending == Nothing;
    BoundFinishRenewable(b, env);
    assert StaysRenewable(s, ArpStarted(b, ArpBound));
  }

  lemma InitNextRenewable(s: State, env: Env)
    requires s.cstate == Init
    ensures StaysRenewable(s, InitNext(s, env))
  {
    if s.tries > env.cfg.maxRetries + 1 && s.router.AllValid() {
      BoundRenewable(s, env);
    }
  }

  lemma InitTryRenewable(s: State, env: Env)
    requires s.cstate == Init
    ensures StaysRenewable(s, InitTry(s, env))
  {
    var t := s.(tries := s.tries + 1);
    if !(t.tries > 1 && LinkDown(env.link)) {
      var a := if t.tries >= env.cfg.arpAtRetry + 1 && !t.router.AllValid() then RouterArpStarted(t, env) else t;
      assert a.cstate == Init;
      InitNextRenewable(a, env);
    }
  }

  lemma InitRenewable(s: State, env: Env)
    ensures StaysRenewable(s, InitStarted(s, env))
  {
    InitTryRenewable(InitReady(InitEntered(s)), env);
  }

  lemma SelectTryRenewable(s: State, env: Env)
    requires s.cstate == Select
    ensures StaysRenewable(s, SelectTry(s, env))
  {
    InitRenewable(s.(tries := s.tries + 1), env);
  }

  lemma SelectRenewable(s: State, env: Env)
    ensures StaysRenewable(s, SelectStarted(s, env))
  {
    SelectTryRenewable(Receiving(Canceled(s.(cstate := Select)).(tries := 0, gathering := false), OnSelect), env);
  }

  lemma RebootNextRenewable(s: State, env: Env)
    requires s.cstate == InitReboot
    ensures StaysRenewable(s, RebootNext(s, env))
  {
    InitRenewable(AddressRemoved(s).(tries := s.tries - 1), env);
  }

  lemma RebootTryRenewable(s: State, env: Env)
    requires s.cstate == InitReboot
    ensures StaysRenewable(s, RebootTry(s, env))
  {
    RebootNextRenewable(RouterArpStarted(s.(tries := s.tries + 1), env), env);
  }

  lemma RebootRenewable(s: State, env: Env)
    ensures StaysRenewable(s, RebootStarted(s, env))
  {
    RebootTryRenewable(RebootReady(RebootEntered(s)), env);
  }

  lemma RenewTryRenewable(s: State, env: Env)
    ensures StaysRenewable(s, RenewTry(s, env))
  {
    UnboundRenewable(ClockCorrected(s, env));
  }

  lemma RenewRenewable(s: State, env: Env)
    ensures StaysRenewable(s, RenewStarted(s, env))
  {
    RenewTryRenewable(Receiving(RenewEntered(s).(tries := 0), OnRenewRebind), env);
  }

  lemma RestartedRenewable(s: State, renew: bool, env: Env)
    requires (s.cstate == Init || s.cstate == InitReboot) ==> PendingOk(s)
    ensures StaysRenewable(s, Restarted(s, renew, env))
  {
    if s.held.valid {
      RebootRenewable(s, env);
    } else {
      InitRenewable(s, env);
    }
  }

  lemma NetworkSwitchedSearch(s: State, env: Env)
    ensures NetworkSwitched(s, env).resolveTimedOut == s.resolveTimedOut
  {
  }

  lemma MacCheckedSearch(s: State, env: Env)
    ensures MacChecked(s, env).resolveTimedOut == s.resolveTimedOut
  {
  }

  lemma NetworkCheckedSearch(s: State, env: Env)
    ensures LeaseChecked(NetworkChecked(s, env), env.now).resolveTimedOut == s.resolveTimedOut
  {
    if NetworkChanged(s, env) {
      NetworkSwitchedSearch(s, env);
    } else {
      MacCheckedSearch(s, env);
    }
    assert NetworkChecked(s, env).resolveTimedOut == s.resolveTimedOut;
  }

  lemma RestartsOk(s: State, env: Env)
    requires Inv(s) && s.running
    ensures PendingOk(LeaseChecked(NetworkChecked(s, env), env.now))
  {
    NetworkCheckedOk(s, env);
    LeaseCheckedOk(NetworkChecked(s, env), env.now);
  }

  lemma LinkCheckedRenewable(s: State, renew: bool, env: Env)
    requires Inv(s) && s.running
    ensures StaysRenewable(s, LinkChecked(s, renew, env))
  {
    if !WaitsForLink(env) {
      var n := LeaseChecked(NetworkChecked(s, env), env.now);
      NetworkCheckedSearch(s, env);
      RestartsOk(s, env);
      RestartedRenewable(n, renew, env);
    }
  }

  lemma RouterCheckRenewable(s: State, env: Env)
    requires Renewable(s)
    ensures StaysRenewable(s, RouterCheckStarted(s, env))
  {
  }

  lemma WakeMaintainedRenewable(s: State, env: Env)
    requires Renewable(s)
    ensures StaysRenewable(s, WakeMaintained(s, env))
  {
    RenewRenewable(s, env);
  }

  lemma WokenRenewable(s: State, env: Env)
    requires Inv(s) && s.running && Renewable(s)
    ensures StaysRenewable(s, Woken(s, env))
  {
    if WakeLosesAddress(env) {
      LinkCheckedRenewable(AddressRemoved(s), false, env);
    } else {
      var c := LeaseChecked(s, env.now);
      if !c.held.valid {
        InitRenewable(c, env);
      } else if !BoundRenewOrRebind(c.cstate) || !env.published || c.resolveTimedOut {
        RebootRenewable(c, env);
      } else {
        assert c == s;
        RouterCheckRenewable(c, env);
        WakeMaintainedRenewable(if env.link.bssidChanged then RouterCheckStarted(c, env) else c, env);
      }
    }
  }

  lemma CheckRouterDoneRenewable(s: State, r: ArpResult, env: Env)
    requires Inv(s) && s.running && (s.pending.timer == Some(ResolveRetry) ==> s.resolveTimedOut)
    ensures StaysRenewable(s, CheckRouterDone(s, r, env))
  {
    if r != ArpInUse {
      LinkCheckedRenewable(s, false, env);
    } else {
      RenewRenewable(s, env);
    }
  }

  lemma BoundArpDoneRenewable(s: State, r: ArpResult, env: Env)
    ensures StaysRenewable(s, BoundArpDone(s, r, env))
  {
    match r
    case ArpError =>
    case ArpInUse => DeclineRenewable(RouterCleared(Invalidated(s)), env);
    case ArpNotInUse => BoundFinishRenewable(Canceled(s), env);
  }

  lemma RouterResolvedRenewable(s: State, r: ArpResult, hw: nat)
    requires Renewable(s)
    ensures Renewable(RouterResolved(s, r, hw))
    ensures r != ArpNotInUse ==> StaysRenewable(s, RouterResolved(s, r, hw))
  {
    if s.pending.timer == Some(RenewStart) {
      ResolveKeepsRenewalIff(s, r, hw);
    }
  }

  lemma RouterArpDoneRenewable(s: State, r: ArpResult, env: Env)
    requires PendingOk(s) && (s.cstate == Init || s.cstate == InitReboot)
    ensures StaysRenewable(s, RouterArpDone(s, r, env))
  {
    UnboundRenewable(s);
    if env.routerLease.Some? {
      var q := Switched(s, env.routerLease.value, env.isPrivate, false);
      assert q.cstate == s.cstate && q.pending == s.pending;
    }
  }

  lemma ArpFinishedRenewable(s: State, r: ArpResult, hw: nat, env: Env)
    requires Inv(s) && s.running && Renewable(s)
    ensures Renewable(ArpFinished(s, r, hw, env))
    ensures !Unanswered(s, ArpDone(r, hw)) ==> StaysRenewable(s, ArpFinished(s, r, hw, env))
  {
    var q := ArpStarted(s, NoArp);
    match s.pending.arp
    case NoArp =>
    case ArpRouter => RouterArpDoneRenewable(q, r, env);
    case ArpBound => BoundArpDoneRenewable(q, r, env);
    case ArpCheckRouter => CheckRouterDoneRenewable(q, r, env);
    case ArpResolve => RouterResolvedRenewable(q, r, hw);
  }

  lemma InitReceivedRenewable(s: State, p: Packet, env: Env)
    requires PendingOk(s) && s.cstate == Init
    ensures StaysRenewable(s, InitReceived(s, p, env))
  {
    SelectRenewable(PacketSaved(RouterCleared(s), p, p.rating, p.server, env.now), env);
  }

  lemma SelectReceivedRenewable(s: State, p: Packet, env: Env)
    requires PendingOk(s) && s.cstate == Select
    ensures StaysRenewable(s, SelectReceived(s, p, env))
  {
    BoundRenewable(PacketSaved(s, p, 0, if p.server != 0 then p.server else s.saved.server, env.now), env);
  }

  lemma RebootReceivedRenewable(s: State, p: Packet, env: Env)
    requires PendingOk(s) && s.cstate == InitReboot
    ensures StaysRenewable(s, RebootReceived(s, p, env))
  {
    if p.kind == Nak {
      UnboundRenewable(s);
    } else {
      BoundRenewable(PacketSaved(RouterCleared(s), p, p.rating, p.server, env.now), env);
    }
  }

  lemma RenewReceivedRenewable(s: State, p: Packet, env: Env)
    requires Renewable(s)
    ensures StaysRenewable(s, RenewReceived(s, p, env))
  {
    UnboundRenewable(s);
    BoundRenewable(PacketSaved(s, p, 0, p.server, env.now), env);
  }

  lemma ReceivedRenewable(s: State, p: Packet, env: Env)
    requires Inv(s) && s.pending.receive.Some? && Renewable(s)
    ensures StaysRenewable(s, Received(s, p, env))
  {
    match s.pending.receive.value
    case OnInit => InitReceivedRenewable(s, p, env);
    case OnInitReboot => RebootReceivedRenewable(s, p, env);
    case OnSelect => SelectReceivedRenewable(s, p, env);
    case OnRenewRebind => RenewReceivedRenewable(s, p, env);
  }

  lemma TimerRunRenewable(s: State, env: Env)
    requires Inv(s) && s.running && s.pending.timer.Some? && Renewable(s)
    ensures StaysRenewable(s, TimerRun(s, env))
  {
    var q := s.(pending := s.pending.(timer := None));
    match s.pending.timer.value
    case DelayedStart => LinkCheckedRenewable(q, false, env);
    case InitStart => InitRenewable(q, env);
    case InitTimeout => if q.gathering { SelectRenewable(q, env); } else { InitTryRenewable(q, env); }
    case RebootTimeout => if q.gathering { BoundRenewable(q, env); } else { RebootTryRenewable(q, env); }
    case SelectTimeout => SelectTryRenewable(q, env);
    case RenewStart => RenewRenewable(q, env);
    case RenewTimeout => RenewTryRenewable(q, env);
    case CheckLink => LinkCheckedRenewable(q, false, env);
    case WaitTimeout => LinkCheckedRenewable(q, false, env);
    case ResolveRetry => assert RouterResolving(q, env).pending.timer == None && q.resolveTimedOut;
  }

  lemma StepKeepsRenewable(s: State, e: Event, env: Env)
    requires Inv(s) && Renewable(s) && Enabled(s, e)
    ensures Renewable(Step(s, e, env))
    ensures !Unanswered(s, e) ==> StaysRenewable(s, Step(s, e, env))
  {
    match e
    case Start(recovered) =>
    case Stop =>
    case TimerFires => TimerRunRenewable(s, env);
    case Receive(p) => ReceivedRenewable(s, p, env);
    case ArpDone(r, hw) => ArpFinishedRenewable(s, r, hw, env);
    case Collision(ip) => DeclineRenewable(s, env);
    case LinkStatusChanged(renew) =>
      LinkCheckedRenewable(if env.link.networkChanged then AddressRemoved(s) else s, renew, env);
    case LinkTimerExpired =>
    case Wake => WokenRenewable(s, env);
    case BssidChanged => RouterCheckRenewable(s, env);
    case ForgetSsid(ssid) =>
  }

  /**
   While no search has timed out, one event takes the renewal of a lease that stays configured if and
   only if it is a search for the router coming back without an answer.
   */
  lemma RenewalLostIff(s: State, e: Event, env: Env)
    requires Inv(s) && Renewable(s) && Holding(s) && !s.resolveTimedOut && Enabled(s, e)
    ensures Holding(Step(s, e, env)) && !Coming(Step(s, e, env)) <==> Unanswered(s, e)
  {
    StepKeepsRenewable(s, e, env);
  }

  lemma {:induction false} RunKeepsRenewable(s: State, hs: seq<Happening>)
    requires Inv(s) && Renewable(s) && CanRun(s, hs)
    ensures Renewable(Run(s, hs))
    decreases |hs|
  {
    if hs != [] {
      StepKeepsInv(s, hs[0].e, hs[0].env);
      StepKeepsRenewable(s, hs[0].e, hs[0].env);
      RunKeepsRenewable(Step(s, hs[0].e, hs[0].env), hs[1..]);
    }
  }

  /** Over every run from the start: a configured lease that ends has its renewal coming unless a search
      for the router timed out. */
  lemma {:induction false} RenewalComing(hs: seq<Happening>)
    requires CanRun(Initial(), hs) && Holding(Run(Initial(), hs))
    requires !Run(Initial(), hs).resolveTimedOut
    ensures Coming(Run(Initial(), hs))
  {
    RunKeepsRenewable(Initial(), hs);
  }

  // ---------------------------------------------------------------- renewal lost

  /**
   After one search without an answer and a second with one, nothing is pending any more: the lease
   will be neither renewed nor, when it ends, given up, until some outside event comes.
   */
  lemma RenewalForgotten(s: State, env: Env, hw: nat)
    requires Inv(s) && s.running && s.cstate == Bound && s.activeIp != 0 && s.held.times.length != INFINITE
    requires s.pending == Pending(Some(RenewStart), None, ArpResolve)
    requires env.cfg.discoverRouter && s.router.ipValid
    ensures var one := Step(s, ArpDone(ArpNotInUse, 0), env);
            && Enabled(one, TimerFires) && one.pending.timer == Some(ResolveRetry)
            && var two := Step(one, TimerFires, env);
            && Enabled(two, ArpDone(ArpInUse, hw))
            && var three := Step(two, ArpDone(ArpInUse, hw), env);
            three.pending == Nothing && three.activeIp == s.activeIp && three.held == s.held
  {
  }

  const SPANS: Options := Options(Some(3600), None, None)
  const LEASED: Lease := Lease(0.0, 3600, 1800.0, 3150.0, 3600.0)
  const CONFIG: Config := Config(false, true, 3, 9, 2, 3)

  /** A wired network with an active link, a single DHCP server and a router. */
  const PLAIN: Env := Env(
    0.0, CONFIG, Link(true, true, true, false, false), false, true, false, None, None, 0,
    false, false, None, None, false, false, Some(254), true, false)

  const OFFER: Packet := Packet(Offer, 1, 20, true, SPANS, 5, false, false)
  const ACK: Packet := Packet(Ack, 1, 20, true, SPANS, 5, false, false)

  function At(e: Event): Happening { Happening(e, PLAIN) }

  const ANSWERED: seq<Happening> := [At(ArpDone(ArpInUse, 7))] + []
  const RETRIED: seq<Happening> := [At(TimerFires)] + ANSWERED
  const UNANSWERED: seq<Happening> := [At(ArpDone(ArpNotInUse, 0))] + RETRIED

  /** Start, link up, offer, acknowledgement, and then the rest. */
  function Bind(rest: seq<Happening>): seq<Happening> {
    [At(Start(None))] + ([At(TimerFires)] + ([At(Receive(OFFER))] + ([At(Receive(ACK))] + rest)))
  }

  /** No answer from the router, another try, an answer. */
  const LOSS: seq<Happening> := Bind(UNANSWERED)

  function JustStarted(): State {
    Fresh(0).(pending := Pending(Some(DelayedStart), None, NoArp), router := NoRouter)
  }

  function InInit(): State {
    Fresh(0).(cstate := Init, tries := 1, pending := Pending(Some(InitTimeout), Some(OnInit), NoArp))
  }

  function InSelect(): State {
    InInit().(cstate := Select, saved := Saved(20, 1, 5, true, false), held := NoLease.(times := LEASED),
                pending := Pending(Some(SelectTimeout), Some(OnSelect), NoArp))
  }

  function InBound(): State {
    InSelect().(cstate := Bound, saved := Saved(20, 1, 0, true, true), held := Held(true, LEASED, None, None, None),
                activeIp := 20, router := Router(254, 0, true, false, false), renewTime := 1800.0,
                pending := Pending(Some(RenewStart), None, ArpResolve))
  }

  lemma SpansLeased(now: real)
    requires now == 0.0
    ensures WithSpans(now, FromOptions(SPANS.lease, SPANS.t1, SPANS.t2)) == LEASED
  {
  }

  lemma StartReached()
    ensures Enabled(Initial(), Start(None)) && Step(Initial(), Start(None), PLAIN) == JustStarted()
    ensures Step(JustStarted(), TimerFires, PLAIN) == InInit()
  {
  }

  lemma OfferReached()
    ensures Step(InInit(), Receive(OFFER), PLAIN) == InSelect()
  {
    SpansLeased(PLAIN.now);
    var q := PacketSaved(RouterCleared(InInit()), OFFER, 5, 1, PLAIN.now);
    assert q == InInit().(saved := Saved(20, 1, 5, true, false), held := NoLease.(times := LEASED));
  }

  lemma AckReached()
    ensures Step(InSelect(), Receive(ACK), PLAIN) == InBound()
  {
    SpansLeased(PLAIN.now);
    var q := PacketSaved(InSelect(), ACK, 0, 1, PLAIN.now);
    assert q == InSelect().(saved := Saved(20, 1, 0, true, true));
  }

  lemma {:induction false} RunOne(s: State, h: Happening, hs: seq<Happening>)
    requires Enabled(s, h.e) && CanRun(Step(s, h.e, h.env), hs)
    ensures CanRun(s, [h] + hs) && Run(s, [h] + hs) == Run(Step(s, h.e, h.env), hs)
  {
    assert ([h] + hs)[1..] == hs;
  }

  lemma LossAfterBound()
    ensures CanRun(InBound(), UNANSWERED)
    ensures var s := Run(InBound(), UNANSWERED);
            s.pending == Nothing && s.activeIp == 20 && s.held == InBound().held && s.cstate == Bound && s.running
  {
    assert Inv(InBound());
    RenewalForgotten(InBound(), PLAIN, 7);
    var one := Step(InBound(), ArpDone(ArpNotInUse, 0), PLAIN);
    var two := Step(one, TimerFires, PLAIN);
    assert Step(two, ArpDone(ArpInUse, 7), PLAIN).cstate == Bound;
    RunOne(two, At(ArpDone(ArpInUse, 7)), []);
    RunOne(one, At(TimerFires), ANSWERED);
    RunOne(InBound(), At(ArpDone(ArpNotInUse, 0)), RETRIED);
  }

  lemma {:induction false} BoundRuns(rest: seq<Happening>)
    requires CanRun(InBound(), rest)
    ensures CanRun(Initial(), Bind(rest)) && Run(Initial(), Bind(rest)) == Run(InBound(), rest)
  {
    var acked := [At(Receive(ACK))] + rest;
    var offered := [At(Receive(OFFER))] + acked;
    StartReached();
    OfferReached();
    AckReached();
    RunOne(InSelect(), At(Receive(ACK)), rest);
    RunOne(InInit(), At(Receive(OFFER)), acked);
    RunOne(JustStarted(), At(TimerFires), offered);
    RunOne(Initial(), At(Start(None)), [At(TimerFires)] + offered);
  }

  /** A run from the start at whose end an hour's lease is configured and nothing at all is pending. */
  lemma RenewalLost()
    ensures CanRun(Initial(), LOSS)
    ensures var s := Run(Initial(), LOSS);
            && Holding(s) && s.pending == Nothing && !Coming(s)
            && s.activeIp == 20 && s.held.times == LEASED
            && !Enabled(s, TimerFires) && !Enabled(s, Receive(ACK)) && !Enabled(s, ArpDone(ArpInUse, 7))
  {
    LossAfterBound();
    BoundRuns(UNANSWERED);
  }

  // ---------------------------------------------------------------- when nobody answers

  /** The renewal timer is all the client waits for, apart from packets. */
  predicate Waiting(s: State) {
    && s.running && s.pending.arp == NoArp
    && (s.pending.timer == Some(RenewStart) || s.pending.timer == Some(RenewTimeout))
  }

  predicate Quiet(env: Env) { !env.jumped && !env.buildFails }

  /** What happens by itself while neither server nor router answers. */
  predicate Unheard(h: Happening) {
    Quiet(h.env) && (h.e == TimerFires || (h.e.ArpDone? && h.e.r == ArpNotInUse))
  }

  /** Unbound: no address, no lease, and the search for a new one about to start. */
  predicate GivenUp(s: State) {
    s.cstate == Unbound && s.activeIp == 0 && !s.held.valid && s.pending == Pending(Some(InitStart), None, NoArp)
  }

  /** These things may happen one after another until the lease is given up. */
  predicate CanWait(s: State, hs: seq<Happening>)
    decreases |hs|
  {
    hs == [] || GivenUp(s) || (Enabled(s, hs[0].e) && CanWait(Step(s, hs[0].e, hs[0].env), hs[1..]))
  }

  /** What they lead to. */
  function Alone(s: State, hs: seq<Happening>): State
    requires CanWait(s, hs)
    decreases |hs|
  {
    if hs == [] || GivenUp(s) then s else Alone(Step(s, hs[0].e, hs[0].env), hs[1..])
  }

  ghost predicate AllUnheard(hs: seq<Happening>) {
    forall k :: 0 <= k < |hs| ==> Unheard(hs[k])
  }

  /** A minute or more apart, as the timer is always set, up to the end of the lease. */
  ghost predicate UpToTheEnd(l: Lease, hs: seq<Happening>) {
    && hs != [] && hs[0].env.now + MIN_WAIT * (|hs| - 1) as real >= l.expiration
    && forall k :: 0 <= k < |hs| - 1 ==> hs[k].env.now + MIN_WAIT <= hs[k + 1].env.now
  }

  /** One turn of the wait from `s` to `q`. */
  predicate TurnTaken(s: State, q: State, now: real) {
    if now >= s.held.times.expiration then GivenUp(q)
    else Waiting(q) && q.held == s.held && q.activeIp == s.activeIp && q.renewTime >= now + MIN_WAIT
  }

  lemma RenewTryTakesTurn(s: State, env: Env)
    requires s.running && s.pending.arp == NoArp && Quiet(env)
    ensures TurnTaken(s, RenewTry(s, env), env.now)
  {
    assert ClockCorrected(s, env) == s;
  }

  lemma RenewStartTakesTurn(s: State, env: Env)
    requires s.running && Quiet(env)
    ensures TurnTaken(s, RenewStarted(s, env), env.now)
  {
    RenewTryTakesTurn(Receiving(RenewEntered(s).(tries := 0), OnRenewRebind), env);
  }

  /** A firing without an answer gives the lease up at its end, and before that keeps it and waits again;
      a search for the router under way is given up with the first. */
  lemma RenewalFires(s: State, env: Env)
    requires s.running && Quiet(env)
    requires s.pending.timer == Some(RenewStart) || (s.pending.timer == Some(RenewTimeout) && s.pending.arp == NoArp)
    ensures TurnTaken(s, Step(s, TimerFires, env), env.now)
  {
    var q := s.(pending := s.pending.(timer := None));
    if s.pending.timer == Some(RenewStart) {
      RenewStartTakesTurn(q, env);
    } else {
      RenewTryTakesTurn(q, env);
    }
  }

  lemma UpToTheEndTail(l: Lease, hs: seq<Happening>)
    requires UpToTheEnd(l, hs) && hs[0].env.now < l.expiration
    ensures UpToTheEnd(l, hs[1..])
  {
    assert |hs| > 1 && hs[0].env.now + MIN_WAIT <= hs[1].env.now;
    forall k | 0 <= k < |hs[1..]| - 1 ensures hs[1..][k].env.now + MIN_WAIT <= hs[1..][k + 1].env.now {
      assert hs[k + 1].env.now + MIN_WAIT <= hs[k + 2].env.now;
    }
  }

  /** Once a turn is taken nothing but the timer is left to happen, and the last turn gives the lease up. */
  lemma {:induction false} TurnsGiveUp(s: State, hs: seq<Happening>)
    requires s.running && CanWait(s, hs) && AllUnheard(hs) && UpToTheEnd(s.held.times, hs)
    requires s.pending.timer == Some(RenewStart) || (s.pending.timer == Some(RenewTimeout) && s.pending.arp == NoArp)
    requires hs[0].e == TimerFires
    ensures GivenUp(Alone(s, hs))
    decreases |hs|
  {
    var now := hs[0].env.now;
    var q := Step(s, TimerFires, hs[0].env);
    RenewalFires(s, hs[0].env);
    if now < s.held.times.expiration {
      UpToTheEndTail(s.held.times, hs);
      assert hs[1..][0] == hs[1];
      TurnsGiveUp(q, hs[1..]);
    }
  }

  /** A server that stays silent to the end of the lease: the client ends in Unbound, holding nothing. */
  lemma {:induction false} SilentServerUnbinds(s: State, hs: seq<Happening>)
    requires Waiting(s) && CanWait(s, hs) && AllUnheard(hs) && UpToTheEnd(s.held.times, hs)
    ensures GivenUp(Alone(s, hs))
  {
    TurnsGiveUp(s, hs);
  }

  // ---------------------------------------------------------------- a router that never answers

  /** The search for the router and its retry timer take turns, or nothing is pending at all. */
  predicate Stranded(s: State) {
    && s.running && s.held.valid
    && ((s.pending.timer == Some(ResolveRetry) && s.pending.arp == NoArp)
        || (s.pending.timer == None && (s.pending.arp == ArpResolve || s.pending.arp == NoArp)))
  }

  predicate SameHolding(s: State, q: State) {
    q.held == s.held && q.activeIp == s.activeIp && q.cstate == s.cstate && q.saved == s.saved
  }

  lemma StrandedStays(s: State, h: Happening)
    requires Stranded(s) && Unheard(h) && Enabled(s, h.e)
    ensures Stranded(Step(s, h.e, h.env)) && SameHolding(s, Step(s, h.e, h.env))
  {
  }

  /** Over any number of rounds and whatever the clock says, the lease is neither renewed nor given up. */
  lemma {:induction false} StrandedForever(s: State, hs: seq<Happening>)
    requires Stranded(s) && CanWait(s, hs) && AllUnheard(hs)
    ensures Stranded(Alone(s, hs)) && SameHolding(s, Alone(s, hs)) && !GivenUp(Alone(s, hs))
    decreases |hs|
  {
    if hs != [] {
      StrandedStays(s, hs[0]);
      StrandedForever(Step(s, hs[0].e, hs[0].env), hs[1..]);
    }
  }

  /** So many rounds: the search comes back without an answer, its retry timer fires. */
  function Rounds(n: nat, env: Env): seq<Happening> {
    if n == 0 then [] else [Happening(ArpDone(ArpNotInUse, 0), env)] + ([Happening(TimerFires, env)] + Rounds(n - 1, env))
  }

  predicate Searching(s: State) {
    s.running && s.held.valid && s.pending.arp == ArpResolve && s.router.ipValid
  }

  lemma OneRound(s: State, env: Env)
    requires Searching(s) && env.cfg.discoverRouter
    ensures var one := Step(s, ArpDone(ArpNotInUse, 0), env);
            && Enabled(one, TimerFires)
            && Searching(Step(one, TimerFires, env)) && SameHolding(s, Step(one, TimerFires, env))
  {
  }

  /** A router that never answers keeps the client going round, with the same lease, at any clock reading. */
  lemma {:induction false} RoundsGoOn(s: State, n: nat, env: Env)
    requires Searching(s) && env.cfg.discoverRouter
    ensures CanRun(s, Rounds(n, env))
    ensures Searching(Run(s, Rounds(n, env))) && SameHolding(s, Run(s, Rounds(n, env)))
    decreases n
  {
    if n > 0 {
      var one := Step(s, ArpDone(ArpNotInUse, 0), env);
      var rest := Rounds(n - 1, env);
      OneRound(s, env);
      RoundsGoOn(Step(one, TimerFires, env), n - 1, env);
      RunOne(one, Happening(TimerFires, env), rest);
      RunOne(s, Happening(ArpDone(ArpNotInUse, 0), env), [Happening(TimerFires, env)] + rest);
    }
  }

  /** Runs from the start: an hour's lease is still configured after any number of rounds, at any time. */
  lemma {:induction false} LeaseOutlived(n: nat, now: real)
    ensures var hs := Bind(Rounds(n, PLAIN.(now := now)));
            && CanRun(Initial(), hs)
            && var s := Run(Initial(), hs);
            s.activeIp == 20 && s.held.valid && s.held.times == LEASED && s.cstate == Bound
  {
    RoundsGoOn(InBound(), n, PLAIN.(now := now));
    BoundRuns(Rounds(n, PLAIN.(now := now)));
  }

  /** A search that comes back without an answer before the renewal timer fires strands the lease. */
  lemma {:induction false} SearchStrands(s: State, hs: seq<Happening>)
    requires s.running && s.held.valid && s.pending.arp == ArpResolve
    requires CanWait(s, hs) && AllUnheard(hs) && hs != [] && hs[0].e.ArpDone?
    ensures Stranded(Alone(s, hs)) && SameHolding(s, Alone(s, hs)) && !GivenUp(Alone(s, hs))
  {
    var q := Step(s, hs[0].e, hs[0].env);
    assert Stranded(q) && SameHolding(s, q);
    StrandedForever(q, hs[1..]);
  }

  /**
   After any run from the start, nobody answering a client that holds a lease, neither the server to its end
   nor the router: the lease is given up if and only if no search for the router is under way, or the
   renewal timer fires before that search comes back.
   */
  lemma {:induction false} HeldLeaseIsGivenUpIff(before: seq<Happening>, hs: seq<Happening>)
    requires CanRun(Initial(), before)
    requires var s := Run(Initial(), before);
             && Holding(s) && !s.resolveTimedOut && s.pending.arp != ArpBound && s.pending.arp != ArpCheckRouter
             && CanWait(s, hs) && UpToTheEnd(s.held.times, hs)
    requires AllUnheard(hs)
    ensures var s := Run(Initial(), before);
            GivenUp(Alone(s, hs)) <==> s.pending.arp != ArpResolve || hs[0].e == TimerFires
  {
    var s := Run(Initial(), before);
    RunKeepsRenewable(Initial(), before);
    RunKeepsInv(Initial(), before);
    GivenUpIff(s, hs);
  }

  lemma {:induction false} GivenUpIff(s: State, hs: seq<Happening>)
    requires Inv(s) && Renewable(s) && Holding(s) && !s.resolveTimedOut
    requires s.pending.arp != ArpBound && s.pending.arp != ArpCheckRouter
    requires CanWait(s, hs) && AllUnheard(hs) && UpToTheEnd(s.held.times, hs)
    ensures GivenUp(Alone(s, hs)) <==> s.pending.arp != ArpResolve || hs[0].e == TimerFires
  {
    assert Unheard(hs[0]) && !GivenUp(s);
    assert s.pending.arp == ArpResolve || s.pending.arp == NoArp;
    if hs[0].e == TimerFires {
      TurnsGiveUp(s, hs);
    } else {
      SearchStrands(s, hs);
    }
  }
}
