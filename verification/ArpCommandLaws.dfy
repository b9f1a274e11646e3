/** One ARP command from start to callback: how far it can run, what it sends and what it reports. */
module ArpCommandLaws {
  import opened Common
  import opened Filtering
  import opened ArpSession
  import opened ArpSessionLaws

  // ---------------------------------------------------------------- how far a command can run

  /** What the pending timer can still do before the command is over. */
  function TimerPart(cfg: Config, c: Client): int {
    match c.timer
    case None => 0
    case Some(ProbeStart) => cfg.Cycle() + 2
    case Some(ProbeRetransmit) => cfg.Cycle() + 1 - c.tries
    case Some(ResolveRetransmit) => c.resolveSecs + 1 - c.tries
    case Some(DetectRetransmit) => cfg.detects + 1 - c.tries
  }

  function RestartPart(cfg: Config, c: Client): nat {
    (cfg.conflictRetries - Min(c.conflicts, cfg.conflictRetries)) * (cfg.Cycle() + 3)
  }

  /** Bounds the timer firings, callbacks and conflict restarts left to a client's command. */
  function Budget(cfg: Config, c: Client): int {
    (if c.active then 1 else 0) + TimerPart(cfg, c) + RestartPart(cfg, c)
  }

  lemma BudgetNatural(cfg: Config, c: Client)
    requires ClientOk(cfg, c)
    ensures Budget(cfg, c) >= if c.active then 1 else 0
  {
  }

  /** The client's own turns: its timer, its callback, or a conflict that restarts it. */
  predicate Turn(cfg: Config, s: Session, e: Event, i: nat)
    requires i < |s.clients|
  {
    match e
    case TimerFires(k, _) => k == i
    case CallbackFires(k) => k == i
    case Deliver(p) => RestartIndex(cfg, s.clients, p, 0) == i
    case _ => false
  }

  /** The event gives the client a new command, or takes the client away. */
  predicate Ends(e: Event, i: nat) {
    match e
    case Free(k) => k == i
    case StartProbe(k, _, _, _, _) => k == i
    case StartAnnounce(k, _, _, _, _, _) => k == i
    case StartResolve(k, _, _, _, _, _) => k == i
    case StartDetect(k, _, _, _) => k == i
    case _ => false
  }

  /** Where the client is after the event: freeing one before it moves it down. */
  function After(e: Event, i: nat): nat {
    if e.Free? && e.i < i then i - 1 else i
  }

  predicate Concerning(e: Event, i: nat) {
    match e
    case NewClient(_) => false
    case Deliver(_) => true
    case ReadError => true
    case _ => e.i == i
  }

  predicate SameAt(s: Session, r: Session, i: nat) {
    |r.clients| == |s.clients| && i < |s.clients| && r.clients[i] == s.clients[i]
  }

  lemma CanceledElsewhere(s: Session, k: nat, i: nat)
    requires k < |s.clients| && i < |s.clients| && k != i
    ensures SameAt(s, Canceled(s, k), i)
  {
  }

  lemma ReadyElsewhere(s: Session, k: nat, i: nat, prepare: Client -> Client, bpf: bool)
    requires k < |s.clients| && i < |s.clients| && k != i
    ensures SameAt(s, Prepared(s, k, prepare), i)
    ensures SameAt(s, FdOpened(Prepared(s, k, prepare), k, bpf), i)
  {
    CanceledElsewhere(s, k, i);
  }

  lemma ProbeElsewhere(cfg: Config, s: Session, k: nat, i: nat, sender: Ip, target: Ip,
                       announce: bool, skip: bool, bpf: bool, written: bool)
    requires k < |s.clients| && i < |s.clients| && k != i
    ensures SameAt(s, ProbeBegun(cfg, s, k, sender, target, announce, skip, bpf, written), i)
  {
    ReadyElsewhere(s, k, i, ProbeContext(cfg, sender, target, announce, skip), bpf);
  }

  lemma ResolveElsewhere(s: Session, k: nat, i: nat, sender: Ip, target: Ip, secs: UInt32, bpf: bool, written: bool)
    requires k < |s.clients| && i < |s.clients| && k != i
    ensures SameAt(s, ResolveBegun(s, k, sender, target, secs, bpf, written), i)
  {
    ReadyElsewhere(s, k, i, ResolveContext(sender, target), bpf);
  }

  lemma DetectElsewhere(cfg: Config, s: Session, k: nat, i: nat, list: seq<Address>, bpf: bool, written: bool)
    requires k < |s.clients| && i < |s.clients| && k != i
    ensures SameAt(s, DetectBegun(cfg, s, k, list, bpf, written), i)
  {
    ReadyElsewhere(s, k, i, DetectContext(), bpf);
  }

  lemma DefendElsewhere(s: Session, k: nat, i: nat, ip: Ip, bpf: bool)
    requires k < |s.clients| && i < |s.clients| && k != i
    ensures SameAt(s, Defended(s, k, ip, bpf), i)
  {
    CanceledElsewhere(s, k, i);
  }

  lemma TurnElsewhere(cfg: Config, s: Session, k: nat, i: nat, written: bool)
    requires k < |s.clients| && i < |s.clients| && k != i
    ensures s.clients[k].timer.Some? ==> SameAt(s, TimerFired(cfg, s, k, written), i)
    ensures SameAt(s, CalledBack(s, k), i)
  {
  }

  /** An event aimed at one client leaves every other client as it was. */
  lemma OthersUntouched(cfg: Config, s: Session, e: Event, i: nat)
    requires Enabled(s, e) && i < |s.clients| && !Concerning(e, i)
    ensures After(e, i) < |Step(cfg, s, e).clients|
    ensures Step(cfg, s, e).clients[After(e, i)] == s.clients[i]
  {
    match e
    case NewClient(_) =>
    case Free(k) => CanceledElsewhere(s, k, i);
    case StartProbe(k, sender, target, bpf, written) =>
      ProbeElsewhere(cfg, s, k, i, sender, target, false, false, bpf, written);
    case StartAnnounce(k, sender, target, skip, bpf, written) =>
      ProbeElsewhere(cfg, s, k, i, sender, target, true, skip, bpf, written);
    case StartResolve(k, sender, target, secs, bpf, written) =>
      ResolveElsewhere(s, k, i, sender, target, secs, bpf, written);
    case StartDetect(k, list, bpf, written) => DetectElsewhere(cfg, s, k, i, list, bpf, written);
    case Cancel(k) => CanceledElsewhere(s, k, i);
    case Defend(k, ip, bpf) => DefendElsewhere(s, k, i, ip, bpf);
    case TimerFires(k, written) => TurnElsewhere(cfg, s, k, i, written);
    case CallbackFires(k) => TurnElsewhere(cfg, s, k, i, false);
  }

  /** What a retransmission may leave: the command goes on, with at most so much for its timer to do. */
  predicate GoesOn(cfg: Config, c: Client, r: Client, most: int) {
    && r.active && r.fdOpen == c.fdOpen && (c.callback ==> r.callback)
    && r.calls == c.calls && r.conflicts == c.conflicts && TimerPart(cfg, r) <= most
  }

  lemma ProbeTurn(cfg: Config, c: Client, written: bool)
    requires c.active && c.timer == None && c.tries <= cfg.Cycle()
    ensures GoesOn(cfg, c, ProbeRetransmitted(cfg, c, written), cfg.Cycle() - c.tries)
  {
  }

  lemma ResolveTurn(cfg: Config, c: Client, written: bool)
    requires c.active && c.timer == None && c.tries <= c.resolveSecs
    ensures GoesOn(cfg, c, ResolveRetransmitted(c, written), c.resolveSecs - c.tries)
  {
  }

  lemma DetectTurn(cfg: Config, c: Client, written: bool)
    requires c.active && c.timer == None && c.tries <= cfg.detects
    ensures GoesOn(cfg, c, DetectRetransmitted(cfg, c, written), cfg.detects - c.tries)
  {
  }

  lemma TimerTurn(cfg: Config, c: Client, written: bool)
    requires ClientOk(cfg, c) && c.timer.Some?
    ensures var r := Retransmitted(cfg, c.(timer := None), c.timer.value, written);
            && Budget(cfg, r) < Budget(cfg, c) && r.active && r.calls == c.calls
            && r.fdOpen == c.fdOpen && (c.callback ==> r.callback)
  {
    var d := c.(timer := None);
    var r := Retransmitted(cfg, d, c.timer.value, written);
    match c.timer.value {
    case ProbeStart => ProbeTurn(cfg, d.(tries := 0, status := Unknown, cycle := []), written);
    case ProbeRetransmit => ProbeTurn(cfg, d, written);
    case ResolveRetransmit => ResolveTurn(cfg, d, written);
    case DetectRetransmit => DetectTurn(cfg, d, written);
    }
    assert GoesOn(cfg, c, r, TimerPart(cfg, c) - 1);
    assert RestartPart(cfg, r) == RestartPart(cfg, c);
  }

  lemma PacketTurn(cfg: Config, c: Client, p: Packet)
    requires ClientOk(cfg, c)
    ensures var r := Touched(cfg, c, p);
            && Budget(cfg, r) + (if Restarts(cfg, c, p) then 1 else 0) <= Budget(cfg, c)
            && r.active == c.active && r.calls == c.calls
  {
    MinMonotone(c.conflicts, cfg.conflictRetries, cfg.Cycle() + 3);
    if Restarts(cfg, c, p) {
      MinGrows(c.conflicts, cfg.conflictRetries, cfg.Cycle() + 3);
    }
    RestartPartIs(cfg, c);
    RestartPartIs(cfg, Touched(cfg, c, p));
  }

  lemma RestartPartIs(cfg: Config, c: Client)
    ensures RestartPart(cfg, c) ==
            cfg.conflictRetries * (cfg.Cycle() + 3) - Min(c.conflicts, cfg.conflictRetries) * (cfg.Cycle() + 3)
  {
  }

  /** The budget is spent, the callback made and the client silenced as the event demands. */
  ghost predicate Spends(cfg: Config, c: Client, d: Client, turn: bool, call: bool) {
    && Budget(cfg, d) + (if turn then 1 else 0) <= Budget(cfg, c)
    && d.calls == c.calls + (if call then 1 else 0)
    && (d.active ==> c.active)
  }

  lemma SilentSpends(cfg: Config, c: Client)
    requires ClientOk(cfg, c)
    ensures Spends(cfg, c, Silent(c), false, false)
    ensures forall ip :: Spends(cfg, c, Silent(c).(senderIp := ip, targetIp := ip), false, false)
  {
  }

  lemma CalledBackSpends(cfg: Config, s: Session, i: nat)
    requires Inv(cfg, s) && i < |s.clients| && s.clients[i].callback
    ensures Spends(cfg, s.clients[i], CalledBack(s, i).clients[i], true, true)
  {
    CalledBackCounts(s, i);
    assert RestartPart(cfg, Heard(s.clients[i])) == RestartPart(cfg, s.clients[i]);
  }

  lemma {:induction false} DeliveredSpends(cfg: Config, s: Session, p: Packet, i: nat)
    requires Inv(cfg, s) && !StrayRestart(cfg, s.clients, p) && i < |s.clients|
    ensures Spends(cfg, s.clients[i], Delivered(cfg, s.clients, p)[i], RestartIndex(cfg, s.clients, p, 0) == i, false)
  {
    PacketTurn(cfg, s.clients[i], p);
  }

  /**
   Every turn of a client uses up its budget and nothing but a new command refills it; a callback is
   made exactly on the callback's turn, and an idle client stays idle.
   */
  lemma StepSpendsBudget(cfg: Config, s: Session, e: Event, i: nat)
    requires Inv(cfg, s) && Enabled(s, e) && !Stray(cfg, s, e)
    requires i < |s.clients| && !Ends(e, i)
    ensures After(e, i) < |Step(cfg, s, e).clients|
    ensures Spends(cfg, s.clients[i], Step(cfg, s, e).clients[After(e, i)], Turn(cfg, s, e, i), e == CallbackFires(i))
  {
    if !Concerning(e, i) {
      OthersUntouched(cfg, s, e, i);
    } else {
      SilentSpends(cfg, s.clients[i]);
      match e
      case Cancel(_) => CanceledCounts(s, i);
      case Defend(_, ip, bpf) => DefendSilences(s, i, ip, bpf);
      case TimerFires(_, written) => TimerTurn(cfg, s.clients[i], written);
      case CallbackFires(_) => CalledBackSpends(cfg, s, i);
      case Deliver(p) => DeliveredSpends(cfg, s, p, i);
      case ReadError =>
    }
  }

  lemma DefendSilences(s: Session, i: nat, ip: Ip, bpf: bool)
    requires Counted(s) && i < |s.clients|
    ensures var c, d := s.clients[i], Defended(s, i, ip, bpf).clients[i];
            d == Silent(c) || d == Silent(c).(senderIp := ip, targetIp := ip)
  {
    CanceledCounts(s, i);
    OpenedCounts(Canceled(s, i), i, bpf);
    var q := Canceled(s, i);
    if OpenSucceeds(q, i, bpf) {
      var o := FdOpened(q, i, bpf);
      var c := o.clients[i].(senderIp := ip, targetIp := ip);
      TriedCounts(o, i, true, c);
      ClosedCounts(Tried(o, i, true, c), i);
    }
  }

  // ---------------------------------------------------------------- what the invariant means for a caller

  predicate NeverEnds(es: seq<Event>, i: nat) {
    es == [] || (!Ends(es[0], i) && NeverEnds(es[1..], After(es[0], i)))
  }

  function Place(es: seq<Event>, i: nat): nat {
    if es == [] then i else Place(es[1..], After(es[0], i))
  }

  function Turns(cfg: Config, s: Session, es: seq<Event>, i: nat): nat
    requires CanRun(cfg, s, es)
    decreases |es|
  {
    if es == [] then 0
    else (if i < |s.clients| && Turn(cfg, s, es[0], i) then 1 else 0)
         + Turns(cfg, Step(cfg, s, es[0]), es[1..], After(es[0], i))
  }

  function Callbacks(es: seq<Event>, i: nat): nat {
    if es == [] then 0
    else (if es[0] == CallbackFires(i) then 1 else 0) + Callbacks(es[1..], After(es[0], i))
  }

  /** Some event of the run canceled the client, or defended an address with it. */
  predicate Silenced(es: seq<Event>, i: nat) {
    es != [] && (es[0] == Cancel(i) || (es[0].Defend? && es[0].i == i) || Silenced(es[1..], After(es[0], i)))
  }

  /** A command ends only in its callback or by being canceled. */
  lemma StaysActive(cfg: Config, s: Session, e: Event, i: nat)
    requires Inv(cfg, s) && Enabled(s, e) && !Stray(cfg, s, e) && i < |s.clients| && !Ends(e, i)
    requires s.clients[i].active && e != CallbackFires(i) && e != Cancel(i) && !(e.Defend? && e.i == i)
    ensures After(e, i) < |Step(cfg, s, e).clients| && Step(cfg, s, e).clients[After(e, i)].active
  {
    if !Concerning(e, i) {
      OthersUntouched(cfg, s, e, i);
    } else if e.TimerFires? {
      TimerTurn(cfg, s.clients[i], e.written);
    }
  }

  /**
   One command over any run: its turns are bounded from the start, at most one of them is a
   callback, and a client that is idle (canceled, or already called back) never hears again.
   */
  lemma {:induction false} CommandIsBounded(cfg: Config, s: Session, es: seq<Event>, i: nat)
    requires Inv(cfg, s) && CanRun(cfg, s, es) && i < |s.clients| && NeverEnds(es, i)
    ensures Place(es, i) < |Run(cfg, s, es).clients|
    ensures var c, d := s.clients[i], Run(cfg, s, es).clients[Place(es, i)];
            && Turns(cfg, s, es, i) <= Budget(cfg, c) - Budget(cfg, d)
            && Callbacks(es, i) <= (if c.active then 1 else 0)
            && (d.active ==> c.active && Callbacks(es, i) == 0)
    decreases |es|
  {
    if es != [] {
      var next := Step(cfg, s, es[0]);
      StepKeepsInv(cfg, s, es[0]);
      StepSpendsBudget(cfg, s, es[0], i);
      CallbackSilences(cfg, s, es[0], i);
      CommandIsBounded(cfg, next, es[1..], After(es[0], i));
    }
  }

  lemma CallbackSilences(cfg: Config, s: Session, e: Event, i: nat)
    requires Inv(cfg, s) && Enabled(s, e) && i < |s.clients|
    ensures e == CallbackFires(i) ==> s.clients[i].active && !Step(cfg, s, e).clients[i].active
  {
    if e == CallbackFires(i) {
      assert Alive(s.clients[i]);
      assert !CalledBack(s, i).clients[i].active;
    }
  }

  /** A command that ended without being canceled made its callback, once. */
  lemma {:induction false} CommandEndsInItsCallback(cfg: Config, s: Session, es: seq<Event>, i: nat)
    requires Inv(cfg, s) && CanRun(cfg, s, es) && i < |s.clients| && NeverEnds(es, i)
    requires s.clients[i].active && !Silenced(es, i)
    ensures Place(es, i) < |Run(cfg, s, es).clients|
    ensures Callbacks(es, i) == 1 <==> !Run(cfg, s, es).clients[Place(es, i)].active
    decreases |es|
  {
    if es != [] {
      var next := Step(cfg, s, es[0]);
      StepKeepsInv(cfg, s, es[0]);
      StepSpendsBudget(cfg, s, es[0], i);
      CallbackSilences(cfg, s, es[0], i);
      if es[0] == CallbackFires(i) {
        CommandIsBounded(cfg, next, es[1..], i);
      } else {
        StaysActive(cfg, s, es[0], i);
        CommandEndsInItsCallback(cfg, next, es[1..], After(es[0], i));
      }
    }
  }

  /** An active command always has a turn of its own to take. */
  lemma NeverStuck(cfg: Config, s: Session, i: nat)
    requires Inv(cfg, s) && i < |s.clients| && s.clients[i].active
    ensures Enabled(s, TimerFires(i, true)) || Enabled(s, CallbackFires(i))
    ensures Budget(cfg, s.clients[i]) > 0
  {
    BudgetNatural(cfg, s.clients[i]);
  }

  /** One command sends at most one cycle of packets, and one more for every conflict retry, by the time
      it ends as at any time before. */
  lemma {:induction false} ProbePacketsBounded(cfg: Config, s: Session, es: seq<Event>, i: nat)
    requires Inv(cfg, s) && CanRun(cfg, s, es)
    requires i < |Run(cfg, s, es).clients|
    ensures Bounded(cfg, Run(cfg, s, es).clients[i])
  {
    RunKeepsInv(cfg, s, es);
    ClientBounded(cfg, Run(cfg, s, es), i);
  }

  lemma ClientBounded(cfg: Config, s: Session, i: nat)
    requires Inv(cfg, s) && i < |s.clients|
    ensures Bounded(cfg, s.clients[i])
  {
    assert ClientOk(cfg, s.clients[i]);
  }

  /** A probe announces nothing until every plain probe of the current cycle has gone out. */
  lemma {:induction false} ProbesBeforeAnnouncements(cfg: Config, s: Session, es: seq<Event>, i: nat)
    requires Inv(cfg, s) && CanRun(cfg, s, es)
    requires i < |Run(cfg, s, es).clients|
    ensures var c := Run(cfg, s, es).clients[i];
            c.fdOpen && c.command == Probe && c.probing && Gratuitous in c.cycle ==>
              && cfg.probes < |c.cycle| <= cfg.Cycle()
              && (forall k :: 0 <= k < |c.cycle| ==> (c.cycle[k] == Plain <==> k < cfg.probes))
  {
    RunKeepsInv(cfg, s, es);
    assert ClientOk(cfg, Run(cfg, s, es).clients[i]);
  }

  // ---------------------------------------------------------------- results a timer overwrites

  /** Whether the retransmission sends (or skips) a packet rather than ending the command. */
  predicate KeepsGoing(cfg: Config, c: Client, t: Timer, written: bool) {
    match t
    case ProbeStart => cfg.Cycle() > 0 && (written || c.skipFirst)
    case ProbeRetransmit => c.tries < cfg.Cycle() && (written || c.skipFirst)
    case ResolveRetransmit => ResolveTriesLeft(c) > 0 && written
    case DetectRetransmit => c.tries < cfg.detects && (written || c.detectList == [])
  }

  lemma StatusAfterTimer(cfg: Config, c: Client, t: Timer, written: bool)
    ensures Retransmitted(cfg, c, t, written).status == InUse <==>
            c.status == InUse && t != ProbeStart && KeepsGoing(cfg, c, t, written)
  {
    match t
    case ProbeStart => StatusAfterProbe(cfg, c.(tries := 0, status := Unknown, cycle := []), written);
    case ProbeRetransmit => StatusAfterProbe(cfg, c, written);
    case ResolveRetransmit =>
    case DetectRetransmit =>
  }

  lemma StatusAfterProbe(cfg: Config, c: Client, written: bool)
    ensures ProbeRetransmitted(cfg, c, written).status == InUse <==>
            c.status == InUse && c.tries < cfg.Cycle() && (written || c.skipFirst)
  {
  }

  /** The event takes a found answer away from the client before its callback is made: its own timer
      ends or restarts the cycle, or reading fails. */
  predicate Spoils(cfg: Config, s: Session, e: Event, i: nat)
    requires Enabled(s, e) && i < |s.clients|
  {
    match e
    case TimerFires(k, written) =>
      k == i && !(s.clients[i].timer != Some(ProbeStart)
                  && KeepsGoing(cfg, s.clients[i], s.clients[i].timer.value, written))
    case ReadError => s.clients[i].active
    case _ => false
  }

  /** A packet reaches the client and answers it, or conflicts with it, anew. */
  predicate Finds(cfg: Config, s: Session, e: Event, i: nat)
    requires i < |s.clients|
  {
    e.Deliver? && i <= RestartIndex(cfg, s.clients, e.p, 0) && Concerns(s.clients[i], e.p)
  }

  /** The run leaves the client its command and its callback to come. */
  predicate Waits(cfg: Config, s: Session, es: seq<Event>, i: nat)
    requires CanRun(cfg, s, es)
    decreases |es|
  {
    i < |s.clients|
    && (es == [] ||
        (var e := es[0];
         && !Ends(e, i) && e != CallbackFires(i) && e != Cancel(i) && !(e.Defend? && e.i == i)
         && Waits(cfg, Step(cfg, s, e), es[1..], After(e, i))))
  }

  /** The last event of the run that found or spoiled an answer found one; `known` if there is none. */
  predicate Answered(cfg: Config, s: Session, es: seq<Event>, i: nat, known: bool)
    requires CanRun(cfg, s, es) && Waits(cfg, s, es, i)
    decreases |es|
  {
    if es == [] then known
    else Answered(cfg, Step(cfg, s, es[0]), es[1..], After(es[0], i),
                  Finds(cfg, s, es[0], i) || (known && !Spoils(cfg, s, es[0], i)))
  }

  lemma StepKeepsAnswerIff(cfg: Config, s: Session, e: Event, i: nat)
    requires Inv(cfg, s) && Enabled(s, e) && !Stray(cfg, s, e) && i < |s.clients|
    requires s.clients[i].callback && !Ends(e, i) && e != CallbackFires(i) && e != Cancel(i) && !(e.Defend? && e.i == i)
    ensures After(e, i) < |Step(cfg, s, e).clients|
    ensures var c, d := s.clients[i], Step(cfg, s, e).clients[After(e, i)];
            d.callback && (d.status == InUse <==> Finds(cfg, s, e, i) || (c.status == InUse && !Spoils(cfg, s, e, i)))
  {
    if !Concerning(e, i) {
      OthersUntouched(cfg, s, e, i);
    } else if e.TimerFires? {
      var c := s.clients[i];
      TimerTurn(cfg, c, e.written);
      StatusAfterTimer(cfg, c.(timer := None), c.timer.value, e.written);
      assert ResolveTriesLeft(c.(timer := None)) == ResolveTriesLeft(c);
    }
  }

  /**
   A client whose callback is yet to come, over any run up to that callback: the callback will be made, and
   it reports an answer if and only if the last event that found or spoiled one found it.
   */
  lemma {:induction false} AnswerReportedIff(cfg: Config, s: Session, es: seq<Event>, i: nat)
    requires Inv(cfg, s) && CanRun(cfg, s, es) && Waits(cfg, s, es, i)
    requires s.clients[i].callback
    ensures var q := Run(cfg, s, es); var k := Place(es, i);
            && k < |q.clients| && Enabled(q, CallbackFires(k))
            && (q.clients[k].status == InUse <==> Answered(cfg, s, es, i, s.clients[i].status == InUse))
    decreases |es|
  {
    if es != [] {
      StepKeepsInv(cfg, s, es[0]);
      StepKeepsAnswerIff(cfg, s, es[0], i);
      AnswerReportedIff(cfg, Step(cfg, s, es[0]), es[1..], After(es[0], i));
    }
  }

  // ---------------------------------------------------------------- an answer lost

  const RESOLVE: Event := StartResolve(0, 5, 9, 1, true, true)
  const ANSWER: Packet := Packet(Reply, false, 9, 5, [1, 2, 3, 4, 5, 6])
  const LOSS: seq<Event> := [NewClient(false), RESOLVE, Deliver(ANSWER), TimerFires(0, true)]

  function Asked(): Client {
    Idle.(command := Resolve, status := Unknown, fdOpen := true, active := true, tries := 1,
          timer := Some(ResolveRetransmit), senderIp := 5, targetIp := 9, resolveSecs := 1)
  }

  lemma AskedReached(cfg: Config)
    ensures Enabled(Initial, NewClient(false)) && Enabled(Step(cfg, Initial, NewClient(false)), RESOLVE)
    ensures Step(cfg, Step(cfg, Initial, NewClient(false)), RESOLVE) == Session([Asked()], 1, true, true, false)
  {
    var s := Step(cfg, Initial, NewClient(false));
    assert s == Session([Idle], 0, false, false, false);
    assert Canceled(s, 0).clients[0] == Idle.(status := NoStatus);
    var q := Prepared(s, 0, ResolveContext(5, 9));
    assert q == Session([Idle.(active := true, senderIp := 5, targetIp := 9)], 0, false, false, false);
    var o := FdOpened(q, 0, true);
    assert o == Session([Idle.(active := true, senderIp := 5, targetIp := 9, fdOpen := true)], 1, true, true, false);
  }

  function Found(): Client {
    Asked().(inUse := Address(5, 9, [1, 2, 3, 4, 5, 6]), status := InUse, callback := true)
  }

  lemma FoundReached(cfg: Config)
    ensures var asked := Session([Asked()], 1, true, true, false);
            && Enabled(asked, Deliver(ANSWER)) && !Stray(cfg, asked, Deliver(ANSWER))
            && Step(cfg, asked, Deliver(ANSWER)) == Session([Found()], 1, true, true, false)
  {
    var asked := Session([Asked()], 1, true, true, false);
    assert Match(Asked(), ANSWER) == Some(Found().inUse);
    assert Touched(cfg, Asked(), ANSWER) == Found();
    assert !Restarts(cfg, Asked(), ANSWER) && RestartIndex(cfg, asked.clients, ANSWER, 0) == 1;
    assert Delivered(cfg, asked.clients, ANSWER) == [Found()];
  }

  lemma LostReached(cfg: Config)
    ensures var s := Session([Found()], 1, true, true, false);
            && Enabled(s, TimerFires(0, true))
            && Step(cfg, s, TimerFires(0, true)) ==
               Session([Found().(timer := None, status := NotInUse)], 1, true, true, false)
  {
    assert ResolveTriesLeft(Found().(timer := None)) == 0;
  }

  /** A run from the start in which the owner of the address has answered, and yet the callback to come
      says that nobody did. */
  lemma {:induction false} AnswerLost(cfg: Config)
    ensures CanRun(cfg, Initial, LOSS) && CanRun(cfg, Initial, LOSS[..3])
    ensures Run(cfg, Initial, LOSS[..3]).clients == [Found()] && Found().status == InUse && Found().callback
    ensures Run(cfg, Initial, LOSS).clients == [Found().(timer := None, status := NotInUse)]
    ensures Enabled(Run(cfg, Initial, LOSS), CallbackFires(0))
  {
    AskedReached(cfg);
    FoundReached(cfg);
    LostReached(cfg);
    LossRuns(cfg, Session([Found()], 1, true, true, false),
             Session([Found().(timer := None, status := NotInUse)], 1, true, true, false));
  }

  lemma {:induction false} LossRuns(cfg: Config, s3: Session, s4: Session)
    requires Enabled(Initial, NewClient(false)) && Enabled(Step(cfg, Initial, NewClient(false)), RESOLVE)
    requires var asked := Step(cfg, Step(cfg, Initial, NewClient(false)), RESOLVE);
             Enabled(asked, Deliver(ANSWER)) && !Stray(cfg, asked, Deliver(ANSWER)) && Step(cfg, asked, Deliver(ANSWER)) == s3
    requires Enabled(s3, TimerFires(0, true)) && Step(cfg, s3, TimerFires(0, true)) == s4
    ensures CanRun(cfg, Initial, LOSS) && Run(cfg, Initial, LOSS) == s4
    ensures CanRun(cfg, Initial, LOSS[..3]) && Run(cfg, Initial, LOSS[..3]) == s3
  {
    var s1 := Step(cfg, Initial, NewClient(false));
    var s2 := Step(cfg, s1, RESOLVE);
    RunOne(cfg, s3, TimerFires(0, true), []);
    RunOne(cfg, s2, Deliver(ANSWER), [TimerFires(0, true)]);
    RunOne(cfg, s1, RESOLVE, [Deliver(ANSWER), TimerFires(0, true)]);
    RunOne(cfg, Initial, NewClient(false), [RESOLVE, Deliver(ANSWER), TimerFires(0, true)]);
    RunOne(cfg, s2, Deliver(ANSWER), []);
    RunOne(cfg, s1, RESOLVE, [Deliver(ANSWER)]);
    RunOne(cfg, Initial, NewClient(false), [RESOLVE, Deliver(ANSWER)]);
    assert LOSS == [NewClient(false)] + [RESOLVE, Deliver(ANSWER), TimerFires(0, true)];
    assert LOSS[..3] == [NewClient(false)] + [RESOLVE, Deliver(ANSWER)];
    assert [RESOLVE, Deliver(ANSWER), TimerFires(0, true)] == [RESOLVE] + [Deliver(ANSWER), TimerFires(0, true)];
    assert [RESOLVE, Deliver(ANSWER)] == [RESOLVE] + [Deliver(ANSWER)];
    assert [Deliver(ANSWER), TimerFires(0, true)] == [Deliver(ANSWER)] + [TimerFires(0, true)];
    assert [Deliver(ANSWER)] == [Deliver(ANSWER)] + [] && [TimerFires(0, true)] == [TimerFires(0, true)] + [];
  }

  lemma {:induction false} RunOne(cfg: Config, s: Session, e: Event, es: seq<Event>)
    requires Enabled(s, e) && !Stray(cfg, s, e) && CanRun(cfg, Step(cfg, s, e), es)
    ensures CanRun(cfg, s, [e] + es) && Run(cfg, s, [e] + es) == Run(cfg, Step(cfg, s, e), es)
  {
    assert ([e] + es)[1..] == es;
  }

  // ---------------------------------------------------------------- packets that fail, reached

  /** A detect of nothing leaves its client active, with command, target and count of the last one. */
  lemma DetectNothingLeaves(cfg: Config, s: Session, i: nat, bpf: bool, written: bool)
    requires Counted(s) && i < |s.clients|
    ensures var c, d := s.clients[i], DetectBegun(cfg, s, i, [], bpf, written).clients[i];
            && d.active && !d.fdOpen && d.status == Failed && d.detectList == [] && d.conflicts == 0
            && d.command == c.command && d.targetIp == c.targetIp
            && d.probesAreCollisions == c.probesAreCollisions && d.detectCount == c.detectCount
  {
    ReadyCounts(s, i, DetectContext(), bpf);
  }

  /** While another client has the descriptor packets are still read, and none before stops them. */
  lemma PacketsReach(cfg: Config, s: Session, i: nat, k: nat, bpf: bool, written: bool, p: Packet)
    requires Inv(cfg, s) && i < |s.clients| && k < |s.clients| && k != i && s.clients[k].fdOpen
    requires forall j :: 0 <= j < i ==> !Restarts(cfg, s.clients[j], p)
    ensures var q := DetectBegun(cfg, s, i, [], bpf, written);
            && Inv(cfg, q) && q.readFd && |q.clients| == |s.clients|
            && forall j :: 0 <= j < i ==> !Restarts(cfg, q.clients[j], p)
  {
    var q := DetectBegun(cfg, s, i, [], bpf, written);
    DetectBegunOk(cfg, s, i, [], bpf, written);
    DetectElsewhere(cfg, s, i, k, [], bpf, written);
    OpenCountPositive(q.clients, k);
    forall j | 0 <= j < i ensures !Restarts(cfg, q.clients[j], p) {
      DetectElsewhere(cfg, s, i, j, [], bpf, written);
    }
  }

  /**
   A client that has probed is given a detect of nothing while another client has the descriptor: a packet
   from the address once probed restarts the probe of a client without a descriptor.
   */
  lemma StaleProbeRestarts(cfg: Config, s: Session, i: nat, k: nat, bpf: bool, written: bool, p: Packet)
    requires Inv(cfg, s) && i < |s.clients| && k < |s.clients| && k != i && s.clients[k].fdOpen
    requires s.clients[i].command == Probe && !s.clients[i].probesAreCollisions && cfg.conflictRetries > 0
    requires !p.fromUs && p.senderIp == s.clients[i].targetIp
    requires forall j :: 0 <= j < i ==> !Restarts(cfg, s.clients[j], p)
    ensures var q := Step(cfg, s, StartDetect(i, [], bpf, written));
            && Inv(cfg, q) && Enabled(q, Deliver(p))
            && StrayRestart(cfg, q.clients, p) && !Inv(cfg, Step(cfg, q, Deliver(p)))
  {
    var q := DetectBegun(cfg, s, i, [], bpf, written);
    PacketsReach(cfg, s, i, k, bpf, written, p);
    DetectNothingLeaves(cfg, s, i, bpf, written);
    assert Restarts(cfg, q.clients[i], p) && RestartIndex(cfg, q.clients, p, 0) == i;
    StrayBreaks(cfg, q, p);
  }

  /**
   A client that has run a detect is given one of nothing while another client has the descriptor: the next
   reply that gets as far as this client, whoever it is for, is compared with entries of the freed list.
   */
  lemma FreedListIsRead(cfg: Config, s: Session, i: nat, k: nat, bpf: bool, written: bool, p: Packet)
    requires Inv(cfg, s) && i < |s.clients| && k < |s.clients| && k != i && s.clients[k].fdOpen
    requires s.clients[i].command == Detect && s.clients[i].detectCount > 0 && p.op == Reply
    requires forall j :: 0 <= j < i ==> !Restarts(cfg, s.clients[j], p)
    ensures var q := Step(cfg, s, StartDetect(i, [], bpf, written));
            Inv(cfg, q) && Enabled(q, Deliver(p)) && Step(cfg, q, Deliver(p)).nullDereference
  {
    var q := DetectBegun(cfg, s, i, [], bpf, written);
    PacketsReach(cfg, s, i, k, bpf, written, p);
    DetectNothingLeaves(cfg, s, i, bpf, written);
    assert Misreads(q.clients[i], p);
  }

  const TWO: Session := Session([Idle, Idle], 0, false, false, false)
  const PROBE: Event := StartProbe(0, 0, 7, true, true)
  const DETECT: Event := StartDetect(0, [Address(5, 9, [1, 2, 3, 4, 5, 6])], true, true)
  const OTHER: Event := StartResolve(1, 5, 9, 1, true, true)
  const NOTHING: Event := StartDetect(0, [], true, true)

  /** The first of two clients gets a command, the second resolves, and the first is given nothing to detect. */
  function Idled(first: Event): seq<Event> { [NewClient(false), NewClient(false), first, OTHER, NOTHING] }

  lemma TwoReached(cfg: Config)
    ensures Inv(cfg, TWO) && Step(cfg, Step(cfg, Initial, NewClient(false)), NewClient(false)) == TWO
  {
    assert Step(cfg, Initial, NewClient(false)) == Session([Idle], 0, false, false, false);
    assert [Idle] + [Idle] == TWO.clients;
    assert TWO.clients[..1] == [Idle] && [Idle][..0] == [];
    assert OpenCount([Idle]) == 0;
    assert OpenCount(TWO.clients) == 0;
  }

  lemma ProbeSets(cfg: Config)
    requires Inv(cfg, TWO)
    ensures var s := Step(cfg, TWO, PROBE);
            && Inv(cfg, s) && |s.clients| == 2
            && s.clients[0].command == Probe && s.clients[0].targetIp == 7 && !s.clients[0].probesAreCollisions
  {
    ProbeBegunOk(cfg, TWO, 0, 0, 7, false, false, true, true);
    ReadyCounts(TWO, 0, ProbeContext(cfg, 0, 7, false, false), true);
  }

  lemma DetectSets(cfg: Config)
    requires Inv(cfg, TWO)
    ensures var s := Step(cfg, TWO, DETECT);
            && Inv(cfg, s) && |s.clients| == 2
            && s.clients[0].command == Detect && s.clients[0].detectCount == 1
  {
    DetectBegunOk(cfg, TWO, 0, DETECT.list, true, true);
    ReadyCounts(TWO, 0, DetectContext(), true);
  }

  lemma OtherResolves(cfg: Config, s: Session)
    requires Inv(cfg, s) && |s.clients| == 2
    ensures var r := Step(cfg, s, OTHER);
            Inv(cfg, r) && |r.clients| == 2 && r.clients[0] == s.clients[0] && r.clients[1].fdOpen
  {
    ResolveBegunOk(cfg, s, 1, 5, 9, 1, true, true);
    ResolveElsewhere(s, 1, 0, 5, 9, 1, true, true);
    ResolveOpens(s, 1, 5, 9, 1, true);
  }

  lemma {:induction false} IdledRuns(cfg: Config, first: Event)
    requires Step(cfg, Step(cfg, Initial, NewClient(false)), NewClient(false)) == TWO
    requires CanRun(cfg, TWO, [first, OTHER, NOTHING])
    ensures CanRun(cfg, Initial, Idled(first))
    ensures Run(cfg, Initial, Idled(first)) == Run(cfg, TWO, [first, OTHER, NOTHING])
  {
    RunTwo(cfg, Initial, NewClient(false), NewClient(false), [first, OTHER, NOTHING]);
    assert Idled(first) == [NewClient(false), NewClient(false)] + [first, OTHER, NOTHING];
  }

  lemma {:induction false} RunTwo(cfg: Config, s: Session, a: Event, b: Event, es: seq<Event>)
    requires !a.Deliver? && !b.Deliver? && Enabled(s, a) && Enabled(Step(cfg, s, a), b)
    requires CanRun(cfg, Step(cfg, Step(cfg, s, a), b), es)
    ensures CanRun(cfg, s, [a, b] + es) && Run(cfg, s, [a, b] + es) == Run(cfg, Step(cfg, Step(cfg, s, a), b), es)
  {
    RunOne(cfg, Step(cfg, s, a), b, es);
    RunOne(cfg, s, a, [b] + es);
    assert [a, b] + es == [a] + ([b] + es);
  }

  lemma {:induction false} RunThree(cfg: Config, s: Session, a: Event, b: Event, c: Event)
    requires !a.Deliver? && !b.Deliver? && !c.Deliver?
    requires Enabled(s, a) && Enabled(Step(cfg, s, a), b) && Enabled(Step(cfg, Step(cfg, s, a), b), c)
    ensures CanRun(cfg, s, [a, b, c]) && Run(cfg, s, [a, b, c]) == Step(cfg, Step(cfg, Step(cfg, s, a), b), c)
  {
    RunOne(cfg, Step(cfg, Step(cfg, s, a), b), c, []);
    RunTwo(cfg, s, a, b, [c]);
    assert [c] == [c] + [] && [a, b, c] == [a, b] + [c];
  }

  /** A run from the start after which any packet from the address once probed restarts a client without a
      descriptor. */
  lemma {:induction false} StrayRestartHappens(cfg: Config, p: Packet)
    requires cfg.conflictRetries > 0 && !p.fromUs && p.senderIp == 7
    ensures CanRun(cfg, Initial, Idled(PROBE))
    ensures var s := Run(cfg, Initial, Idled(PROBE));
            && Inv(cfg, s) && Enabled(s, Deliver(p))
            && StrayRestart(cfg, s.clients, p) && !Inv(cfg, Step(cfg, s, Deliver(p)))
  {
    TwoReached(cfg);
    ProbeSets(cfg);
    OtherResolves(cfg, Step(cfg, TWO, PROBE));
    StaleProbeRestarts(cfg, Step(cfg, Step(cfg, TWO, PROBE), OTHER), 0, 1, true, true, p);
    RunThree(cfg, TWO, PROBE, OTHER, NOTHING);
    IdledRuns(cfg, PROBE);
  }

  /** A run from the start after which any reply at all is compared with entries of a freed list. */
  lemma {:induction false} FreedListReached(cfg: Config, p: Packet)
    requires p.op == Reply
    ensures CanRun(cfg, Initial, Idled(DETECT))
    ensures var s := Run(cfg, Initial, Idled(DETECT));
            Inv(cfg, s) && Enabled(s, Deliver(p)) && Step(cfg, s, Deliver(p)).nullDereference
  {
    TwoReached(cfg);
    DetectSets(cfg);
    OtherResolves(cfg, Step(cfg, TWO, DETECT));
    FreedListIsRead(cfg, Step(cfg, Step(cfg, TWO, DETECT), OTHER), 0, 1, true, true, p);
    RunThree(cfg, TWO, DETECT, OTHER, NOTHING);
    IdledRuns(cfg, DETECT);
  }

  // ---------------------------------------------------------------- when no packet can be stray

  /** Every active client has a descriptor. */
  ghost predicate Served(s: Session) {
    forall j :: 0 <= j < |s.clients| && s.clients[j].active ==> s.clients[j].fdOpen
  }

  /** The caller's side: a descriptor can be had for every command, and a detect names an address. */
  predicate Provided(e: Event) {
    match e
    case StartProbe(_, _, _, bpf, _) => bpf
    case StartAnnounce(_, _, _, _, bpf, _) => bpf
    case StartResolve(_, _, _, _, bpf, _) => bpf
    case StartDetect(_, list, bpf, _) => bpf && list != []
    case _ => true
  }

  lemma ServedReplace(s: Session, i: nat, c: Client, after: Session)
    requires Served(s) && i < |s.clients| && (c.active ==> c.fdOpen)
    requires after.clients == s.clients[i := c]
    ensures Served(after)
  {
  }

  lemma StartKeepsServed(cfg: Config, s: Session, e: Event)
    requires Inv(cfg, s) && Served(s) && Enabled(s, e) && Provided(e)
    requires e.StartProbe? || e.StartAnnounce? || e.StartResolve? || e.StartDetect?
    ensures Served(Step(cfg, s, e))
  {
    var i := e.i;
    var q := Step(cfg, s, e);
    StartOpens(cfg, s, e);
    CommandKeepsInv(cfg, s, e);
    forall j | 0 <= j < |q.clients| && q.clients[j].active ensures q.clients[j].fdOpen {
      if j != i {
        OthersUntouched(cfg, s, e, j);
      }
    }
  }

  lemma ProbeOpens(cfg: Config, s: Session, i: nat, sender: Ip, target: Ip, announce: bool, skip: bool, written: bool)
    requires Counted(s) && i < |s.clients|
    ensures var r := ProbeBegun(cfg, s, i, sender, target, announce, skip, true, written);
            |r.clients| == |s.clients| && r.clients[i].fdOpen
  {
    ReadyCounts(s, i, ProbeContext(cfg, sender, target, announce, skip), true);
  }

  lemma ResolveOpens(s: Session, i: nat, sender: Ip, target: Ip, secs: UInt32, written: bool)
    requires Counted(s) && i < |s.clients|
    ensures var r := ResolveBegun(s, i, sender, target, secs, true, written);
            |r.clients| == |s.clients| && r.clients[i].fdOpen
  {
    ReadyCounts(s, i, ResolveContext(sender, target), true);
  }

  lemma DetectOpens(cfg: Config, s: Session, i: nat, list: seq<Address>, written: bool)
    requires Counted(s) && i < |s.clients| && list != []
    ensures var r := DetectBegun(cfg, s, i, list, true, written);
            |r.clients| == |s.clients| && r.clients[i].fdOpen
  {
    ReadyCounts(s, i, DetectContext(), true);
  }

  lemma StartOpens(cfg: Config, s: Session, e: Event)
    requires Inv(cfg, s) && Enabled(s, e) && Provided(e)
    requires e.StartProbe? || e.StartAnnounce? || e.StartResolve? || e.StartDetect?
    ensures |Step(cfg, s, e).clients| == |s.clients| && Step(cfg, s, e).clients[e.i].fdOpen
  {
    match e
    case StartProbe(i, sender, target, _, written) => ProbeOpens(cfg, s, i, sender, target, false, false, written);
    case StartAnnounce(i, sender, target, skip, _, written) => ProbeOpens(cfg, s, i, sender, target, true, skip, written);
    case StartResolve(i, sender, target, secs, _, written) => ResolveOpens(s, i, sender, target, secs, written);
    case StartDetect(i, list, _, written) => DetectOpens(cfg, s, i, list, written);
  }

  lemma DefendKeepsServed(s: Session, i: nat, ip: Ip, bpf: bool)
    requires Counted(s) && Served(s) && i < |s.clients|
    ensures Served(Defended(s, i, ip, bpf))
  {
    DefendSilences(s, i, ip, bpf);
    forall j | 0 <= j < |s.clients| && j != i ensures Defended(s, i, ip, bpf).clients[j] == s.clients[j] {
      DefendElsewhere(s, i, j, ip, bpf);
    }
  }

  lemma DeliverKeepsServed(cfg: Config, s: Session, p: Packet)
    requires Inv(cfg, s) && Served(s)
    ensures !StrayPacket(cfg, s.clients, p) && Served(Received(cfg, s, p))
  {
    forall j | 0 <= j < |s.clients| ensures !Misreads(s.clients[j], p) {
      assert Listed(s.clients[j]);
    }
    var after := Delivered(cfg, s.clients, p);
    forall j | 0 <= j < |after| && after[j].active ensures after[j].fdOpen {
      assert Touched(cfg, s.clients[j], p).fdOpen == s.clients[j].fdOpen;
    }
  }

  lemma StepKeepsServed(cfg: Config, s: Session, e: Event)
    requires Inv(cfg, s) && Served(s) && Enabled(s, e) && Provided(e)
    ensures !Stray(cfg, s, e) && Served(Step(cfg, s, e))
  {
    match e
    case NewClient(_) =>
    case Free(i) => CanceledCounts(s, i);
    case Cancel(i) => CanceledCounts(s, i);
    case Defend(i, ip, bpf) => DefendKeepsServed(s, i, ip, bpf);
    case TimerFires(i, written) => TimerFiredKeepsServed(cfg, s, i, written);
    case CallbackFires(i) => CalledBackCounts(s, i);
    case Deliver(p) => DeliverKeepsServed(cfg, s, p);
    case ReadError =>
    case _ => StartKeepsServed(cfg, s, e);
  }

  lemma TimerFiredKeepsServed(cfg: Config, s: Session, i: nat, written: bool)
    requires Inv(cfg, s) && Served(s) && i < |s.clients| && s.clients[i].timer.Some?
    ensures Served(TimerFired(cfg, s, i, written))
  {
    var c := s.clients[i];
    TimerTurn(cfg, c, written);
    ServedReplace(s, i, Retransmitted(cfg, c.(timer := None), c.timer.value, written), TimerFired(cfg, s, i, written));
  }

  /** Events that may happen one after another, stray packets or not. */
  predicate MayRun(cfg: Config, s: Session, es: seq<Event>)
    decreases |es|
  {
    es == [] || (Enabled(s, es[0]) && MayRun(cfg, Step(cfg, s, es[0]), es[1..]))
  }

  /** If every command gets its descriptor no packet of any run is stray, no freed list is read, and the invariant holds throughout. */
  lemma {:induction false} ProvidedRunsAreSafe(cfg: Config, s: Session, es: seq<Event>)
    requires Inv(cfg, s) && Served(s) && MayRun(cfg, s, es)
    requires forall k :: 0 <= k < |es| ==> Provided(es[k])
    ensures CanRun(cfg, s, es) && Inv(cfg, Run(cfg, s, es)) && Served(Run(cfg, s, es))
    decreases |es|
  {
    if es != [] {
      StepKeepsServed(cfg, s, es[0]);
      StepKeepsInv(cfg, s, es[0]);
      ProvidedRunsAreSafe(cfg, Step(cfg, s, es[0]), es[1..]);
    }
  }
}
