/** The ARP session of one interface as it runs: fields updated step by step, proved against the
    functions of `ArpSession`. */
module ArpInterface {
  import opened Common
  import opened Filtering
  import opened ArpSession
  import opened ArpSessionLaws

  class Interface {
    const cfg: Config
    var clients: seq<Client>
    var refcount: int
    var readFd: bool
    var receiveBuf: bool
    var nullDereference: bool

    function View(): Session
      reads this
    {
      Session(clients, refcount, readFd, receiveBuf, nullDereference)
    }

    constructor (cfg: Config)
      ensures View() == Initial && this.cfg == cfg
    {
      this.cfg := cfg;
      clients, refcount, readFd, receiveBuf, nullDereference := [], 0, false, false, false;
    }

    method AddClient(probesAreCollisions: bool)
      modifies this
      ensures View() == Step(cfg, old(View()), NewClient(probesAreCollisions))
    {
      clients := clients + [Idle.(probesAreCollisions := probesAreCollisions)];
    }

    method CloseFd(i: nat)
      requires i < |clients|
      modifies this
      ensures View() == FdClosed(old(View()), i)
    {
      if !clients[i].fdOpen || refcount <= 0 {
        return;
      }
      refcount := refcount - 1;
      clients := clients[i := clients[i].(fdOpen := false)];
      if refcount == 0 {
        readFd := false;
        receiveBuf := false;
      }
    }

    method OpenFd(i: nat, bpf: bool) returns (ok: bool)
      requires i < |clients|
      modifies this
      ensures View() == FdOpened(old(View()), i, bpf)
      ensures ok == OpenSucceeds(old(View()), i, bpf)
    {
      if clients[i].fdOpen {
        return true;
      }
      refcount := refcount + 1;
      clients := clients[i := clients[i].(fdOpen := true)];
      if refcount > 1 {
        return true;
      }
      if bpf {
        receiveBuf := true;
        readFd := true;
        return true;
      }
      CloseFd(i);
      return false;
    }

    method Schedule(i: nat, status: Status)
      requires i < |clients|
      modifies this`clients
      ensures clients == old(clients)[i := ScheduleCallback(old(clients)[i], status)]
    {
      clients := clients[i := clients[i].(status := status)];
      clients := clients[i := clients[i].(callback := true)];
    }

    /** Writes through the shared descriptor, which must be there. */
    method Write(written: bool) returns (ok: bool)
      modifies this`nullDereference
      ensures nullDereference == (old(nullDereference) || !readFd) && ok == written
    {
      nullDereference := nullDereference || !readFd;
      ok := written;
    }

    method ProbeRetransmit(i: nat, written: bool)
      requires i < |clients|
      modifies this
      ensures View() == Tried(old(View()), i, Transmits(cfg, old(clients)[i]),
                              ProbeRetransmitted(cfg, old(clients)[i], written))
    {
      var left := cfg.probes + cfg.announcements - clients[i].tries;
      if left <= 0 {
        Schedule(i, NotInUse);
        return;
      }
      clients := clients[i := clients[i].(tries := clients[i].tries + 1)];
      var going := clients[i].skipFirst;
      if !going {
        going := Write(written);
      }
      if going {
        if !clients[i].skipFirst {
          var kind := if left <= cfg.announcements then Gratuitous else Plain;
          clients := clients[i := clients[i].(sent := clients[i].sent + 1, cycle := clients[i].cycle + [kind])];
        }
        clients := clients[i := clients[i].(timer := Some(Timer.ProbeRetransmit), skipFirst := false)];
      } else {
        Schedule(i, Failed);
      }
    }

    method ResolveRetransmit(i: nat, written: bool)
      requires i < |clients|
      modifies this
      ensures View() == Tried(old(View()), i, ResolveTriesLeft(old(clients)[i]) > 0,
                              ResolveRetransmitted(old(clients)[i], written))
    {
      if ResolveTriesLeft(clients[i]) <= 0 {
        Schedule(i, NotInUse);
        return;
      }
      clients := clients[i := clients[i].(tries := clients[i].tries + 1)];
      var going := Write(written);
      if going {
        clients := clients[i := clients[i].(timer := Some(Timer.ResolveRetransmit))];
      } else {
        Schedule(i, Failed);
      }
    }

    /** One request to each address of the list, up to the first that cannot be written; `failing`
        is the position of that one. */
    method WriteAll(list: seq<Address>, failing: nat) returns (ok: bool)
      modifies this`nullDereference
      ensures ok == (failing >= |list|)
      ensures nullDereference == (old(nullDereference) || (list != [] && !readFd))
    {
      ok := true;
      var k := 0;
      while k < |list|
        invariant k <= |list| && k <= failing
        invariant nullDereference == (old(nullDereference) || (k > 0 && !readFd))
      {
        ok := Write(k != failing);
        if !ok {
          return;
        }
        k := k + 1;
      }
      ok := true;
    }

    method DetectRetransmit(i: nat, failing: nat)
      requires i < |clients| && clients[i].detectCount == |clients[i].detectList|
      modifies this
      ensures var c := old(clients)[i];
              View() == Tried(old(View()), i, cfg.detects > c.tries && c.detectList != [],
                              DetectRetransmitted(cfg, c, failing >= |c.detectList|))
    {
      var left := cfg.detects - clients[i].tries;
      if left <= 0 {
        Schedule(i, NotInUse);
        return;
      }
      clients := clients[i := clients[i].(tries := clients[i].tries + 1)];
      var going := WriteAll(clients[i].detectList, failing);
      if going {
        clients := clients[i := clients[i].(timer := Some(Timer.DetectRetransmit))];
      } else {
        Schedule(i, Failed);
      }
    }

    method Cancel(i: nat)
      requires i < |clients|
      modifies this
      ensures View() == Canceled(old(View()), i)
    {
      clients := clients[i := clients[i].(active := false, status := NoStatus)];
      CloseFd(i);
      clients := clients[i := clients[i].(timer := None, detectList := [], callback := false)];
    }

    method Free(i: nat)
      requires i < |clients|
      modifies this
      ensures View() == Freed(old(View()), i)
    {
      Cancel(i);
      clients := RemovedAt(clients, i);
    }

    method SetupContext(i: nat, sender: Ip, target: Ip, skip: bool, announce: bool)
      requires i < |clients|
      modifies this
      ensures View() == Prepared(old(View()), i, ProbeContext(cfg, sender, target, announce, skip))
    {
      Cancel(i);
      clients := clients[i := clients[i].(senderIp := sender, targetIp := target, active := true,
                                          tries := 0, conflicts := 0, skipFirst := skip)];
      clients := clients[i := clients[i].(probing := !announce, cycle := [], sent := 0, calls := 0)];
      if announce {
        clients := clients[i := clients[i].(tries := cfg.probes)];
      }
    }

    method SetupResolve(i: nat, sender: Ip, target: Ip)
      requires i < |clients|
      modifies this
      ensures View() == Prepared(old(View()), i, ResolveContext(sender, target))
    {
      Cancel(i);
      clients := clients[i := clients[i].(senderIp := sender, targetIp := target, active := true,
                                          tries := 0, conflicts := 0)];
      clients := clients[i := clients[i].(probing := false, cycle := [], sent := 0, calls := 0)];
    }

    method SetupDetect(i: nat)
      requires i < |clients|
      modifies this
      ensures View() == Prepared(old(View()), i, DetectContext())
    {
      Cancel(i);
      clients := clients[i := clients[i].(active := true, tries := 0, conflicts := 0)];
      clients := clients[i := clients[i].(probing := false, cycle := [], sent := 0, calls := 0)];
    }

    method StartAnnounce(i: nat, sender: Ip, target: Ip, skip: bool, bpf: bool, written: bool)
      requires i < |clients|
      modifies this
      ensures View() == ProbeBegun(cfg, old(View()), i, sender, target, true, skip, bpf, written)
    {
      SetupContext(i, sender, target, skip, true);
      OpenAndProbe(i, bpf, written);
    }

    method StartProbe(i: nat, sender: Ip, target: Ip, bpf: bool, written: bool)
      requires i < |clients|
      modifies this
      ensures View() == ProbeBegun(cfg, old(View()), i, sender, target, false, false, bpf, written)
    {
      SetupContext(i, sender, target, false, false);
      OpenAndProbe(i, bpf, written);
    }

    method OpenAndProbe(i: nat, bpf: bool, written: bool)
      requires i < |clients|
      modifies this
      ensures View() == ProbeOpened(cfg, old(View()), i, bpf, written)
    {
      var ok := OpenFd(i, bpf);
      if !ok {
        Schedule(i, Failed);
        return;
      }
      clients := clients[i := clients[i].(status := Unknown, command := Probe)];
      ProbeRetransmit(i, written);
    }

    method StartResolve(i: nat, sender: Ip, target: Ip, secs: UInt32, bpf: bool, written: bool)
      requires i < |clients|
      modifies this
      ensures View() == ResolveBegun(old(View()), i, sender, target, secs, bpf, written)
    {
      SetupResolve(i, sender, target);
      OpenAndResolve(i, secs, bpf, written);
    }

    method OpenAndResolve(i: nat, secs: UInt32, bpf: bool, written: bool)
      requires i < |clients|
      modifies this
      ensures View() == ResolveOpened(old(View()), i, secs, bpf, written)
    {
      var ok := OpenFd(i, bpf);
      if !ok {
        Schedule(i, Failed);
        return;
      }
      clients := clients[i := clients[i].(status := Unknown, command := Resolve,
                                          resolveSecs := if secs > 0 then secs else DEFAULT_RESOLVE_SECS)];
      ResolveRetransmit(i, written);
    }

    method StartDetect(i: nat, list: seq<Address>, bpf: bool, failing: nat)
      requires i < |clients|
      modifies this
      ensures View() == DetectBegun(cfg, old(View()), i, list, bpf, failing >= |list|)
    {
      SetupDetect(i);
      OpenAndDetect(i, list, bpf, failing);
    }

    method OpenAndDetect(i: nat, list: seq<Address>, bpf: bool, failing: nat)
      requires i < |clients|
      modifies this
      ensures View() == DetectOpened(cfg, old(View()), i, list, bpf, failing >= |list|)
    {
      if list == [] {
        Schedule(i, Failed);
        return;
      }
      var ok := OpenFd(i, bpf);
      if !ok {
        Schedule(i, Failed);
        return;
      }
      clients := clients[i := clients[i].(status := Unknown, command := Detect, detectList := list, detectCount := |list|)];
      DetectRetransmit(i, failing);
    }

    method Defend(i: nat, ip: Ip, bpf: bool, written: bool) returns (defended: bool)
      requires i < |clients|
      modifies this
      ensures View() == Defended(old(View()), i, ip, bpf)
      ensures defended == (written && OpenSucceeds(Canceled(old(View()), i), i, bpf))
    {
      defended := false;
      Cancel(i);
      var ok := OpenFd(i, bpf);
      if ok {
        clients := clients[i := clients[i].(senderIp := ip, targetIp := ip)];
        defended := Write(written);
        CloseFd(i);
      }
    }

    /** A detect's timer is canceled before its list is freed. */
    method TimerExpires(i: nat, written: bool)
      requires i < |clients| && clients[i].timer.Some?
      requires clients[i].timer.value == Timer.DetectRetransmit ==> clients[i].detectCount == |clients[i].detectList|
      modifies this
      ensures View() == TimerFired(cfg, old(View()), i, written)
    {
      var t := clients[i].timer.value;
      clients := clients[i := clients[i].(timer := None)];
      match t
      case ProbeStart =>
        clients := clients[i := clients[i].(tries := 0, status := Unknown, cycle := [])];
        ProbeRetransmit(i, written);
      case ProbeRetransmit => ProbeRetransmit(i, written);
      case ResolveRetransmit => ResolveRetransmit(i, written);
      case DetectRetransmit =>
        DetectRetransmit(i, if written then |clients[i].detectList| else 0);
    }

    /** The callback handler up to the client's own function, which runs last; reports its status. */
    method CallBack(i: nat) returns (result: Status)
      requires i < |clients| && clients[i].callback
      modifies this
      ensures View() == CalledBack(old(View()), i) && result == old(clients)[i].status
    {
      clients := clients[i := clients[i].(callback := false, active := false)];
      CloseFd(i);
      clients := clients[i := clients[i].(timer := None, calls := clients[i].calls + 1)];
      result := clients[i].status;
    }

    method Read(packets: Option<seq<Packet>>)
      requires readFd && refcount > 0
      modifies this`clients, this`nullDereference
      ensures old(Inv(cfg, View())) && (packets.None? || NoStray(cfg, old(View()), packets.value)) ==> Inv(cfg, View())
      ensures View() == if packets.None? then old(View()).(clients := ReadFailed(old(clients)))
                        else ReceivedAll(cfg, old(View()), packets.value)
    {
      ghost var before := View();
      if packets.None? {
        ReportReadFailure();
        if Inv(cfg, before) {
          ReadFailedOk(cfg, before);
        }
        return;
      }
      var ps := packets.value;
      var k := 0;
      assert ps[..0] == [];
      while k < |ps|
        invariant k <= |ps|
        invariant View() == ReceivedAll(cfg, before, ps[..k])
      {
        Receive(ps[k]);
        assert ps[..k + 1][..k] == ps[..k];
        k := k + 1;
      }
      assert ps[..|ps|] == ps;
      if Inv(cfg, before) && NoStray(cfg, before, ps) {
        ReadKeepsInv(cfg, before, ps);
      }
    }

    method ReportReadFailure()
      modifies this`clients
      ensures clients == ReadFailed(old(clients))
    {
      var was := clients;
      var i := 0;
      while i < |clients|
        invariant i <= |clients| == |was| && was == old(clients)
        invariant forall j :: 0 <= j < |was| ==>
          clients[j] == if j < i && was[j].active then ScheduleCallback(was[j], Failed) else was[j]
      {
        if clients[i].active {
          Schedule(i, Failed);
        }
        i := i + 1;
      }
      assert clients == ReadFailed(was);
    }

    /** Offers one packet to the clients in order, up to the first it restarts. */
    method Receive(p: Packet)
      modifies this`clients, this`nullDereference
      ensures View() == ArpSession.Received(cfg, old(View()), p)
    {
      var was := clients;
      var i := 0;
      while i < |clients|
        invariant i <= |clients| == |was| && was == old(clients)
        invariant forall j :: 0 <= j < |was| ==> clients[j] == if j < i then Touched(cfg, was[j], p) else was[j]
        invariant forall j :: 0 <= j < i ==> !Restarts(cfg, was[j], p)
        invariant nullDereference == (old(nullDereference) || exists j :: 0 <= j < i && Misreads(was[j], p))
      {
        var restarted := Offer(i, p);
        if restarted {
          RestartHere(cfg, was, p, i);
          assert clients == Delivered(cfg, was, p);
          return;
        }
        i := i + 1;
      }
      RestartHere(cfg, was, p, i);
      assert clients == Delivered(cfg, was, p);
    }

    method Command(e: Event)
      requires e.StartProbe? || e.StartAnnounce? || e.StartResolve? || e.StartDetect?
      requires Enabled(View(), e)
      modifies this
      ensures View() == Step(cfg, old(View()), e)
    {
      match e
      case StartProbe(i, sender, target, bpf, written) => StartProbe(i, sender, target, bpf, written);
      case StartAnnounce(i, sender, target, skip, bpf, written) => StartAnnounce(i, sender, target, skip, bpf, written);
      case StartResolve(i, sender, target, secs, bpf, written) => StartResolve(i, sender, target, secs, bpf, written);
      case StartDetect(i, list, bpf, written) => StartDetect(i, list, bpf, if written then |list| else 0);
    }

    method Dispatch(e: Event)
      requires Enabled(View(), e)
      requires e.TimerFires? && clients[e.i].timer.value == Timer.DetectRetransmit ==>
                 clients[e.i].detectCount == |clients[e.i].detectList|
      modifies this
      ensures View() == Step(cfg, old(View()), e)
    {
      match e
      case NewClient(collisions) => AddClient(collisions);
      case Free(i) => Free(i);
      case StartProbe(_, _, _, _, _) => Command(e);
      case StartAnnounce(_, _, _, _, _, _) => Command(e);
      case StartResolve(_, _, _, _, _, _) => Command(e);
      case StartDetect(_, _, _, _) => Command(e);
      case Cancel(i) => Cancel(i);
      case Defend(i, ip, bpf) => var defended := Defend(i, ip, bpf, true);
      case TimerFires(i, written) => TimerExpires(i, written);
      case CallbackFires(i) => var result := CallBack(i);
      case Deliver(p) => Receive(p);
      case ReadError => ReportReadFailure();
    }

    /**
     Any event, whatever came before: the interface does what the protocol step says, and stays consistent
     exactly when no packet restarts a client without a descriptor or meets a client whose list was freed.
     */
    method Handle(e: Event)
      requires Inv(cfg, View()) && Enabled(View(), e)
      modifies this
      ensures View() == Step(cfg, old(View()), e)
      ensures Inv(cfg, View()) <==> !Stray(cfg, old(View()), e)
      ensures nullDereference <==> e.Deliver? && Misread(cfg, old(clients), e.p)
    {
      StepKeepsInv(cfg, View(), e);
      Dispatch(e);
    }

    /** What a packet says about a client's command, if anything. */
    method FindMatch(c: Client, p: Packet) returns (found: Option<Address>)
      requires c.active && c.status != InUse
      modifies this`nullDereference
      ensures found == Match(c, p) && nullDereference == (old(nullDereference) || Misreads(c, p))
    {
      found := None;
      match c.command {
      case Probe =>
        if p.fromUs {
        } else if c.targetIp == p.senderIp
               || (c.probesAreCollisions && p.op == Request && p.senderIp == 0 && c.targetIp == p.targetIp) {
          found := Some(Address(c.senderIp, c.targetIp, p.senderHw));
        }
      case Resolve =>
        if c.targetIp == p.senderIp && p.op == Reply {
          found := Some(Address(c.senderIp, c.targetIp, p.senderHw));
        }
      case Detect =>
        if p.op == Reply {
          found := FindAnswer(c.detectList, p);
          if found.None? && c.detectCount > |c.detectList| {
            nullDereference := true;
          }
        }
      case NoCommand =>
      }
    }

    method Offer(i: nat, p: Packet) returns (restarted: bool)
      requires i < |clients|
      modifies this`clients, this`nullDereference
      ensures nullDereference == (old(nullDereference) || Misreads(old(clients)[i], p))
      ensures clients == old(clients)[i := Touched(cfg, old(clients)[i], p)]
      ensures restarted == Restarts(cfg, old(clients)[i], p)
    {
      if !clients[i].active || clients[i].status == InUse {
        return false;
      }
      var found := FindMatch(clients[i], p);
      if found.None? {
        return false;
      }
      clients := clients[i := clients[i].(inUse := found.value, status := InUse)];
      if clients[i].command == Probe && !clients[i].probesAreCollisions {
        clients := clients[i := clients[i].(conflicts := clients[i].conflicts + 1)];
        if clients[i].conflicts <= cfg.conflictRetries {
          clients := clients[i := clients[i].(timer := Some(ProbeStart))];
          return true;
        }
      }
      Schedule(i, InUse);
      return false;
    }
  }

  method FindAnswer(list: seq<Address>, p: Packet) returns (r: Option<Address>)
    ensures r == FirstAnswer(list, p, 0)
  {
    var i := 0;
    while i < |list|
      invariant i <= |list| && FirstAnswer(list, p, 0) == FirstAnswer(list, p, i)
    {
      if Answers(list[i], p) {
        return Some(list[i]);
      }
      i := i + 1;
    }
    return None;
  }

  lemma {:induction false} RestartFrom(cfg: Config, clients: seq<Client>, p: Packet, i: nat, k: nat)
    requires i <= k <= |clients|
    requires forall j :: 0 <= j < k ==> !Restarts(cfg, clients[j], p)
    requires k == |clients| || Restarts(cfg, clients[k], p)
    ensures RestartIndex(cfg, clients, p, i) == k
    decreases k - i
  {
    if i < k {
      RestartFrom(cfg, clients, p, i + 1, k);
    }
  }

  lemma {:induction false} RestartHere(cfg: Config, clients: seq<Client>, p: Packet, k: nat)
    requires k <= |clients|
    requires forall j :: 0 <= j < k ==> !Restarts(cfg, clients[j], p)
    requires k == |clients| || Restarts(cfg, clients[k], p)
    ensures RestartIndex(cfg, clients, p, 0) == k
  {
    RestartFrom(cfg, clients, p, 0, k);
  }
}
