/**
 One UDP socket shared by many clients, reference counted, closed one second after the last use,
 with a cancellation that completes later.  The DHCPv6 socket and the BOOTP session run the same
 protocol; only their transmit paths differ, and both are here.

 The environment is part of the state: the kernel's open descriptors, and the cancellations whose
 completion handlers have not run yet.  Events interleave freely.
 */
module SharedSocket {
  import opened Common

  type ClientId = nat
  type Fd = nat

  datatype Client = Client(fdOpen: bool, receiving: bool)

  datatype State = State(
    clients: map<ClientId, Client>,
    readFd: Option<Fd>,
    refcount: int,
    cancelPending: bool,
    closeTimer: bool,
    canceling: set<Fd>,
    openFds: set<Fd>,
    nullDereference: bool)

  /** What the kernel answers: a fresh descriptor or failure, and whether a dispatch source could be
      made for it. */
  datatype Kernel = Kernel(socket: Option<Fd>, sourceMade: bool)

  datatype Event =
    | Create(id: ClientId)
    | Release(id: ClientId)
    | EnableReceive(id: ClientId, k: Kernel)
    | DisableReceive(id: ClientId)
    | Transmit6(id: ClientId, k: Kernel)
    | Transmit4(id: ClientId, broadcast: bool, k: Kernel)
    | CloseTimerFires
    | ReadNotConnected
    | CancelCompletes(fd: Fd, k: Kernel)

  const Initial: State := State(map[], None, 0, false, false, {}, {}, false)

  // ---------------------------------------------------------------- what the code computes

  function WithSource(s: State, fd: Fd, k: Kernel): State {
    s.(readFd := if k.sourceMade then Some(fd) else None)
  }

  function Closed(s: State, id: ClientId): State
    requires id in s.clients
  {
    if !s.clients[id].fdOpen || s.refcount <= 0 then s
    else s.(refcount := s.refcount - 1,
            clients := s.clients[id := s.clients[id].(fdOpen := false)],
            closeTimer := s.closeTimer || s.refcount == 1)
  }

  /** Opening reports failure only when a new socket was needed and could not be had. */
  function OpenFails(s: State, id: ClientId, k: Kernel): bool
    requires id in s.clients
  {
    NeedsSocket(s, id) && k.socket.None?
  }

  function NeedsSocket(s: State, id: ClientId): bool
    requires id in s.clients
  {
    !s.clients[id].fdOpen && s.refcount == 0 && s.readFd.None? && !s.cancelPending
  }

  function Opened(s: State, id: ClientId, k: Kernel): (r: State)
    requires id in s.clients
    ensures r.clients.Keys == s.clients.Keys
  {
    if s.clients[id].fdOpen then s
    else
      var q := s.(closeTimer := false, refcount := s.refcount + 1,
                  clients := s.clients[id := s.clients[id].(fdOpen := true)]);
      if q.refcount > 1 || q.readFd.Some? || q.cancelPending then q
      else if k.socket.None? then Closed(q, id)
      else WithSource(q.(openFds := q.openFds + {k.socket.value}), k.socket.value, k)
  }

  function CloseScheduled(s: State): State {
    if s.cancelPending then s
    else s.(cancelPending := true, readFd := None,
            canceling := s.canceling + if s.readFd.Some? then {s.readFd.value} else {})
  }

  function Disabled(s: State, id: ClientId): State
    requires id in s.clients
  {
    Closed(s.(clients := s.clients[id := s.clients[id].(receiving := false)]), id)
  }

  function AfterTransmit6(s: State, id: ClientId, k: Kernel): State
    requires id in s.clients
  {
    if s.readFd.None? && s.cancelPending then s
    else if !s.clients[id].fdOpen then
      var q := Opened(s, id, k);
      if OpenFails(s, id, k) then q
      else Closed(q.(nullDereference := q.nullDereference || q.readFd.None?), id)
    else s.(nullDereference := s.nullDereference || s.readFd.None?)
  }

  function AfterTransmit4(s: State, id: ClientId, broadcast: bool, k: Kernel): State
    requires id in s.clients
  {
    if broadcast || s.clients[id].fdOpen then s
    else Closed(Opened(s, id, k), id)
  }

  function AfterCancel(s: State, fd: Fd, k: Kernel): State {
    var q := s.(cancelPending := false, canceling := s.canceling - {fd});
    if q.refcount > 0 then WithSource(q, fd, k)
    else q.(openFds := q.openFds - {fd})
  }

  function AfterCloseTimer(s: State): State {
    var q := s.(closeTimer := false);
    if q.readFd.None? || q.refcount > 0 then q else CloseScheduled(q)
  }

  predicate Enabled(s: State, e: Event) {
    match e
    case Create(id) => id !in s.clients
    case Release(id) => id in s.clients
    case EnableReceive(id, k) => id in s.clients && Fresh(s, k)
    case DisableReceive(id) => id in s.clients
    case Transmit6(id, k) => id in s.clients && Fresh(s, k)
    case Transmit4(id, _, k) => id in s.clients && Fresh(s, k)
    case CloseTimerFires => s.closeTimer
    case ReadNotConnected => s.readFd.Some?
    case CancelCompletes(fd, _) => fd in s.canceling
  }

  predicate Fresh(s: State, k: Kernel) {
    k.socket.Some? ==> k.socket.value !in s.openFds
  }

  function Step(s: State, e: Event): State
    requires Enabled(s, e)
  {
    match e
    case Create(id) => s.(clients := s.clients[id := Client(false, false)])
    case Release(id) =>
      var q := Disabled(s, id);
      q.(clients := q.clients - {id})
    case EnableReceive(id, k) =>
      Opened(s.(clients := s.clients[id := s.clients[id].(receiving := true)]), id, k)
    case DisableReceive(id) => Disabled(s, id)
    case Transmit6(id, k) => AfterTransmit6(s, id, k)
    case Transmit4(id, broadcast, k) => AfterTransmit4(s, id, broadcast, k)
    case CloseTimerFires => AfterCloseTimer(s)
    case ReadNotConnected => CloseScheduled(s)
    case CancelCompletes(fd, k) => AfterCancel(s, fd, k)
  }

  // ---------------------------------------------------------------- the code

  class Session {
    var clients: map<ClientId, Client>
    var readFd: Option<Fd>
    var refcount: int
    var cancelPending: bool
    var closeTimer: bool
    var canceling: set<Fd>
    var openFds: set<Fd>
    var nullDereference: bool

    ghost function View(): State
      reads this
    {
      State(clients, readFd, refcount, cancelPending, closeTimer, canceling, openFds, nullDereference)
    }

    constructor ()
      ensures View() == Initial
    {
      clients, readFd, refcount := map[], None, 0;
      cancelPending, closeTimer := false, false;
      canceling, openFds, nullDereference := {}, {}, false;
    }

    method CreateClient(id: ClientId)
      requires Enabled(View(), Create(id))
      modifies this
      ensures View() == Step(old(View()), Create(id))
    {
      clients := clients[id := Client(false, false)];
    }

    method ReleaseClient(id: ClientId)
      requires id in clients
      modifies this
      ensures View() == Step(old(View()), Release(id))
    {
      DisableReceiveOn(id);
      clients := clients - {id};
    }

    method EnableSource(fd: Fd, k: Kernel)
      modifies this
      ensures View() == WithSource(old(View()), fd, k)
    {
      readFd := if k.sourceMade then Some(fd) else None;
    }

    method CloseSocket(id: ClientId)
      requires id in clients
      modifies this
      ensures View() == Closed(old(View()), id)
    {
      if !clients[id].fdOpen {
        return;
      }
      if refcount <= 0 {
        return;
      }
      refcount := refcount - 1;
      clients := clients[id := clients[id].(fdOpen := false)];
      if refcount == 0 {
        closeTimer := true;
      }
    }

    method ScheduleClose()
      modifies this
      ensures View() == CloseScheduled(old(View()))
    {
      if cancelPending {
        return;
      }
      cancelPending := true;
      if readFd.Some? {
        canceling := canceling + {readFd.value};
        readFd := None;
      }
    }

    method DelayedClose()
      requires closeTimer
      modifies this
      ensures View() == AfterCloseTimer(old(View()))
    {
      closeTimer := false;
      if readFd.None? {
        return;
      }
      if refcount > 0 {
        return;
      }
      ScheduleClose();
    }

    method ReadFails()
      requires readFd.Some?
      modifies this
      ensures View() == Step(old(View()), ReadNotConnected)
    {
      ScheduleClose();
    }

    method FDComplete(fd: Fd, k: Kernel)
      requires fd in canceling
      modifies this
      ensures View() == AfterCancel(old(View()), fd, k)
    {
      canceling := canceling - {fd};
      cancelPending := false;
      if refcount > 0 {
        EnableSource(fd, k);
      } else {
        openFds := openFds - {fd};
      }
    }

    method OpenSocketFD(k: Kernel) returns (error: bool)
      modifies this
      ensures error == (!old(cancelPending) && k.socket.None?)
      ensures View() == if old(cancelPending) || k.socket.None? then old(View())
                        else WithSource(old(View()).(openFds := old(openFds) + {k.socket.value}), k.socket.value, k)
    {
      error := false;
      if cancelPending {
        return;
      }
      if k.socket.None? {
        return true;
      }
      openFds := openFds + {k.socket.value};
      EnableSource(k.socket.value, k);
    }

    method OpenSocket(id: ClientId, k: Kernel) returns (error: bool)
      requires id in clients && refcount >= 0
      modifies this
      ensures View() == Opened(old(View()), id, k)
      ensures error == OpenFails(old(View()), id, k)
    {
      error := false;
      if clients[id].fdOpen {
        return;
      }
      closeTimer := false;
      refcount := refcount + 1;
      clients := clients[id := clients[id].(fdOpen := true)];
      if refcount > 1 {
        return;
      }
      if readFd.Some? {
        return;
      }
      error := OpenSocketFD(k);
      if error {
        CloseSocket(id);
      }
    }

    method EnableReceiveOn(id: ClientId, k: Kernel)
      requires Enabled(View(), EnableReceive(id, k)) && refcount >= 0
      modifies this
      ensures View() == Step(old(View()), EnableReceive(id, k))
    {
      clients := clients[id := clients[id].(receiving := true)];
      var error := OpenSocket(id, k);
    }

    method DisableReceiveOn(id: ClientId)
      requires id in clients
      modifies this
      ensures View() == Disabled(old(View()), id)
    {
      clients := clients[id := clients[id].(receiving := false)];
      CloseSocket(id);
    }

    /** The DHCPv6 transmit: refuses while a cancellation is outstanding, else uses the descriptor. */
    method DoTransmit6(id: ClientId, k: Kernel) returns (sentOn: Option<Fd>)
      requires Enabled(View(), Transmit6(id, k)) && refcount >= 0
      modifies this
      ensures View() == AfterTransmit6(old(View()), id, k)
      ensures sentOn == Descriptor6(old(View()), id, k)
    {
      sentOn := None;
      var needsClose := false;
      if readFd.None? && cancelPending {
        return;
      }
      if !clients[id].fdOpen {
        var error := OpenSocket(id, k);
        if error {
          return;
        }
        needsClose := true;
      }
      if readFd.None? {
        nullDereference := true;
      }
      sentOn := readFd;
      if needsClose {
        CloseSocket(id);
      }
    }

    /** The BOOTP transmit: only unicast needs the shared socket, and it checks the descriptor. */
    method DoTransmit4(id: ClientId, broadcast: bool, k: Kernel) returns (okToSend: bool)
      requires Enabled(View(), Transmit4(id, broadcast, k)) && refcount >= 0
      modifies this
      ensures View() == AfterTransmit4(old(View()), id, broadcast, k)
      ensures okToSend == (broadcast || Opened(old(View()), id, k).readFd.Some?)
    {
      var needsClose := false;
      okToSend := true;
      if !broadcast {
        if !clients[id].fdOpen {
          var error := OpenSocket(id, k);
          needsClose := true;
        }
        if readFd.None? {
          okToSend := false;
        }
      }
      if needsClose {
        CloseSocket(id);
      }
    }

    /** Any event: the session does what the protocol step says, and stays consistent exactly when a
        dispatch source it asks for is made. */
    method Handle(e: Event)
      requires Inv(View()) && Enabled(View(), e)
      modifies this
      ensures View() == Step(old(View()), e)
      ensures Inv(View()) <==> (MakesSource(old(View()), e) ==> e.k.sourceMade)
    {
      StepKeepsInv(View(), e);
      match e
      case Create(id) => CreateClient(id);
      case Release(id) => ReleaseClient(id);
      case EnableReceive(id, k) => EnableReceiveOn(id, k);
      case DisableReceive(id) => DisableReceiveOn(id);
      case Transmit6(id, k) => var sentOn := DoTransmit6(id, k);
      case Transmit4(id, broadcast, k) => var ok := DoTransmit4(id, broadcast, k);
      case CloseTimerFires => DelayedClose();
      case ReadNotConnected => ReadFails();
      case CancelCompletes(fd, k) => FDComplete(fd, k);
    }
  }

  /** The descriptor a DHCPv6 transmit writes to. */
  function Descriptor6(s: State, id: ClientId, k: Kernel): Option<Fd>
    requires id in s.clients
  {
    if (s.readFd.None? && s.cancelPending) || OpenFails(s, id, k) then None
    else Opened(s, id, k).readFd
  }

  // ---------------------------------------------------------------- the invariant

  ghost function OpenIn(clients: map<ClientId, Client>): set<ClientId> {
    set id | id in clients && clients[id].fdOpen
  }

  ghost function OpenClients(s: State): set<ClientId> {
    OpenIn(s.clients)
  }

  function Held(s: State): set<Fd> {
    (if s.readFd.Some? then {s.readFd.value} else {}) + s.canceling
  }

  ghost predicate Inv(s: State) {
    && s.refcount == |OpenClients(s)|
    && (s.cancelPending ==> exists fd :: s.canceling == {fd})
    && (!s.cancelPending ==> s.canceling == {})
    && !(s.readFd.Some? && s.cancelPending)
    && (s.refcount > 0 ==> s.readFd.Some? || s.cancelPending)
    && (s.readFd.Some? && s.refcount == 0 ==> s.closeTimer)
    && (s.closeTimer ==> s.refcount == 0)
    && s.openFds == Held(s)
    && !s.nullDereference
  }

  /** The step asks for a dispatch source, the one system call the code does not check. */
  predicate MakesSource(s: State, e: Event)
    requires Enabled(s, e)
  {
    match e
    case EnableReceive(id, k) => NeedsSocket(s, id) && k.socket.Some?
    case Transmit6(id, k) => NeedsSocket(s, id) && k.socket.Some?
    case Transmit4(id, broadcast, k) => !broadcast && NeedsSocket(s, id) && k.socket.Some?
    case CancelCompletes(fd, k) => s.refcount > 0
    case _ => false
  }

  predicate SourceMade(e: Event) {
    (e.EnableReceive? || e.Transmit6? || e.Transmit4? || e.CancelCompletes?) ==> e.k.sourceMade
  }

  lemma OpenClientsAfter(s: State, id: ClientId, c: Client)
    ensures var after := OpenClients(s.(clients := s.clients[id := c]));
            after == if c.fdOpen then OpenClients(s) + {id} else OpenClients(s) - {id}
  {
  }

  /** Opening a closed client marks it; a failed socket call unmarks it again. */
  lemma OpenedClients(s: State, id: ClientId, k: Kernel)
    requires id in s.clients && !s.clients[id].fdOpen && s.refcount >= 0
    ensures Opened(s, id, k).clients
            == if OpenFails(s, id, k) then s.clients else s.clients[id := s.clients[id].(fdOpen := true)]
    ensures Opened(s, id, k).refcount == s.refcount + if OpenFails(s, id, k) then 0 else 1
  {
    var marked := s.clients[id := s.clients[id].(fdOpen := true)];
    assert marked[id := marked[id].(fdOpen := false)] == s.clients;
  }

  lemma MarkCounts(clients: map<ClientId, Client>, id: ClientId)
    requires id in clients && !clients[id].fdOpen
    ensures |OpenIn(clients[id := clients[id].(fdOpen := true)])| == |OpenIn(clients)| + 1
  {
    assert id !in OpenIn(clients);
    assert OpenIn(clients[id := clients[id].(fdOpen := true)]) == OpenIn(clients) + {id};
  }

  lemma OpenedCounts(s: State, id: ClientId, k: Kernel)
    requires Inv(s) && id in s.clients && Fresh(s, k)
    ensures Inv(Opened(s, id, k)) <==> !(NeedsSocket(s, id) && k.socket.Some? && !k.sourceMade)
    ensures !OpenFails(s, id, k) ==> Opened(s, id, k).clients[id].fdOpen && Opened(s, id, k).refcount > 0
    ensures NeedsSocket(s, id) && k.socket.Some? && !k.sourceMade ==>
              Opened(s, id, k).openFds == {k.socket.value} && Held(Opened(s, id, k)) == {}
  {
    if s.clients[id].fdOpen {
      assert id in OpenClients(s);
    } else {
      OpenedClients(s, id, k);
      MarkCounts(s.clients, id);
      if NeedsSocket(s, id) && k.socket.Some? {
        assert k.socket.value in Opened(s, id, k).openFds;
      }
    }
  }

  lemma ClosedCounts(s: State, id: ClientId)
    requires Inv(s) && id in s.clients
    ensures Inv(Closed(s, id)) && !Closed(s, id).clients[id].fdOpen
    ensures Closed(s, id).clients.Keys == s.clients.Keys
  {
    OpenClientsAfter(s, id, s.clients[id].(fdOpen := false));
    assert id in OpenClients(s) <==> s.clients[id].fdOpen;
    var r := Closed(s, id);
    assert OpenClients(r) == if s.clients[id].fdOpen then OpenClients(s) - {id} else OpenClients(s);
  }

  lemma ReceivingIrrelevant(s: State, id: ClientId, receiving: bool)
    requires id in s.clients
    ensures OpenIn(s.clients[id := s.clients[id].(receiving := receiving)]) == OpenIn(s.clients)
  {
  }

  /** Each interleaved step keeps the protocol's invariant exactly when any source it asks for is made. */
  lemma StepKeepsInv(s: State, e: Event)
    requires Inv(s) && Enabled(s, e)
    ensures Inv(Step(s, e)) <==> !(MakesSource(s, e) && !SourceMade(e))
  {
    match e {
      case Create(id) => CreateKeepsInv(s, id);
      case Release(id) => ReleaseKeepsInv(s, id);
      case DisableReceive(id) => DisabledCounts(s, id);
      case EnableReceive(id, k) =>
        ReceivingIrrelevant(s, id, true);
        OpenedCounts(s.(clients := s.clients[id := s.clients[id].(receiving := true)]), id, k);
      case Transmit6(id, k) => Transmit6KeepsInv(s, id, k);
      case Transmit4(id, broadcast, k) => Transmit4KeepsInv(s, id, broadcast, k);
      case CloseTimerFires =>
        if s.readFd.Some? {
          ScheduleKeepsInv(s, false);
        }
      case ReadNotConnected => ScheduleKeepsInv(s, s.closeTimer);
      case CancelCompletes(fd, k) => CancelKeepsInv(s, fd, k);
    }
  }

  lemma DisabledCounts(s: State, id: ClientId)
    requires Inv(s) && id in s.clients
    ensures Inv(Disabled(s, id)) && id in Disabled(s, id).clients && !Disabled(s, id).clients[id].fdOpen
  {
    ReceivingIrrelevant(s, id, false);
    ClosedCounts(s.(clients := s.clients[id := s.clients[id].(receiving := false)]), id);
  }

  lemma CreateKeepsInv(s: State, id: ClientId)
    requires Inv(s) && id !in s.clients
    ensures Inv(Step(s, Create(id)))
  {
    assert OpenIn(s.clients[id := Client(false, false)]) == OpenIn(s.clients);
  }

  lemma ReleaseKeepsInv(s: State, id: ClientId)
    requires Inv(s) && id in s.clients
    ensures Inv(Step(s, Release(id)))
  {
    DisabledCounts(s, id);
    var q := Disabled(s, id);
    assert OpenIn(q.clients - {id}) == OpenIn(q.clients);
  }

  lemma ScheduleKeepsInv(s: State, timer: bool)
    requires Inv(s) && s.readFd.Some? && (timer ==> s.closeTimer)
    ensures Inv(CloseScheduled(s.(closeTimer := timer)))
  {
    var q := CloseScheduled(s.(closeTimer := timer));
    assert q.canceling == {s.readFd.value};
    assert Held(q) == Held(s);
  }

  lemma CancelKeepsInv(s: State, fd: Fd, k: Kernel)
    requires Inv(s) && fd in s.canceling
    ensures Inv(AfterCancel(s, fd, k)) <==> s.refcount == 0 || k.sourceMade
  {
    var q := AfterCancel(s, fd, k);
    assert s.canceling == {fd} && q.canceling == {};
    assert s.refcount > 0 ==> q.openFds == {fd};
  }

  lemma Transmit6KeepsInv(s: State, id: ClientId, k: Kernel)
    requires Inv(s) && id in s.clients && Fresh(s, k)
    ensures Inv(AfterTransmit6(s, id, k)) <==> !(NeedsSocket(s, id) && k.socket.Some? && !k.sourceMade)
  {
    if !s.clients[id].fdOpen {
      OpenedCounts(s, id, k);
      var q := Opened(s, id, k);
      if Inv(q) {
        ClosedCounts(q, id);
      }
    } else {
      assert id in OpenClients(s);
      assert OpenClients(AfterTransmit6(s, id, k)) == OpenClients(s);
    }
  }

  lemma Transmit4KeepsInv(s: State, id: ClientId, broadcast: bool, k: Kernel)
    requires Inv(s) && id in s.clients && Fresh(s, k)
    ensures Inv(AfterTransmit4(s, id, broadcast, k))
            <==> !(!broadcast && NeedsSocket(s, id) && k.socket.Some? && !k.sourceMade)
  {
    if !broadcast && !s.clients[id].fdOpen {
      OpenedCounts(s, id, k);
      var q := Opened(s, id, k);
      if Inv(q) {
        ClosedCounts(q, id);
      }
    }
  }

  // ---------------------------------------------------------------- every run

  ghost predicate RunFrom(s: State, events: seq<Event>)
    decreases |events|
  {
    events == [] || (Enabled(s, events[0]) && RunFrom(Step(s, events[0]), events[1..]))
  }

  ghost function After(s: State, events: seq<Event>): State
    requires RunFrom(s, events)
    decreases |events|
  {
    if events == [] then s else After(Step(s, events[0]), events[1..])
  }

  /** Every interleaving in which dispatch sources can be made keeps the invariant throughout. */
  lemma {:induction false} RunKeepsInv(s: State, events: seq<Event>)
    requires Inv(s) && RunFrom(s, events)
    requires forall e :: e in events ==> SourceMade(e)
    ensures Inv(After(s, events))
    decreases |events|
  {
    if events != [] {
      StepKeepsInv(s, events[0]);
      RunKeepsInv(Step(s, events[0]), events[1..]);
    }
  }

  lemma InitialInv()
    ensures Inv(Initial)
  {
    assert OpenClients(Initial) == {};
  }

  /** A DHCPv6 transmit writes to the live descriptor unless it is refused or the socket call fails. */
  lemma Transmit6HasDescriptor(s: State, id: ClientId, k: Kernel)
    requires Inv(s) && id in s.clients && Fresh(s, k) && k.sourceMade
    ensures Descriptor6(s, id, k).None? <==> s.cancelPending || OpenFails(s, id, k)
    ensures Descriptor6(s, id, k).Some? ==> Descriptor6(s, id, k).value in Opened(s, id, k).openFds
    ensures !AfterTransmit6(s, id, k).nullDereference
  {
    OpenedCounts(s, id, k);
    Transmit6KeepsInv(s, id, k);
    assert id in OpenClients(s) <==> s.clients[id].fdOpen;
  }

  /** A BOOTP unicast is dropped exactly while a cancellation is outstanding or the socket call fails. */
  lemma Transmit4DroppedIff(s: State, id: ClientId, k: Kernel)
    requires Inv(s) && id in s.clients && Fresh(s, k) && k.sourceMade
    ensures Opened(s, id, k).readFd.None? <==> s.cancelPending || OpenFails(s, id, k)
  {
    OpenedCounts(s, id, k);
    assert id in OpenClients(s) <==> s.clients[id].fdOpen;
  }

  /** Nothing leaks: once no client holds the socket, the pending timer and cancellation close it. */
  lemma DrainsWhenUnused(s: State, k: Kernel)
    requires Inv(s) && s.refcount == 0
    ensures var timed := if s.closeTimer then Step(s, CloseTimerFires) else s;
            var done := if timed.cancelPending then
                          var fd :| fd in timed.canceling; Step(timed, CancelCompletes(fd, k))
                        else timed;
            && Inv(done) && done.openFds == {} && done.canceling == {} && done.readFd == None
            && !done.closeTimer && !done.cancelPending
  {
    var timed := if s.closeTimer then Step(s, CloseTimerFires) else s;
    if s.closeTimer {
      StepKeepsInv(s, CloseTimerFires);
    }
    if timed.cancelPending {
      var fd :| fd in timed.canceling;
      StepKeepsInv(timed, CancelCompletes(fd, k));
      assert timed.canceling == {fd};
    }
  }

  // ---------------------------------------------------------------- a source that cannot be made

  /** Open in the kernel, and known to nobody here. */
  predicate Leaked(s: State, fd: Fd) { fd in s.openFds && fd !in Held(s) }

  const UNREAD: seq<Event> := [Create(1), EnableReceive(1, Kernel(Some(7), false))]

  /** A run from the start that leaves a descriptor open with no one reading it and nothing to close it. */
  lemma UnmadeSourceLeaks()
    ensures RunFrom(Initial, UNREAD)
    ensures var s := After(Initial, UNREAD);
            && s == State(map[1 := Client(true, true)], None, 1, false, false, {}, {7}, false)
            && Leaked(s, 7) && !Inv(s)
  {
    var created := Initial.(clients := map[1 := Client(false, false)]);
    assert Step(Initial, Create(1)) == created;
    assert UNREAD[1..] == [EnableReceive(1, Kernel(Some(7), false))];
    var s := State(map[1 := Client(true, true)], None, 1, false, false, {}, {7}, false);
    assert Step(created, UNREAD[1]) == s;
    assert After(s, UNREAD[1..][1..]) == s;
  }

  lemma ClosedKeepsLeaked(s: State, id: ClientId, fd: Fd)
    requires Leaked(s, fd) && id in s.clients
    ensures Leaked(Closed(s, id), fd)
  {
  }

  lemma OpenedKeepsLeaked(s: State, id: ClientId, k: Kernel, fd: Fd)
    requires Leaked(s, fd) && id in s.clients && Fresh(s, k)
    ensures Leaked(Opened(s, id, k), fd)
  {
  }

  lemma Transmit6KeepsLeaked(s: State, id: ClientId, k: Kernel, fd: Fd)
    requires Leaked(s, fd) && id in s.clients && Fresh(s, k)
    ensures Leaked(AfterTransmit6(s, id, k), fd)
  {
    OpenedKeepsLeaked(s, id, k, fd);
    var q := Opened(s, id, k);
    ClosedKeepsLeaked(q.(nullDereference := q.nullDereference || q.readFd.None?), id, fd);
  }

  lemma CancelKeepsLeaked(s: State, closing: Fd, k: Kernel, fd: Fd)
    requires Leaked(s, fd) && closing in s.canceling
    ensures Leaked(AfterCancel(s, closing, k), fd)
  {
  }

  lemma StepKeepsLeaked(s: State, e: Event, fd: Fd)
    requires Leaked(s, fd) && Enabled(s, e)
    ensures Leaked(Step(s, e), fd)
  {
    match e
    case Create(id) =>
    case Release(id) => ClosedKeepsLeaked(s.(clients := s.clients[id := s.clients[id].(receiving := false)]), id, fd);
    case EnableReceive(id, k) =>
      OpenedKeepsLeaked(s.(clients := s.clients[id := s.clients[id].(receiving := true)]), id, k, fd);
    case DisableReceive(id) =>
      ClosedKeepsLeaked(s.(clients := s.clients[id := s.clients[id].(receiving := false)]), id, fd);
    case Transmit6(id, k) => Transmit6KeepsLeaked(s, id, k, fd);
    case Transmit4(id, broadcast, k) =>
      OpenedKeepsLeaked(s, id, k, fd);
      ClosedKeepsLeaked(Opened(s, id, k), id, fd);
    case CloseTimerFires =>
    case ReadNotConnected =>
    case CancelCompletes(closing, k) => CancelKeepsLeaked(s, closing, k, fd);
  }

  /** Once lost, a descriptor stays open over every run: no later event can close it. */
  lemma {:induction false} LeakedForever(s: State, events: seq<Event>, fd: Fd)
    requires Leaked(s, fd) && RunFrom(s, events)
    ensures Leaked(After(s, events), fd)
    decreases |events|
  {
    if events != [] {
      StepKeepsLeaked(s, events[0], fd);
      LeakedForever(Step(s, events[0]), events[1..], fd);
    }
  }
}
