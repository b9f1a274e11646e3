/** What each event does to the shared socket, told from its fields, and what a lost connection leads to. */
module SocketAnswers {
  import opened Common
  import opened SharedSocket

  // ---------------------------------------------------------------- giving the socket up

  /** A read that fails because the connection is lost takes the descriptor out of use and has it canceled. */
  lemma LostConnectionCancels(s: State)
    requires Inv(s) && Enabled(s, ReadNotConnected)
    ensures Step(s, ReadNotConnected) == s.(readFd := None, cancelPending := true, canceling := {s.readFd.value})
  {
    assert {} + {s.readFd.value} == {s.readFd.value};
  }

  /** The close timer does the same, to a socket still unused. */
  lemma TimerCancels(s: State)
    requires Inv(s) && Enabled(s, CloseTimerFires)
    ensures Step(s, CloseTimerFires) ==
            if s.readFd.None? then s.(closeTimer := false)
            else s.(closeTimer := false, readFd := None, cancelPending := true, canceling := {s.readFd.value})
  {
    assert s.readFd.Some? ==> {} + {s.readFd.value} == {s.readFd.value};
  }

  /** When the cancellation completes the descriptor is read again for the clients that came meanwhile, or closed. */
  lemma CompletionDecides(s: State, fd: Fd, k: Kernel)
    requires Inv(s) && Enabled(s, CancelCompletes(fd, k))
    ensures s.openFds == s.canceling == {fd}
    ensures Step(s, CancelCompletes(fd, k)) ==
            if s.refcount > 0
            then s.(cancelPending := false, canceling := {}, readFd := if k.sourceMade then Some(fd) else None)
            else s.(cancelPending := false, canceling := {}, openFds := {})
  {
    assert {fd} - {fd} == {};
  }

  // ---------------------------------------------------------------- using it

  /** A first user with nothing to share: a new descriptor, if the kernel has one, and a source to read it with. */
  predicate Alone(s: State) { s.readFd.None? && !s.cancelPending }

  lemma ReceiveOpens(s: State, id: ClientId, k: Kernel)
    requires Inv(s) && Enabled(s, EnableReceive(id, k))
    ensures var q := Step(s, EnableReceive(id, k));
            var on := s.(clients := s.clients[id := Client(true, true)]);
            if s.clients[id].fdOpen then q == on
            else if !Alone(s) then q == on.(refcount := s.refcount + 1, closeTimer := false)
            else if k.socket.None? then q == s.(clients := s.clients[id := Client(false, true)], closeTimer := true)
            else q == on.(refcount := 1, closeTimer := false, openFds := {k.socket.value},
                          readFd := if k.sourceMade then k.socket else None)
  {
    assert id in OpenClients(s) <==> s.clients[id].fdOpen;
    assert Alone(s) ==> s.openFds == {};
    assert k.socket.Some? ==> {} + {k.socket.value} == {k.socket.value};
    assert s.clients[id := Client(false, true)][id := Client(true, true)] == s.clients[id := Client(true, true)];
    assert s.clients[id := Client(false, true)][id := Client(true, true)][id := Client(false, true)]
           == s.clients[id := Client(false, true)];
  }

  /** The books after a client gives its use back: the last one starts the close timer. */
  function GivenBack(s: State, id: ClientId, clients: map<ClientId, Client>): State
    requires id in s.clients
  {
    if s.clients[id].fdOpen
    then s.(clients := clients, refcount := s.refcount - 1, closeTimer := s.refcount == 1)
    else s.(clients := clients)
  }

  lemma ReceiveCloses(s: State, id: ClientId)
    requires Inv(s) && Enabled(s, DisableReceive(id))
    ensures Step(s, DisableReceive(id)) == GivenBack(s, id, s.clients[id := Client(false, false)])
    ensures Step(s, Release(id)) == GivenBack(s, id, s.clients - {id})
  {
    if s.clients[id].fdOpen {
      assert id in OpenClients(s);
    }
    var c := s.clients[id := s.clients[id].(receiving := false)];
    assert c[id := Client(false, false)] == s.clients[id := Client(false, false)];
    assert s.clients[id := Client(false, false)] - {id} == s.clients - {id};
    assert s.clients[id := Client(false, false)][id := Client(false, false)] == s.clients[id := Client(false, false)];
  }

  lemma CreateAdds(s: State, id: ClientId)
    requires Enabled(s, Create(id))
    ensures Step(s, Create(id)) == s.(clients := s.clients[id := Client(false, false)])
  {
  }

  // ---------------------------------------------------------------- transmitting

  /** Borrowed for one packet: clients and counts are as before; a descriptor opened for it is kept for a while. */
  function Borrowed(s: State, k: Kernel): State {
    if !Alone(s) then s
    else if k.socket.None? then s.(closeTimer := true)
    else s.(closeTimer := true, openFds := {k.socket.value}, readFd := k.socket)
  }

  /** The descriptor there is, or a new one if none is being canceled. */
  function Usable(s: State, k: Kernel): Option<Fd> {
    if s.readFd.Some? then s.readFd else if s.cancelPending then None else k.socket
  }

  lemma BorrowedIs(s: State, id: ClientId, k: Kernel)
    requires Inv(s) && id in s.clients && Fresh(s, k) && k.sourceMade && !s.clients[id].fdOpen
    ensures var q := Opened(s, id, k);
            q.readFd == Usable(s, k)
            && Closed(q, id) == if !Alone(s) then s.(closeTimer := s.refcount == 0) else Borrowed(s, k)
  {
    assert Alone(s) ==> s.openFds == {} && s.refcount == 0;
    assert k.socket.Some? ==> {} + {k.socket.value} == {k.socket.value};
    assert s.clients[id := s.clients[id].(fdOpen := true)][id := s.clients[id].(fdOpen := true).(fdOpen := false)] == s.clients;
  }

  /** A DHCPv6 packet goes out on the usable descriptor. */
  lemma Transmit6Uses(s: State, id: ClientId, k: Kernel)
    requires Inv(s) && Enabled(s, Transmit6(id, k)) && k.sourceMade
    ensures Descriptor6(s, id, k) == Usable(s, k)
    ensures Step(s, Transmit6(id, k)) == if s.clients[id].fdOpen then s else Borrowed(s, k)
  {
    assert id in OpenClients(s) <==> s.clients[id].fdOpen;
    if !s.clients[id].fdOpen {
      BorrowedIs(s, id, k);
    }
  }

  /** A DHCPv6 packet follows a null pointer exactly when the socket it opened got no dispatch source. */
  lemma NullFollowedIff(s: State, id: ClientId, k: Kernel)
    requires Inv(s) && Enabled(s, Transmit6(id, k))
    ensures Step(s, Transmit6(id, k)).nullDereference <==>
            !s.clients[id].fdOpen && Alone(s) && k.socket.Some? && !k.sourceMade
  {
    assert id in OpenClients(s) <==> s.clients[id].fdOpen;
  }

  /** So would one of a client whose open descriptor was lost without a cancellation. */
  lemma NullWouldBeFollowed(s: State, id: ClientId, k: Kernel)
    requires Enabled(s, Transmit6(id, k)) && s.clients[id].fdOpen && s.readFd.None? && !s.cancelPending
    ensures Step(s, Transmit6(id, k)).nullDereference
  {
  }

  /** So does a BOOTP unicast; a broadcast needs none.  A unicast refused still starts the close timer. */
  lemma Transmit4Uses(s: State, id: ClientId, broadcast: bool, k: Kernel)
    requires Inv(s) && Enabled(s, Transmit4(id, broadcast, k)) && k.sourceMade
    ensures !broadcast ==> Opened(s, id, k).readFd == Usable(s, k)
    ensures Step(s, Transmit4(id, broadcast, k)) ==
            if broadcast || s.clients[id].fdOpen then s
            else if !Alone(s) then s.(closeTimer := s.refcount == 0)
            else Borrowed(s, k)
  {
    assert id in OpenClients(s) <==> s.clients[id].fdOpen;
    if !s.clients[id].fdOpen {
      BorrowedIs(s, id, k);
    }
  }

  // ---------------------------------------------------------------- until the cancellation completes

  /** No packet of the run is given a descriptor. */
  ghost predicate NoneSent(s: State, events: seq<Event>)
    requires RunFrom(s, events)
    decreases |events|
  {
    events == [] ||
    (&& (match events[0]
         case Transmit6(id, k) => Descriptor6(s, id, k) == None
         case Transmit4(id, broadcast, k) => broadcast || Opened(s, id, k).readFd == None
         case _ => true)
     && NoneSent(Step(s, events[0]), events[1..]))
  }

  lemma StaysCanceling(s: State, e: Event)
    requires Inv(s) && s.cancelPending && Enabled(s, e) && SourceMade(e) && !e.CancelCompletes?
    ensures var q := Step(s, e);
            q.cancelPending && q.readFd == None && q.canceling == s.canceling && q.openFds == s.openFds
  {
  }

  /** Over every run: while a cancellation is under way no packet is given a descriptor, and none is opened, until
      it completes. */
  lemma {:induction false} RefusedUntilCompletion(s: State, events: seq<Event>)
    requires Inv(s) && s.cancelPending && RunFrom(s, events)
    requires forall e :: e in events ==> SourceMade(e) && !e.CancelCompletes?
    ensures NoneSent(s, events)
    ensures var q := After(s, events);
            q.cancelPending && q.readFd == None && q.canceling == s.canceling && q.openFds == s.openFds
    decreases |events|
  {
    if events != [] {
      var e := events[0];
      StepKeepsInv(s, e);
      StaysCanceling(s, e);
      if e.Transmit6? {
        Transmit6Uses(s, e.id, e.k);
      }
      RefusedUntilCompletion(Step(s, e), events[1..]);
    }
  }

  /** So after a lost connection. */
  lemma {:induction false} LostConnectionRefuses(s: State, events: seq<Event>)
    requires Inv(s) && Enabled(s, ReadNotConnected) && RunFrom(Step(s, ReadNotConnected), events)
    requires forall e :: e in events ==> SourceMade(e) && !e.CancelCompletes?
    ensures NoneSent(Step(s, ReadNotConnected), events)
  {
    LostConnectionCancels(s);
    StepKeepsInv(s, ReadNotConnected);
    RefusedUntilCompletion(Step(s, ReadNotConnected), events);
  }
}
