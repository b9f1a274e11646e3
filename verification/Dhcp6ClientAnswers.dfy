/**
 What the DHCPv6 client does with each packet, each timer and each outside event, told from its fields:
 which answers bind, which give everything up, and which are ignored.
 */
module Dhcp6ClientAnswers {
  import opened Common
  import opened Dhcp6Lease
  import opened Dhcp6Backoff
  import opened Dhcp6Client
  import opened Dhcp6ClientLaws

  // ---------------------------------------------------------------- what is read

  /** A Reply for this client from a server that names itself. */
  predicate ForUs(p: Packet) { p.kind == Reply && p.forUs && p.server.Some? && p.serverValid }

  /** And with a status that can be read. */
  predicate Heard(p: Packet) { ForUs(p) && p.status.Some? }

  /** The association of the kind the client asks for. */
  function Asked(s: State, p: Packet): Option<IA> { if s.mode == StatefulPrefix then p.pd else p.na }

  /** An Advertise of a server with something to offer: its status is neither NoAddrsAvail nor NoPrefixAvail. */
  predicate Offers(s: State, p: Packet) {
    && p.kind == Advertise && p.forUs && p.server.Some? && p.serverValid
    && p.status.Some? && p.status.value != 2 && p.status.value != 6 && Choose(Asked(s, p)).Some?
  }

  /** The association itself says that the client is not on the link. */
  predicate NotOnLink(ia: Option<IA>) {
    && ia.Some? && ia.value.long && ia.value.options.Some? && ia.value.status == Some(4)
    && (ia.value.t1 == 0 || ia.value.t2 == 0 || ia.value.t1 <= ia.value.t2)
  }

  /** Run out, or not begun. */
  predicate Over(l: Lease, now: real) {
    l.times.valid != 0xffff_ffff && (now < l.start || now >= l.start + l.times.valid as real)
  }

  // ---------------------------------------------------------------- what it leads to

  predicate Emptied(q: State) {
    && q.saved == None && q.ia == None && q.address == None && q.serverId == None && q.savedMode == NoMode
    && q.lease == Lease(0.0, Times(0, 0, 0, 0), false, None)
  }

  /** Looking for servers from the beginning. */
  predicate Afresh(q: State, env: Env) {
    && q.cstate == Solicit && q.tries == 0 && Emptied(q) && q.receive == Some(OnSolicit)
    && q.timer == Some(Timer(OnSolicit, false, env.now + env.delay))
  }

  predicate GivesUp(q: State, env: Env) { Afresh(q, env) && q.ourIp == 0 }

  /** The link is gone: nothing is held and nothing is waited for. */
  predicate Quits(q: State) { Emptied(q) && q.ourIp == 0 && q.timer == None && q.receive == None }

  /** What is left of a lifetime, to within the second. */
  predicate Remains(left: nat, lifetime: nat, start: real, now: real) {
    var end := start + lifetime as real;
    if lifetime == 0xffff_ffff then left == 0xffff_ffff
    else if end <= now then left == 0
    else left > 0 && end <= now + left as real < end + 1.0
  }

  /** Handed down to the system: the address, and what is left of both lifetimes. */
  predicate HandedDown(q: State, l: Lease, a: SubOption, now: real)
    requires a.Address?
  {
    && q.installed.Some? && q.installed.value.address == a.address
    && Remains(q.installed.value.valid, l.times.valid, l.start, now)
    && Remains(q.installed.value.preferred, l.times.preferred, l.start, now)
  }

  /** RFC 8415 section 15: one more try, and the next timeout. */
  predicate NextTry(tries: nat, previous: real, q: State, irt: real, mrt: real, d: Draw) {
    var doubled := 2.0 * previous + d.double * previous;
    && q.tries == tries + 1
    && q.retransmit == if tries == 0 then irt + d.double * irt
                       else if mrt != 0.0 && doubled > mrt then mrt + d.cap * mrt
                       else doubled
  }

  /** The first Request has gone out. */
  predicate Requesting(q: State, env: Env) {
    && q.cstate == Request && NextTry(0, 0.0, q, 1.0, 30.0, env.draw) && q.lastSent == RequestMessage
    && q.startTime == env.now
    && q.receive == Some(OnRequest) && q.timer == Some(Timer(OnRequest, false, env.now + q.retransmit))
  }

  predicate KeepsLease(s: State, q: State) {
    q.lease == s.lease && q.saved == s.saved && q.ourIp == s.ourIp && q.address == s.address
  }

  /** Renewal is due at T1, or in ten seconds when that is past; a lease for ever has none. */
  predicate RenewalDue(q: State, l: Lease, now: real) {
    if l.times.valid == 0xffff_ffff then q.timer == None
    else
      && q.timer == Some(Timer(OnRenewRebind, true, q.renewTime))
      && var t1 := l.start + l.times.t1 as real;
      if now < t1 then t1 <= q.renewTime < t1 + 1.0 else q.renewTime == now + 10.0
  }

  predicate Duplicate(s: State, a: SubOption, env: Env)
    requires a.Address?
  {
    s.mode == StatefulAddress && a.address != 0 && env.addressState == Duplicated
  }

  /** The address is declined: it and its lease are gone, the server is told. */
  predicate Declines(q: State) {
    && q.cstate == Decline && q.ourIp == 0 && q.tries == 1 && q.receive == Some(OnDecline)
    && q.lastSent == DeclineMessage
    && q.lease == Lease(0.0, Times(0, 0, 0, 0), false, None)
  }

  /** The lease is taken into use, unless its address turns out to be a duplicate. */
  predicate TakesUse(s: State, q: State, l: Lease, a: SubOption, env: Env)
    requires a.Address?
  {
    && HandedDown(q, l, a, env.now)
    && if Duplicate(s, a, env) then Declines(q)
       else
         && q.cstate == Bound && q.lease == l.(valid := true) && q.receive == None && RenewalDue(q, l, env.now)
         && (if s.mode == StatefulAddress then q.ourIp == a.address && q.delegated == s.delegated
             else q.delegated == a.address && q.ourIp == s.ourIp)
  }

  /** The four times of a lease, from what the server sent. */
  predicate TimesFrom(t: Times, c: Chosen)
    requires c.address.Address?
  {
    var both := c.ia.t1 != 0 && c.ia.t2 != 0;
    if c.address.valid == 0xffff_ffff || (both && (c.ia.t1 == 0xffff_ffff || c.ia.t2 == 0xffff_ffff))
    then t == Times(0, 0, 0xffff_ffff, 0xffff_ffff)
    else
      && t.valid == c.address.valid && t.preferred == c.address.preferred
      && (if both then t.t1 == c.ia.t1 && t.t2 == c.ia.t2
          else 2 * t.t1 <= t.preferred < 2 * t.t1 + 2 && 5 * t.t2 <= 4 * t.preferred < 5 * t.t2 + 5)
  }

  /** The lease is the one a packet carries: the server's lifetimes to the second, counted from now. */
  predicate LeaseFrom(l: Lease, c: Chosen, env: Env)
    requires c.address.Address?
  {
    l.start == env.now && TimesFrom(l.times, c) && l.ssid == env.ssid && !l.valid
  }

  /** The packet replaces whatever was saved. */
  predicate Saves(s: State, q: State, p: Packet, c: Chosen) {
    && q.saved == Some(p) && q.serverId == p.server && q.savedMode == s.mode
    && q.ia == Some(c.ia) && q.address == Some(c.address)
  }

  /** The packet is saved, and the lease it carries taken into use. */
  ghost predicate Binds(s: State, q: State, p: Packet, env: Env) {
    && Choose(Asked(s, p)).Some?
    && var c := Choose(Asked(s, p)).value;
    Saves(s, q, p, c) && exists l :: LeaseFrom(l, c, env) && TakesUse(s, q, l, c.address, env)
  }

  // ---------------------------------------------------------------- choosing

  /** What is chosen from an association: the option the scan takes, if all of the association can be read,
      there is something in it and its T1 is not after its T2. */
  lemma ChosenIff(ia: Option<IA>, c: Chosen)
    ensures Choose(ia) == Some(c) <==>
            && ia == Some(c.ia) && c.ia.long && c.ia.options.Some? && c.ia.status.Some?
            && (c.ia.t1 == 0 || c.ia.t2 == 0 || c.ia.t1 <= c.ia.t2)
            && Scan(c.ia.options.value, 0).Some? && c.address == c.ia.options.value[Scan(c.ia.options.value, 0).value]
  {
  }

  // ---------------------------------------------------------------- saving a packet

  /** Lifetimes, T1 and T2 are the server's own unless it left T1 or T2 unset or made the lease endless. */
  lemma NormalisedTimes(ia: Option<IA>)
    requires Choose(ia).Some?
    ensures TimesFrom(Normalised(Choose(ia).value), Choose(ia).value)
  {
  }

  /** So the lease saved runs out when the server said, counted from the moment of saving. */
  lemma SavedExpiry(s: State, p: Packet, env: Env)
    requires Stateful(s.mode) && Choose(Asked(s, p)).Some?
    ensures var q := PacketSaved(s, p, env); var c := Choose(Asked(s, p)).value;
            Saves(s, q, p, c) && LeaseFrom(q.lease, c, env) && !Over(q.lease, env.now)
  {
    NormalisedTimes(Asked(s, p));
  }

  // ---------------------------------------------------------------- Bound

  lemma LeftRemains(lifetime: UInt32, start: real, now: real)
    requires start <= now && lifetime != INFINITE
    ensures Remains(Left(lifetime, (now - start).Floor), lifetime, start, now)
  {
  }

  lemma BoundAddressIs(s: State, valid: nat, preferred: nat, env: Env)
    requires s.address.Some? && s.address.value.Address? && s.cstate == Bound && s.mode == StatefulAddress
    requires s.savedMode == s.mode && s.serverId.Some? && s.ia.Some?
    ensures var q := BoundAddress(s, valid, preferred, env); var a := s.address.value;
            && q.installed == Some(Install(a.address, valid, preferred))
            && (if Duplicate(s, a, env) then Declines(q)
                else q == s.(ourIp := a.address, installed := q.installed))
            && q.saved == s.saved && q.serverId == s.serverId && q.savedMode == s.savedMode
            && q.ia == s.ia && q.address == s.address
  {
  }

  lemma InstalledIsUsed(s: State, elapsed: nat, env: Env)
    requires s.address.Some? && s.address.value.Address? && s.cstate == Bound && Stateful(s.mode)
    requires s.savedMode == s.mode && s.serverId.Some? && s.ia.Some?
    ensures var q := Installed(s, elapsed, env); var a := s.address.value;
            && (if Duplicate(s, a, env) then Declines(q)
                else q == s.(ourIp := if s.mode == StatefulAddress then a.address else s.ourIp,
                             delegated := if s.mode == StatefulAddress then s.delegated else a.address,
                             installed := q.installed))
            && q.saved == s.saved && q.serverId == s.serverId && q.savedMode == s.savedMode
            && q.ia == s.ia && q.address == s.address
  {
    var forever := s.lease.times.valid == INFINITE;
    var valid := if forever then INFINITE else Left(s.lease.times.valid, elapsed);
    var preferred := if forever then s.lease.times.preferred else Left(s.lease.times.preferred, elapsed);
    if s.mode == StatefulAddress {
      BoundAddressIs(s, valid, preferred, env);
    }
  }

  /** Bound: a lease that is over is given up, any other taken into use; the packet stays. */
  lemma BoundAnswers(s: State, env: Env)
    requires Backed(s) && Stateful(s.mode) && s.savedMode == s.mode && Normal(s.lease.times)
    ensures Over(s.lease, env.now) ==> GivesUp(BoundStarted(s, env), env)
    ensures !Over(s.lease, env.now) ==> TakesUse(s, BoundStarted(s, env), s.lease, s.address.value, env)
    ensures !Over(s.lease, env.now) ==>
              var q := BoundStarted(s, env);
              && q.saved == s.saved && q.serverId == s.serverId && q.savedMode == s.savedMode
              && q.ia == s.ia && q.address == s.address
  {
    var b := BoundEntered(s);
    if !Over(s.lease, env.now) {
      var forever := s.lease.times.valid == INFINITE;
      var elapsed := if forever then 0 else Elapsed(b.lease, env.now);
      InstalledIsUsed(b, elapsed, env);
      InstalledIs(b, elapsed, env);
      if !forever {
        LeftRemains(s.lease.times.valid, s.lease.start, env.now);
        LeftRemains(s.lease.times.preferred, s.lease.start, env.now);
      }
    }
  }

  lemma SavedBinds(s: State, p: Packet, env: Env)
    requires Inv(s) && Stateful(s.mode) && p.server.Some? && Choose(Asked(s, p)).Some?
    ensures Binds(s, BoundStarted(PacketSaved(s, p, env), env), p, env)
  {
    var q := PacketSaved(s, p, env);
    SavedExpiry(s, p, env);
    ChosenIsNormal(Asked(s, p));
    BoundAnswers(q, env);
    assert LeaseFrom(q.lease, Choose(Asked(s, p)).value, env);
  }

  /** The lease held is taken into use again, unless it is over or was cleared. */
  lemma HeldBinds(s: State, env: Env)
    requires Inv(s) && Stateful(s.mode)
    ensures Over(s.lease, env.now) ==> GivesUp(BoundStarted(s, env), env)
    ensures !Over(s.lease, env.now) ==>
              s.address.Some? && s.address.value.Address? && BoundStarted(s, env).saved == s.saved
              && TakesUse(s, BoundStarted(s, env), s.lease, s.address.value, env)
  {
    if HasLease(s) {
      CoherentNormal(s);
      BoundAnswers(s, env);
    }
  }

  // ---------------------------------------------------------------- packets

  /** Solicit keeps a usable Advertise that is preferred to the one saved, and no other packet; one of the
      greatest preference, or one after the first wait, is requested at once. */
  lemma SolicitAnswers(s: State, p: Packet, env: Env)
    requires Inv(s) && Enabled(s, Receive(p)) && s.receive == Some(OnSolicit)
    ensures var q := Step(s, Receive(p), env);
            if Offers(s, p) && (s.saved.None? || s.saved.value.preference < p.preference)
            then
              && Saves(s, q, p, Choose(Asked(s, p)).value) && LeaseFrom(q.lease, Choose(Asked(s, p)).value, env)
              && if s.tries > 1 || p.preference == 255 then Requesting(q, env)
                 else q.cstate == Solicit && q.tries == s.tries && q.timer == s.timer && q.receive == s.receive
            else q == s
  {
    if Offers(s, p) {
      SavedExpiry(s, p, env);
    }
  }

  /** Request: NotOnLink in the association starts the search afresh, a usable Reply binds, anything else
      changes nothing. */
  lemma RequestAnswers(s: State, p: Packet, env: Env)
    requires Inv(s) && Enabled(s, Receive(p)) && s.receive == Some(OnRequest)
    ensures var q := Step(s, Receive(p), env);
            if !Heard(p) || p.status == Some(2) || p.status == Some(6) then q == s
            else if NotOnLink(Asked(s, p)) then GivesUp(q, env)
            else if Choose(Asked(s, p)).None? then q == s
            else Binds(s, q, p, env)
  {
    if Heard(p) && Choose(Asked(s, p)).Some? {
      SavedBinds(s, p, env);
    }
  }

  /** Renew and Rebind: a refusal, or a Reply with no usable lease, gives everything up; a usable one binds. */
  lemma RenewAnswers(s: State, p: Packet, env: Env)
    requires Inv(s) && Enabled(s, Receive(p)) && s.receive == Some(OnRenewRebind)
    ensures var q := Step(s, Receive(p), env);
            if !Heard(p) then q == s
            else if p.status != Some(0) || Choose(Asked(s, p)).None? then GivesUp(q, env)
            else Binds(s, q, p, env)
  {
    if Heard(p) && Choose(Asked(s, p)).Some? {
      SavedBinds(s, p, env);
    }
  }

  /** Confirm: a refusal gives everything up.  Success binds the lease the client holds, or for a prefix the
      one the Reply carries if it does, unless the lease held is over. */
  lemma ConfirmAnswers(s: State, p: Packet, env: Env)
    requires Inv(s) && Enabled(s, Receive(p)) && s.receive == Some(OnConfirm)
    ensures var q := Step(s, Receive(p), env);
            if !Heard(p) then q == s
            else if p.status != Some(0) then GivesUp(q, env)
            else if s.mode == StatefulPrefix && Choose(p.pd).Some? then Binds(s, q, p, env)
            else if Over(s.lease, env.now) then GivesUp(q, env)
            else s.address.Some? && s.address.value.Address? && q.saved == s.saved
                 && TakesUse(s, q, s.lease, s.address.value, env)
  {
    HeldBinds(s, env);
    if Heard(p) && Choose(Asked(s, p)).Some? {
      SavedBinds(s, p, env);
    }
  }

  /** Decline: any Reply from a server starts the search afresh.  Inform: it is kept, and nothing is left to
      wait for. */
  lemma DeclineInformAnswers(s: State, p: Packet, env: Env)
    requires Inv(s) && Enabled(s, Receive(p)) && (s.receive == Some(OnDecline) || s.receive == Some(OnInform))
    ensures var q := Step(s, Receive(p), env);
            if !ForUs(p) then q == s
            else if s.receive == Some(OnDecline) then Afresh(q, env) && q.ourIp == s.ourIp
            else q.cstate == InformComplete && q.saved == Some(p) && q.timer == None && q.receive == None
                 && q.lease.times == Times(0, 0, 0, 0) && !q.lease.valid && q.address == None
  {
  }

  /** In Confirm the client ends up searching with nothing held if and only if the Reply refuses, or it
      succeeds and the lease Bound would use is over. */
  lemma ConfirmGivesUpIff(s: State, p: Packet, env: Env)
    requires Inv(s) && Enabled(s, Receive(p)) && s.receive == Some(OnConfirm)
    ensures GivesUp(Step(s, Receive(p), env), env) <==>
            Heard(p) && (p.status != Some(0)
                         || (!(s.mode == StatefulPrefix && Choose(p.pd).Some?) && Over(s.lease, env.now)))
  {
    ConfirmAnswers(s, p, env);
  }

  // ---------------------------------------------------------------- timers

  /** The same exchange goes on: a message is sent again and the answer waited for. */
  predicate Repeats(s: State, q: State, h: Handler, irt: real, mrt: real, env: Env) {
    && NextTry(s.tries, s.retransmit, q, irt, mrt, env.draw)
    && q.cstate == s.cstate && q.saved == s.saved && q.lease == s.lease && q.ourIp == s.ourIp && q.receive == s.receive
    && q.timer == Some(Timer(h, false, env.now + q.retransmit))
  }

  /** The exchange began with its first message. */
  predicate BeganAt(s: State, q: State, env: Env) { q.startTime == if s.tries == 0 then env.now else s.startTime }

  /** A message goes out if there is a saved lease of this mode and a server to send it to. */
  predicate Tells(s: State, q: State, m: Message) {
    q.lastSent == if s.savedMode == s.mode && s.serverId.Some? && s.ia.Some? then m else s.lastSent
  }

  /** Solicit: on a dead link the client quits; a saved packet is requested; else it solicits again. */
  lemma SolicitTimer(s: State, env: Env)
    requires Inv(s) && Enabled(s, TimerFires) && s.timer.value.handler == OnSolicit
    ensures var q := Step(s, TimerFires, env);
            if s.tries > 0 && env.linkInactive then Quits(q)
            else if s.saved.Some? then Requesting(q, env) && KeepsLease(s, q) && q.serverId == s.serverId
            else Repeats(s, q, OnSolicit, 1.0, 3600.0, env) && BeganAt(s, q, env)
  {
  }

  /** Request: ten tries, then the search starts afresh. */
  lemma RequestTimer(s: State, env: Env)
    requires Inv(s) && Enabled(s, TimerFires) && s.timer.value.handler == OnRequest
    ensures var q := Step(s, TimerFires, env);
            if s.tries >= 10 then Afresh(q, env) && q.ourIp == s.ourIp
            else Repeats(s, q, OnRequest, 1.0, 30.0, env) && (s.cstate == Request ==> q.lastSent == RequestMessage)
  {
  }

  /** Decline: five tries, then the search starts afresh. */
  lemma DeclineTimer(s: State, env: Env)
    requires Inv(s) && Enabled(s, TimerFires) && s.timer.value.handler == OnDecline
    ensures var q := Step(s, TimerFires, env);
            if s.tries >= 5 then Afresh(q, env) && q.ourIp == s.ourIp
            else Repeats(s, q, OnDecline, 1.0, 0.0, env) && (s.cstate == Decline ==> Tells(s, q, DeclineMessage))
  {
  }

  /** Confirm: on a dead link the client quits; after ten seconds without an answer it binds the lease it
      holds, if that is still good, and otherwise starts afresh; before that it asks again. */
  lemma ConfirmTimer(s: State, env: Env)
    requires Inv(s) && Enabled(s, TimerFires) && s.timer.value.handler == OnConfirm
    ensures var q := Step(s, TimerFires, env);
            if s.tries > 0 && env.linkInactive then Quits(q)
            else if s.tries > 0 && (env.now <= s.startTime || env.now >= s.startTime + 10.0) then
              if s.lease.valid && !Over(s.lease, env.now)
              then s.address.Some? && s.address.value.Address? && TakesUse(s, q, s.lease, s.address.value, env)
              else Afresh(q, env) && q.ourIp == s.ourIp
            else
              && Repeats(s, q, OnConfirm, 1.0, 4.0, env) && BeganAt(s, q, env)
              && (s.cstate == Confirm ==> Tells(s, q, if s.mode == StatefulPrefix then RebindMessage else ConfirmMessage))
  {
    var r := s.(timer := None);
    if s.lease.valid && !Over(s.lease, env.now) {
      HeldBinds(r, env);
    }
  }

  /** Inform: on a dead link the client quits; else it asks again. */
  lemma InformTimer(s: State, env: Env)
    requires Inv(s) && Enabled(s, TimerFires) && s.timer.value.handler == OnInform
    ensures var q := Step(s, TimerFires, env);
            if s.tries > 0 && env.linkInactive then Quits(q)
            else Repeats(s, q, OnInform, 1.0, 3600.0, env) && BeganAt(s, q, env)
  {
  }

  /** The wait of Renew or Rebind: the timeout drawn, but not beyond the given end by more than a second. */
  predicate WaitsUntil(q: State, end: real, now: real) {
    && q.timer == Some(Timer(OnRenewRebind, false, q.renewTime))
    && (q.renewTime == now + q.retransmit || (end <= q.renewTime < end + 1.0 && q.renewTime <= now + q.retransmit))
    && (now + q.retransmit < end ==> q.renewTime == now + q.retransmit)
  }

  /** What is told to a server, by the state it is told in. */
  function Told(c: CState): Message { if c == Renew then RenewMessage else RebindMessage }

  /** Answers are listened for: from now on, or as before. */
  predicate Listens(s: State, q: State, anew: bool, env: Env) {
    && q.receive == (if anew then Some(OnRenewRebind) else s.receive)
    && q.startTime == if anew then env.now else s.startTime
  }

  lemma WaitingIs(n: State, left: nat, end: real, env: Env)
    requires end <= env.now + left as real < end + 1.0
    ensures var q := Waiting(n, Lower(n.retransmit, left as real), env);
            && WaitsUntil(q, end, env.now) && KeepsLease(n, q) && q.cstate == n.cstate
            && q.tries == n.tries && q.retransmit == n.retransmit && Listens(n, q, false, env)
            && (CanSend(n) ==> q.lastSent == MessageFor(n.cstate, n.mode))
  {
  }

  lemma LeftIs(l: Lease, limit: nat, now: real)
    requires l.start <= now && Elapsed(l, now) <= limit
    ensures var end := l.start + limit as real;
            end <= now + (limit - Elapsed(l, now)) as real < end + 1.0
  {
  }

  predicate BeforeT2(l: Lease, now: real) { l.times.t2 > 0 && now < l.start + l.times.t2 as real }

  lemma ElapsedIs(l: Lease, now: real)
    requires l.times.valid != 0xffff_ffff && !Over(l, now)
    ensures l.start <= now && Elapsed(l, now) <= l.times.valid
    ensures Elapsed(l, now) < l.times.t2 <==> BeforeT2(l, now)
    ensures !Expired(l, now)
  {
  }

  lemma NextTryIs(s: State, q: State, irt: real, mrt: real, d: Draw)
    requires q.tries == NextRetransmit(s, irt, mrt, d).tries && q.retransmit == NextRetransmit(s, irt, mrt, d).retransmit
    ensures NextTry(s.tries, s.retransmit, q, irt, mrt, d)
  {
  }

  lemma RenewSends(s: State, env: Env)
    requires s.lease.valid && s.lease.times.valid != 0xffff_ffff && !Over(s.lease, env.now)
    ensures var elapsed := Elapsed(s.lease, env.now);
            RenewTimedOut(s, env) == if BeforeT2(s.lease, env.now) then RenewSent(s, elapsed, env)
                                     else RebindSent(s, elapsed, env)
  {
    ElapsedIs(s.lease, env.now);
    assert LeaseChecked(s, env.now) == s;
  }

  lemma RenewWaits(s: State, env: Env)
    requires Coherent(s) && Stateful(s.mode) && s.lease.valid && !Over(s.lease, env.now)
    requires BeforeT2(s.lease, env.now) && s.lease.times.valid != 0xffff_ffff
    ensures var q := RenewTimedOut(s, env);
            && KeepsLease(s, q) && q.cstate == s.cstate && NextTry(s.tries, s.retransmit, q, 10.0, 600.0, env.draw)
            && WaitsUntil(q, s.lease.start + s.lease.times.t2 as real, env.now)
            && (s.cstate == Renew || s.cstate == Rebind ==> q.lastSent == Told(s.cstate)) && Listens(s, q, false, env)
  {
    RenewSends(s, env);
    ElapsedIs(s.lease, env.now);
    LeftIs(s.lease, s.lease.times.t2, env.now);
    var n := NextRetransmit(s, 10.0, 600.0, env.draw);
    assert KeepsLease(s, n) && n.cstate == s.cstate;
    assert s.cstate == Renew || s.cstate == Rebind ==> CanSend(n) && MessageFor(n.cstate, n.mode) == Told(s.cstate);
    var left := s.lease.times.t2 - Elapsed(s.lease, env.now);
    WaitingIs(n, left, s.lease.start + s.lease.times.t2 as real, env);
    var q := RenewTimedOut(s, env);
    assert q == Waiting(n, Lower(n.retransmit, left as real), env);
    NextTryIs(s, q, 10.0, 600.0, env.draw);
  }

  lemma RebindWaits(s: State, env: Env)
    requires Coherent(s) && Stateful(s.mode) && s.lease.valid && !Over(s.lease, env.now)
    requires !BeforeT2(s.lease, env.now) && s.lease.times.valid != 0xffff_ffff
    ensures var q := RenewTimedOut(s, env);
            && KeepsLease(s, q) && q.cstate == Rebind && q.lastSent == RebindMessage
            && NextTry(if s.cstate == Rebind then s.tries else 0, s.retransmit, q, 10.0, 600.0, env.draw)
            && WaitsUntil(q, s.lease.start + s.lease.times.valid as real, env.now)
            && Listens(s, q, s.cstate != Rebind, env)
  {
    RenewSends(s, env);
    ElapsedIs(s.lease, env.now);
    LeftIs(s.lease, s.lease.times.valid, env.now);
    var n := NextRetransmit(RebindEntered(s, env), 10.0, 600.0, env.draw);
    assert KeepsLease(s, n) && n.cstate == Rebind;
    assert CanSend(n) && MessageFor(n.cstate, n.mode) == RebindMessage;
    var left := s.lease.times.valid - Elapsed(s.lease, env.now);
    WaitingIs(n, left, s.lease.start + s.lease.times.valid as real, env);
    var q := RenewTimedOut(s, env);
    assert q == Waiting(n, Lower(n.retransmit, left as real), env);
    NextTryIs(RebindEntered(s, env), q, 10.0, 600.0, env.draw);
  }

  lemma RenewEnds(s: State, env: Env)
    ensures !s.lease.valid || Over(s.lease, env.now) ==> GivesUp(RenewTimedOut(s, env), env)
  {
  }

  /** At the end of the lease everything is given up; before T2 the same server is asked, from T2 on any. */
  predicate RenewsOrEnds(s: State, q: State, start: bool, env: Env) {
    var l := s.lease;
    if !l.valid || Over(l, env.now) then GivesUp(q, env)
    else if BeforeT2(l, env.now) then
      && KeepsLease(s, q) && q.cstate == (if start then Renew else s.cstate)
      && NextTry(if start then 0 else s.tries, s.retransmit, q, 10.0, 600.0, env.draw)
      && (q.cstate == Renew || q.cstate == Rebind ==> q.lastSent == Told(q.cstate))
      && WaitsUntil(q, l.start + l.times.t2 as real, env.now) && Listens(s, q, start, env)
    else
      && KeepsLease(s, q) && q.cstate == Rebind && q.lastSent == RebindMessage
      && NextTry(if start || s.cstate != Rebind then 0 else s.tries, s.retransmit, q, 10.0, 600.0, env.draw)
      && WaitsUntil(q, l.start + l.times.valid as real, env.now)
      && Listens(s, q, start || s.cstate != Rebind, env)
  }

  lemma RenewGoesOn(s: State, start: bool, env: Env)
    requires Coherent(s) && Stateful(s.mode) && (s.lease.valid ==> s.lease.times.valid != 0xffff_ffff)
    ensures RenewsOrEnds(s, if start then RenewStarted(s, env) else RenewTimedOut(s, env), start, env)
  {
    var e := if start then RenewEntered(s, env) else s;
    RenewEnds(e, env);
    if s.lease.valid && !Over(s.lease, env.now) {
      if BeforeT2(s.lease, env.now) {
        RenewWaits(e, env);
      } else {
        RebindWaits(e, env);
      }
    }
  }

  /** The timer of Renew and Rebind, started afresh or not. */
  lemma RenewTimer(s: State, env: Env)
    requires Inv(s) && Enabled(s, TimerFires) && s.timer.value.handler == OnRenewRebind
    requires s.lease.valid ==> s.lease.times.valid != 0xffff_ffff
    ensures RenewsOrEnds(s, Step(s, TimerFires, env), s.timer.value.start, env)
  {
    RenewGoesOn(s.(timer := None), s.timer.value.start, env);
  }

  // ---------------------------------------------------------------- outside events

  /** The lease held is asked about again, after a delay. */
  predicate Confirms(s: State, q: State, env: Env) {
    && KeepsLease(s, q) && q.cstate == Confirm && q.tries == 0 && q.receive == Some(OnConfirm)
    && q.timer == Some(Timer(OnConfirm, false, env.now + env.delay))
  }

  /** A duplicate of the bound address is declined; other reports change nothing. */
  lemma AddressReported(s: State, env: Env)
    requires Inv(s) && Enabled(s, AddressEvent)
    ensures var q := Step(s, AddressEvent, env);
            if s.cstate == Bound && s.ourIp != 0 && env.addressState == Duplicated
            then q.cstate == Decline && q.ourIp == 0 && q.tries == 1 && q.receive == Some(OnDecline)
                 && q.lease == Lease(0.0, Times(0, 0, 0, 0), false, None)
                 && q.timer == Some(Timer(OnDecline, false, env.now + q.retransmit))
                 && (HasLease(s) ==> q.lastSent == DeclineMessage)
            else q == s
  {
  }

  predicate Good(s: State, now: real) { s.lease.valid && !Over(s.lease, now) }

  /** Waking elsewhere loses the address; waking with a lease that is over gives it up; with a good one the
      client confirms it if it was not in use or the access point changed, and else goes on renewing it. */
  lemma WakeDecides(s: State, w: Wake, env: Env)
    requires Inv(s) && Enabled(s, WakeEvent(w))
    ensures var q := Step(s, WakeEvent(w), env);
            if w.linkInactive then q == s.(ourIp := 0)
            else if (if env.wireless then w.networkChanged else !w.onSameNetwork) then
              q.ourIp == 0 && if s.cstate == Solicit then q == s.(ourIp := 0) else Afresh(q, env)
            else if !Good(s, env.now) then if s.cstate == Solicit then q == s else GivesUp(q, env)
            else if w.bssidChanged || !(s.cstate == Bound || s.cstate == Renew || s.cstate == Rebind) then Confirms(s, q, env)
            else if s.lease.times.valid == 0xffff_ffff then q == s
            else if s.renewTime >= env.now + 30.0 then q == s.(timer := Some(Timer(OnRenewRebind, true, s.renewTime)))
            else RenewsOrEnds(s, q, true, env)
  {
    if Good(s, env.now) && s.lease.times.valid != 0xffff_ffff {
      RenewGoesOn(s, true, env);
    }
  }

  /** A roam confirms a good lease in use, and drops one that is over with its packet. */
  lemma RoamDecides(s: State, env: Env)
    requires Inv(s) && Enabled(s, Roam)
    ensures var q := Step(s, Roam, env);
            if s.lease.valid && Over(s.lease, env.now) then
              Emptied(q) && q.cstate == s.cstate && q.ourIp == s.ourIp && q.timer == s.timer && q.receive == s.receive
            else if s.lease.valid && (s.cstate == Bound || s.cstate == Renew || s.cstate == Rebind) then Confirms(s, q, env)
            else q == s
  {
  }

  /** Starting: a stateful client confirms a good lease of the same mode and network, and else searches. */
  lemma StatefulStartDecides(s: State, env: Env)
    requires Stateful(s.mode)
    ensures var q := Started(s, env);
            if s.savedMode == s.mode && Good(s, env.now) && (env.wireless ==> env.ssid.Some? && s.lease.ssid == env.ssid)
            then Confirms(s, q, env)
            else Afresh(q, env) && q.ourIp == s.ourIp
  {
  }

  lemma StatelessStartDecides(s: State, env: Env)
    requires s.mode == Stateless
    ensures AsksForInformation(Started(s, env), env)
  {
  }

  predicate AsksForInformation(q: State, env: Env) {
    && q.cstate == Inform && q.receive == Some(OnInform) && Emptied(q)
    && if env.cellular then NextTry(0, 0.0, q, 1.0, 3600.0, env.draw)
                            && q.timer == Some(Timer(OnInform, false, env.now + q.retransmit))
       else q.tries == 0 && q.timer == Some(Timer(OnInform, false, env.now + env.delay))
  }

  /** The same for the events that start a client; a stateless one asks for information. */
  lemma StartDecides(s: State, e: Event, env: Env)
    requires Inv(s) && Enabled(s, e) && (e.SetModeAndStart? || e.LinkActive?)
    ensures var q := Step(s, e, env); var m := if s.mode == NoMode && e.SetModeAndStart? then e.m else s.mode;
            if m == Stateless then AsksForInformation(q, env)
            else if s.savedMode == m && Good(s, env.now) && (env.wireless ==> env.ssid.Some? && s.lease.ssid == env.ssid)
            then Confirms(s, q, env) && q.mode == m
            else Afresh(q, env) && q.ourIp == s.ourIp && q.mode == m
  {
    var r := if e.SetModeAndStart? && s.mode == NoMode then s.(mode := e.m) else s;
    if r.mode == Stateless {
      StatelessStartDecides(r, env);
    } else {
      StatefulStartDecides(r, env);
    }
  }

  /** Stopping removes address and prefix and keeps the packet for the next start; discarding forgets it, when
      there is no mode; a release forgets everything. */
  lemma EndsLeave(s: State, e: Event, env: Env)
    requires Inv(s) && Enabled(s, e) && (e.Stop? || e.Discard? || e.Release? || e.SetMode?)
    ensures var q := Step(s, e, env);
            match e
            case Stop => && q.ourIp == 0 && q.delegated == 0 && q.cstate == Inactive && q.mode == NoMode
                         && q.timer == None && q.receive == None && q.saved == s.saved && q.lease == s.lease
            case Discard => if s.mode == NoMode then Emptied(q) && q.ourIp == s.ourIp else q == s
            case Release => Emptied(q) && q.timer == None && q.receive == None && q.cstate == Freed && q.mode == NoMode
            case SetMode(m) => q == if s.mode == NoMode then s.(mode := m) else s
  {
  }

  /** A client begins with nothing held, nothing sent and nothing to wait for. */
  lemma BeginsEmpty()
    ensures var s := Initial();
            && s.mode == NoMode && s.cstate == Inactive && s.tries == 0 && Emptied(s)
            && s.ourIp == 0 && s.delegated == 0 && s.installed == None && s.lastSent == NoMessage
            && s.timer == None && s.receive == None && !s.nullDereference
  {
  }

  /** What the invariant keeps from happening: with an association but no address saved, a Request that is
      sent again, and a lease that Confirm binds after ten seconds, would follow the null pointer. */
  lemma NullWouldBeFollowed(s: State, env: Env)
    requires Stateful(s.mode) && Enabled(s, TimerFires) && s.address == None && !s.nullDereference
    ensures s.timer.value.handler == OnRequest && s.cstate == Request && s.tries < 10 && s.savedMode == s.mode
            && s.serverId.Some? && s.ia.Some?
            ==> Step(s, TimerFires, env).nullDereference
    ensures s.timer.value.handler == OnConfirm && s.tries > 0 && !env.linkInactive && env.now >= s.startTime + 10.0
            && s.lease.valid && !Over(s.lease, env.now)
            ==> Step(s, TimerFires, env).nullDereference
  {
  }
}
