# Models and proofs for the IP configuration agent

This project models the address-configuration agent in `IPConfiguration.bproj` and proves what its
state machines, shared lists and shared sockets promise. `dafny verify dfyconfig.toml` checks it.

Code that updates records step by step is modelled as a class whose methods update the same fields.
Each method is proved to leave the state that a function of the old state gives (`View() ==
Spec(old(View()), ...)`), and the laws are lemmas about those functions: invariants over every run,
orders, bounds, and exact conditions. Each of the four state machines has one entry, `Handle`, that takes
any event in any consistent state: it refines the step of the protocol and carries the invariant, so the
laws of the runs are laws of the object. The `Answers` modules say, from the fields alone, what one event
of every kind does to a state. Time stamps are real numbers, timers are "at most one pending
handler", random numbers are any value of their interval, and dispatch callbacks and packets fire in
any order. What comes from outside (clock, link status, network name, kernel answers, parsed packets)
is a parameter of the step.

| files | models | laws |
|---|---|---|
| `LeaseList.dfy`, `LeaseListLaws.dfy` | the DHCPv4 lease database of `DHCPLease.c` | reachable lists, lookup after update and removal, ARP rows |
| `Dhcp4Lease.dfy` | lease clock of `dhcp.c` | normalisation, clock jumps, renewal schedule |
| `Dhcp4Client.dfy`, `Dhcp4Machine.dfy`, `Dhcp4ClientLaws.dfy`, `Dhcp4ClientAnswers.dfy`, `Dhcp4ClientOrigin.dfy`, `Dhcp4ClientTimes.dfy`, `Dhcp4ClientRenewal.dfy` | the DHCPv4 client of `dhcp.c` | every answer and event, an address only with its lease, granted by a server, lease times in order, renewal on its way |
| `Dhcp6Lease.dfy`, `Dhcp6Backoff.dfy` | lease choice and backoff of `DHCPv6Client.c` | which option is taken, normal lifetimes, RFC 8415 section 15 |
| `Dhcp6Client.dfy`, `Dhcp6Machine.dfy`, `Dhcp6ClientLaws.dfy`, `Dhcp6ClientAnswers.dfy`, `Dhcp6ClientTiming.dfy` | the DHCPv6 client | every answer and event, coherence, expiry, timers, server selection |
| `SharedSocket.dfy`, `SocketAnswers.dfy` | the shared socket of `DHCPv6Socket.c` and `bootp_session.c` | reference counts and descriptors over all interleavings |
| `ArpSession.dfy`, `ArpInterface.dfy`, `ArpSessionLaws.dfy`, `ArpCommandLaws.dfy`, `ArpAnswers.dfy` | `arp_session.c` | descriptors, liveness and results of commands, packet bounds |
| `Clat46.dfy` | the CLAT46 pool of `rtadv.c` | conservation, distinct addresses |
| `PrefixMask.dfy` | prefix masks of `ifutil.c` | round trip, composition |
| `Common.dfy` | option type, filtering in order | |

## Where the code does not do what one would expect

Each of these is a lemma with a concrete case, next to the exact condition under which the code does
what it should.

- A zero-lifetime address option hides the option right after it, because the scan adds one to an index
  that is already past the option (`Dhcp6Lease.WithdrawnHidesGood`; condition: `FirstUsableTakenIff`).
- A DHCPv4 client whose router does not answer the first ARP search loses its renewal timer to the retry
  timer. If no later search succeeds either, search and retry take turns for ever, the lease neither renewed
  nor given up (runs from the start: `Dhcp4ClientRenewal.LeaseOutlived`; when nobody answers it is given up
  exactly under the condition of `HeldLeaseIsGivenUpIff`). If one does, nothing is pending any more
  (`RenewalLost`). Over every run the renewal is coming as long as no search has timed out
  (`RenewalComing`), and one event alone takes it away (`RenewalLostIff`).
- An address that a server only offered is configured, for the time it offered, when the router of a stored
  lease for the same public address answers (`Dhcp4ClientOrigin.OfferConfigured`; condition:
  `StepKeepsEarnedIff`, over runs `ConfiguredWasGranted`).
- A conflict packet can restart a probe for an ARP client that has no descriptor
  (`ArpCommandLaws.StrayRestartHappens`; condition: `ArpSessionLaws.StepKeepsInv`; never when every command
  gets its descriptor: `ArpCommandLaws.ProvidedRunsAreSafe`).
- Canceling an ARP client frees its detect list but keeps its length. When the client's next command cannot
  start, a reply is compared with entries of the freed list, through a null pointer
  (`ArpCommandLaws.FreedListReached`; conditions as for the last).
- An ARP answer can be replaced by "not in use" when the retransmit timer runs before the scheduled
  callback (a run from the start: `ArpCommandLaws.AnswerLost`; condition over every run up to the callback:
  `AnswerReportedIff`).
- On clocks with fractions of a second the renewal count exceeds the whole-second bound
  (`Dhcp4Lease.FourMinutesFourRequests`; exact threshold: `ThresholdIsExact`).
- A lookup by a key with a link address length but no link address can match two leases
  (`LeaseListLaws.NullLinkAddressRemovesOneOfTwo`; condition: `RemoveForgets`). No call site builds such a
  key: a missing address comes with length 0 (`dhcp.c` 1643-1673), and the ARP result always has one
  (3570-3574).
- A prefix mask with a stray lowest bit in its boundary byte is accepted
  (`PrefixMask.StrayBitAccepted`; condition: `ReportedLengthIsExactIff`).
- A CLAT46 address that 65535 services hold looks unused after one more
  (`Clat46.WrappedLooksUnused`; condition: `StepConserves`).
- A dispatch source that cannot be created leaves a socket open with no one reading it, for good (a run from
  the start: `SharedSocket.UnmadeSourceLeaks`; afterwards: `LeakedForever`; condition: `StepKeepsInv`).

## Assumptions

- The services run on one serial queue, so a handler is one step.
- DHCPv4: the machine is not booted from the network. The packet, once verified, is a record of what the
  client reads from it. A stored lease has a non-zero address.
- DHCPv6: setting a mode is followed at once by a start, or the mode is the stateful one the saved packet
  is for; wake, roam and link events reach a client only while its mode is stateful. A finite lease is
  shorter than the 32-bit range of seconds, and so is every elapsed time compared with it.
- CLAT46: one router-advertisement service per interface, so the translation is active for an interface
  exactly while it is for its service.

## Model

| member | source | states |
|---|---|---|
| LeaseListLaws.ReachableListsApart | IPConfiguration.bproj/DHCPLease.c:785-923 | every list reached by any mix of updates, removals, forgotten networks, NAK flags and stale removal, from empty or from the lease read at start, keeps every pair of leases apart |
| LeaseListLaws.ApartMeans | IPConfiguration.bproj/DHCPLease.c:785-895 | what apart means to a reader: only the last lease may lack router IP or MAC, no two share router IP, MAC length and MAC, no two share a public IP |
| LeaseListLaws.UpdateYields | IPConfiguration.bproj/DHCPLease.c:858-895 | an update yields exactly the old leases the eviction test spares, in order, then the new one, with no NAK flag left set |
| LeaseListLaws.FindAfterUpdate | IPConfiguration.bproj/DHCPLease.c:665-709 | looking a key up right after saving it gives the last index, if and only if the key is storable (its link address fits and is there when a length is given) |
| LeaseListLaws.RemoveForgets | IPConfiguration.bproj/DHCPLease.c:903-923 | after a removal the key is not found if and only if at most one lease answered to it; all other leases stay, in order |
| LeaseListLaws.ReachableKeysUnique | IPConfiguration.bproj/DHCPLease.c:665-709 | on reachable lists a key answers to at most one lease, apart from a private one with a router and a link address length but no link address |
| LeaseListLaws.NullLinkAddressRemovesOneOfTwo | IPConfiguration.bproj/DHCPLease.c:665-709 | that exception happens: two leases answer to one key and a removal leaves the second |
| LeaseListLaws.ArpRowFindsItsLease | IPConfiguration.bproj/DHCPLease.c:582-709 | a row made for a lease maps back to that lease exactly when the interface's link address length is the stored one or the address is public |
| LeaseListLaws.EveryArpRowFindsItsLease | IPConfiguration.bproj/DHCPLease.c:582-709 | with equal lengths every row handed to the ARP probe comes from an unexpired lease that the lookup maps it back to |
| LeaseListLaws.ForgetWiFi | IPConfiguration.bproj/DHCPLease.c:744-765 | forgetting a network leaves exactly the leases of other networks, in order |
| LeaseListLaws.UpdateKeepsExactly | IPConfiguration.bproj/DHCPLease.c:785-895 | which older leases stay, field by field: router and link address named, no NAK that concerns the new one, another public address, another router; they stay in order and the new one is last |
| LeaseListLaws.FindIs | IPConfiguration.bproj/DHCPLease.c:665-709 | the index found is the first for the address, and for a private one behind the router and link address the key gives |
| LeaseListLaws.NewLeaseIs | IPConfiguration.bproj/DHCPLease.c:858-895 | the lease stored is what the caller gave, with as much of the link address as fits, and no flag set |
| LeaseListLaws.KeptLeases | IPConfiguration.bproj/DHCPLease.c:453-765 | exactly which leases forgetting a network, dropping stale ones and choosing what to probe keep |
| LeaseListLaws.PrivateIff | bootplib/util.h:95-105 | 10/8, 172.16/12 and 192.168/16 |
| LeaseListLaws.RowIs | IPConfiguration.bproj/DHCPLease.c:582-658 | a row asks the lease's router at its link address in the lease's name |
| LeaseListLaws.ApplyKeepsApart | IPConfiguration.bproj/DHCPLease.c:785-923 | one operation of any kind keeps the leases apart |
| LeaseListLaws.UpdateKeepsApart | IPConfiguration.bproj/DHCPLease.c:785-895 | the four eviction rules are enough to keep the leases apart around any new lease |
| LeaseList.LeaseDatabase.Read | IPConfiguration.bproj/DHCPLease.c:497-533 | starts from the saved lease alone, if there is one and it has not expired |
| LeaseList.LeaseDatabase.SetNAK | IPConfiguration.bproj/DHCPLease.c:255-260 | marks one lease and changes nothing else |
| LeaseList.LeaseDatabase.RemoveStaleLeases | IPConfiguration.bproj/DHCPLease.c:453-485 | keeps exactly the unexpired leases, in order, by the index loop that steps back after each removal |
| LeaseList.LeaseDatabase.ShouldBeRemoved | IPConfiguration.bproj/DHCPLease.c:785-850 | answers the eviction test and clears the NAK flag of the lease it looked at |
| LeaseList.LeaseDatabase.UpdateLease | IPConfiguration.bproj/DHCPLease.c:858-895 | the in-place loop leaves the filtered list followed by the new lease |
| LeaseList.LeaseDatabase.FindLease | IPConfiguration.bproj/DHCPLease.c:665-709 | the first index whose lease matches the key, or not found when none does |
| LeaseList.LeaseDatabase.RemoveLease | IPConfiguration.bproj/DHCPLease.c:903-923 | removes the lease the lookup finds and only it |
| LeaseList.LeaseDatabase.FindLeaseForWiFi | IPConfiguration.bproj/DHCPLease.c:717-737 | the last lease of the network, or not found when there is none |
| LeaseList.LeaseDatabase.RemoveLeaseForWiFi | IPConfiguration.bproj/DHCPLease.c:744-765 | removes every lease of the network |
| LeaseList.LeaseDatabase.CopyARPAddressInfo | IPConfiguration.bproj/DHCPLease.c:582-658 | drops stale leases, then gives one row for each lease worth probing, in order |
| LeaseList.FindFrom | IPConfiguration.bproj/DHCPLease.c:665-709 | the index found matches and no earlier one does |
| Dhcp6Lease.ScanSkipsOddRun | IPConfiguration.bproj/DHCPv6Client.c:646-697 | which option the scan takes: the first that decides if an even run of zero-lifetime options comes right before it, otherwise whatever a scan from behind it takes |
| Dhcp6Lease.FirstUsableTakenIff | IPConfiguration.bproj/DHCPv6Client.c:646-697 | the first address with non-zero lifetimes is taken if and only if that run is even (the loop adds one to an index already past the option) |
| Dhcp6Lease.WithdrawnHidesGood | IPConfiguration.bproj/DHCPv6Client.c:646-697 | a concrete reply in which one withdrawn address hides a good one |
| Dhcp6Lease.NoneDecisive | IPConfiguration.bproj/DHCPv6Client.c:646-697 | with only zero-lifetime or other options nothing is taken |
| Dhcp6Lease.Scan | IPConfiguration.bproj/DHCPv6Client.c:646-697 | whatever is taken lies at or after the start, is long enough and has 0 < preferred <= valid |
| Dhcp6Lease.Choose | IPConfiguration.bproj/DHCPv6Client.c:562-711 | an accepted association has T1 <= T2 when both are set and a usable address |
| Dhcp6Lease.GetIA | IPConfiguration.bproj/DHCPv6Client.c:562-711 | the loop over sub-options computes the scan, its result and the reported status code |
| Dhcp6Lease.GetOption | bootplib/DHCPv6Options.c:747-774 | the first option of the code at or after the index, and the index one past it |
| Dhcp6Lease.ChosenIsNormal | IPConfiguration.bproj/DHCPv6Client.c:1251-1323 | after normalisation T1 <= T2, 0 < preferred <= valid, valid infinite iff preferred infinite, and infinite means T1 = T2 = 0 |
| Dhcp6Lease.T2WithinPreferredIff | IPConfiguration.bproj/DHCPv6Client.c:1251-1323 | T2 lies within the preferred lifetime if and only if the client computed it, the lease is infinite, or the server's own T2 did |
| Dhcp6ClientAnswers.ChosenIff | IPConfiguration.bproj/DHCPv6Client.c:562-711 | what is chosen from an association, exactly: all of it can be read, there is something in it, T1 is not after T2, and the scan takes that option |
| Dhcp6ClientAnswers.NormalisedTimes | IPConfiguration.bproj/DHCPv6Client.c:1251-1323 | the lifetimes saved are the option's to the second unless the lease is endless; T1 and T2 are the server's when both are set, else half and four fifths of the preferred lifetime |
| Dhcp6ClientAnswers.SavedExpiry | IPConfiguration.bproj/DHCPv6Client.c:1214-1324 | a saved lease runs out at the moment of saving plus the option's valid lifetime, and is not over yet |
| Dhcp6Lease.Normalise | IPConfiguration.bproj/DHCPv6Client.c:1278-1311 | the assignments in place compute the normalised times |
| Dhcp6Backoff.CappedEnvelope | IPConfiguration.bproj/DHCPv6Client.c:846-868 | for every choice of random numbers and 0 < IRT <= MRT the n-th timeout lies between min(0.9 IRT 1.9^(n-1), 0.9 MRT) and 1.1 MRT |
| Dhcp6Backoff.UncappedEnvelope | IPConfiguration.bproj/DHCPv6Client.c:846-868 | without a maximum it lies between 0.9 IRT 1.9^(n-1) and 1.1 IRT 2.1^(n-1) |
| Dhcp6Backoff.UncappedEnvelopeIsTight | IPConfiguration.bproj/DHCPv6Client.c:846-868 | both series are reached, so the bounds cannot be improved |
| Dhcp6ClientTiming.RetransmitIsNthTimeout | IPConfiguration.bproj/DHCPv6Client.c:1081-1101 | the client's counter and last timeout after n retransmissions are n and the n-th timeout |
| Dhcp6ClientTiming.ClientWaitsInEnvelope | IPConfiguration.bproj/DHCPv6Client.c:1081-1101 | so the client's n-th wait lies in the envelope |
| Dhcp6ClientLaws.StepKeepsInv | IPConfiguration.bproj/DHCPv6Client.c:1728-2805 | every event, in any state, keeps the saved packet, its pointers, the lease fields, the mode and the pending handlers coherent |
| Dhcp6ClientLaws.RunKeepsInv | IPConfiguration.bproj/DHCPv6Client.c:1728-3162 | the same over every run |
| Dhcp6ClientLaws.ReachableCoherent | IPConfiguration.bproj/DHCPv6Client.c:1127-1324 | over every run: IA pointer null iff address pointer null; a valid lease or a non-zero valid lifetime means both come from the saved packet and the times are normal; Request always can send; no null pointer is followed |
| Dhcp6ClientLaws.PacketSavedBacks | IPConfiguration.bproj/DHCPv6Client.c:1214-1324 | a stateful save of a packet with a usable address leaves the pointers, the lease and the server identifier that packet carries |
| Dhcp6ClientLaws.BoundUnbindsIff | IPConfiguration.bproj/DHCPv6Client.c:2444-2513 | Bound goes back to Solicit if and only if the lease is finite and over or not begun, a lease cleared under Confirm included |
| Dhcp6ClientLaws.BoundInstallsWhatIsLeft | IPConfiguration.bproj/DHCPv6Client.c:2458-2492 | otherwise it installs the chosen address with what is left: validity of at least a second, preferred no longer, expiry the same to within the second |
| Dhcp6ClientLaws.ExpiryMovesOnlyWithAPacket | IPConfiguration.bproj/DHCPv6Client.c:1728-3131 | no event other than a packet that is saved moves the start or lifetimes of a lease, unless the lease is cleared |
| Dhcp6ClientLaws.ReleaseTellsServerIff | IPConfiguration.bproj/DHCPv6Client.c:2946-2994 | a released client sends a Release if and only if its mode is stateful, the link is up and its lease is still good, and its address goes with it |
| Dhcp6ClientAnswers.BoundAnswers | IPConfiguration.bproj/DHCPv6Client.c:2444-2513 | Bound gives a lease that is over up; any other it hands down with what is left of both lifetimes to the second, declines a duplicate, and else has the address in use and renewal due at T1 |
| Dhcp6ClientAnswers.SolicitAnswers | IPConfiguration.bproj/DHCPv6Client.c:2707-2797 | an Advertise with something to offer and preferred to the one saved is kept, and requested at once if it comes after the first wait or has preference 255; any other packet changes nothing |
| Dhcp6ClientAnswers.RequestAnswers | IPConfiguration.bproj/DHCPv6Client.c:2568-2632 | NotOnLink in the association gives everything up, a usable Reply is saved and bound, any other packet changes nothing |
| Dhcp6ClientAnswers.RenewAnswers | IPConfiguration.bproj/DHCPv6Client.c:2006-2061 | a Reply that refuses, or carries no usable lease, gives everything up; a usable one is saved and bound; any other packet changes nothing |
| Dhcp6ClientAnswers.ConfirmAnswers | IPConfiguration.bproj/DHCPv6Client.c:2133-2194 | a Reply that refuses gives everything up; one that succeeds binds the lease held, or for a prefix the one it carries; any other packet changes nothing |
| Dhcp6ClientAnswers.ConfirmGivesUpIff | IPConfiguration.bproj/DHCPv6Client.c:2133-2194 | in Confirm the client ends searching with nothing held if and only if the Reply refuses, or succeeds while the lease Bound would use is over |
| Dhcp6ClientAnswers.DeclineInformAnswers | IPConfiguration.bproj/DHCPv6Client.c:1792-1921 | in Decline any Reply of a server starts the search again, in Inform it is kept and nothing is waited for; any other packet changes nothing |
| Dhcp6ClientAnswers.SolicitTimer | IPConfiguration.bproj/DHCPv6Client.c:2663-2690 | a dead link quits; a saved packet is requested; else one more Solicit with the next timeout of IRT 1 and MRT 3600 |
| Dhcp6ClientAnswers.RequestTimer | IPConfiguration.bproj/DHCPv6Client.c:2549-2567 | ten tries with IRT 1 and MRT 30, then the search starts again |
| Dhcp6ClientAnswers.DeclineTimer | IPConfiguration.bproj/DHCPv6Client.c:1873-1890 | five tries with IRT 1, then the search starts again |
| Dhcp6ClientAnswers.ConfirmTimer | IPConfiguration.bproj/DHCPv6Client.c:2091-2132 | a dead link quits; after ten seconds a lease still good is bound and any other dropped; else one more Confirm (Rebind for a prefix) with IRT 1 and MRT 4 |
| Dhcp6ClientAnswers.InformTimer | IPConfiguration.bproj/DHCPv6Client.c:1768-1791 | a dead link quits, else one more request with IRT 1 and MRT 3600 |
| Dhcp6ClientAnswers.RenewTimer | IPConfiguration.bproj/DHCPv6Client.c:1935-2004 | at the end of the lease everything is given up; before T2 a Renew goes out and the wait ends by T2, from T2 on a Rebind and the wait ends with the lease, with IRT 10 and MRT 600 and a counter for each |
| Dhcp6ClientAnswers.AddressReported | IPConfiguration.bproj/DHCPv6Client.c:2201-2234 | a duplicate of the bound address is declined and its lease dropped; any other report changes nothing |
| Dhcp6ClientAnswers.WakeDecides | IPConfiguration.bproj/DHCPv6Client.c:2263-2352 | waking elsewhere loses the address; a lease that is over is given up; a good one is confirmed, left alone, re-armed or renewed as the code decides |
| Dhcp6ClientAnswers.RoamDecides | IPConfiguration.bproj/DHCPv6Client.c:3114-3131 | a roam confirms a good lease in use, and drops one that is over |
| Dhcp6ClientAnswers.StartDecides | IPConfiguration.bproj/DHCPv6Client.c:2831-2892 | a start confirms a saved lease that is good and of the same mode and network, else searches; a stateless one asks for information |
| Dhcp6ClientAnswers.NullWouldBeFollowed | IPConfiguration.bproj/DHCPv6Client.c:2444-2567 | what the invariant rules out: with an association but no address saved, a repeated Request and a lease bound by Confirm would follow the null pointer |
| Dhcp6ClientAnswers.EndsLeave | IPConfiguration.bproj/DHCPv6Client.c:2894-2994 | what stopping, discarding, setting a mode and releasing leave behind |
| Dhcp6ClientTiming.StepKeepsTimed | IPConfiguration.bproj/DHCPv6Client.c:1947-2004 | while a finite lease with T2 within its lifetime is held, a renew timer is pending: by T2 + 1 s in Renew, expiry + 1 s in Rebind, expiry + 10 s in Bound, and waking sets the same instant again |
| Dhcp6ClientTiming.RunKeepsTimed | IPConfiguration.bproj/DHCPv6Client.c:1928-2513 | the same over every run |
| Dhcp6ClientTiming.RenewTimedOutTimed | IPConfiguration.bproj/DHCPv6Client.c:1947-2004 | every wait in Renew and Rebind is at least a second and ends by the deadline |
| Dhcp6ClientTiming.BoundTimed | IPConfiguration.bproj/DHCPv6Client.c:2493-2507 | the wait set by Bound ends by its deadline |
| Dhcp6ClientTiming.LiveTimerRun | IPConfiguration.bproj/DHCPv6Client.c:1928-2004 | a timer firing keeps the lease and waits again exactly while the lease lasts; after that the client is in Solicit with no address, lease or packet |
| Dhcp6ClientTiming.SilentServerEndsLease | IPConfiguration.bproj/DHCPv6Client.c:1928-2004 | with a silent server the number of firings is bounded by the seconds left |
| Dhcp6ClientTiming.SilentServerUnbinds | IPConfiguration.bproj/DHCPv6Client.c:1928-2004 | a server silent up to the end of the lease: the client ends in Solicit with no address, lease or packet |
| Dhcp6ClientTiming.SavedIsBest | IPConfiguration.bproj/DHCPv6Client.c:2707-2797 | during the first wait, each Advertise in its own moment, the saved packet is the best so far; the wait goes on while no usable one has preference 255 |
| Dhcp6ClientTiming.FirstWaitEndsIff | IPConfiguration.bproj/DHCPv6Client.c:2707-2797 | the first wait is cut short if and only if a usable Advertise of preference 255 arrives, and it is that one which is requested |
| Dhcp6ClientTiming.BestIsEarliestOfGreatest | IPConfiguration.bproj/DHCPv6Client.c:2765-2780 | best means the earliest usable one of the greatest preference |
| Dhcp6ClientTiming.MovesToRequestIff | IPConfiguration.bproj/DHCPv6Client.c:2765-2797 | an Advertise moves the client to Request at once if and only if it is usable, preferred to the saved one, and of preference 255 or after the first wait; the Request then answers it |
| Dhcp6ClientTiming.WaitOverRequestsIff | IPConfiguration.bproj/DHCPv6Client.c:2664-2680 | when the wait ends Request is entered if and only if a packet was saved |
| Dhcp6Machine.Client.constructor | IPConfiguration.bproj/DHCPv6Client.c:2813-2829 | a new client holds nothing and waits for nothing |
| Dhcp6Machine.Client.NextTimeout | IPConfiguration.bproj/DHCPv6Client.c:1088-1101 | counts a try and draws the next timeout |
| Dhcp6Machine.Client.LeaseStillValid | IPConfiguration.bproj/DHCPv6Client.c:1183-1212 | drops the packet of a lease that is over or begins in the future, and answers whether a lease is left |
| Dhcp6Machine.Client.SavePacket | IPConfiguration.bproj/DHCPv6Client.c:1214-1324 | replaces packet, pointers, lease and mode together, or leaves them cleared |
| Dhcp6Machine.Client.SendPacket | IPConfiguration.bproj/DHCPv6Client.c:1591-1726 | sends only with a stateful mode, matching saved mode, server identifier and association, in the states that have a message; the message is the state's, a Rebind for a Confirm of a prefix |
| Dhcp6Machine.Client.SolicitTimeout | IPConfiguration.bproj/DHCPv6Client.c:2663-2690 | requests from the saved server, if any, else solicits again |
| Dhcp6Machine.Client.SolicitData | IPConfiguration.bproj/DHCPv6Client.c:2707-2797 | keeps a better usable Advertise and may move on at once |
| Dhcp6Machine.Client.RequestTimeout | IPConfiguration.bproj/DHCPv6Client.c:2549-2567 | ten tries, then back to Solicit |
| Dhcp6Machine.Client.RequestData | IPConfiguration.bproj/DHCPv6Client.c:2568-2632 | binds to a usable Reply; NotOnLink goes back to Solicit |
| Dhcp6Machine.Client.DeclineTimeout | IPConfiguration.bproj/DHCPv6Client.c:1873-1890 | five tries, then Solicit |
| Dhcp6Machine.Client.DeclineData | IPConfiguration.bproj/DHCPv6Client.c:1892-1921 | any acceptable Reply goes back to Solicit |
| Dhcp6Machine.Client.HandleAddressChanged | IPConfiguration.bproj/DHCPv6Client.c:2201-2234 | a duplicate of the bound address is declined |
| Dhcp6Machine.Client.InstallAddress | IPConfiguration.bproj/DHCPv6Client.c:2354-2406 | installs the saved address and sees at once whether it is a duplicate |
| Dhcp6Machine.Client.InstallPrefix | IPConfiguration.bproj/DHCPv6Client.c:2408-2442 | hands down the saved prefix |
| Dhcp6Machine.Client.InstallLease | IPConfiguration.bproj/DHCPv6Client.c:2471-2492 | passes down what is left of both lifetimes |
| Dhcp6Machine.Client.BoundStart | IPConfiguration.bproj/DHCPv6Client.c:2444-2513 | unbinds an expired lease, installs any other and schedules Renew |
| Dhcp6Machine.Client.RenewTimeout | IPConfiguration.bproj/DHCPv6Client.c:1947-2004 | Renew before T2, Rebind after it, Unbound at the end |
| Dhcp6Machine.Client.SendRenew | IPConfiguration.bproj/DHCPv6Client.c:1955-1966 | waits no longer than to T2 |
| Dhcp6Machine.Client.SendRebind | IPConfiguration.bproj/DHCPv6Client.c:1967-1993 | waits no longer than to the end of the lease |
| Dhcp6Machine.Client.RenewData | IPConfiguration.bproj/DHCPv6Client.c:2006-2061 | binds to a usable Reply, unbinds on a refusal |
| Dhcp6Machine.Client.ConfirmTimeout | IPConfiguration.bproj/DHCPv6Client.c:2091-2132 | ten seconds without an answer: keep a lease that is still good, else Solicit |
| Dhcp6Machine.Client.ConfirmData | IPConfiguration.bproj/DHCPv6Client.c:2133-2194 | confirmed; for a prefix the answer's lease is saved first |
| Dhcp6Machine.Client.InformStart | IPConfiguration.bproj/DHCPv6Client.c:1749-1767 | forgets everything and asks for information |
| Dhcp6Machine.Client.InformTimeout | IPConfiguration.bproj/DHCPv6Client.c:1768-1791 | asks again unless the link is down |
| Dhcp6Machine.Client.InformData | IPConfiguration.bproj/DHCPv6Client.c:1792-1820 | saves an acceptable Reply and stops |
| Dhcp6Machine.Client.Start | IPConfiguration.bproj/DHCPv6Client.c:2831-2866 | Confirm for a saved, valid lease of the same mode and network, else Solicit |
| Dhcp6Machine.Client.HandleWake | IPConfiguration.bproj/DHCPv6Client.c:2263-2352 | loses the address on another network, else unbinds, confirms, or re-arms or starts Renew |
| Dhcp6Machine.Client.HandleRoam | IPConfiguration.bproj/DHCPv6Client.c:3114-3131 | confirms a lease that is still good |
| Dhcp6Machine.Client.ReleaseClient | IPConfiguration.bproj/DHCPv6Client.c:2946-2994 | a released client gives everything up; while the link is up and its lease good it tells the server first |
| Dhcp6Machine.Client.Handle | IPConfiguration.bproj/DHCPv6Client.c:1728-3162 | any event in any consistent state: the fields are those of the client step, pointers, packet and lease stay coherent, a valid lease has its packet, its address and normal times, and no null pointer is followed |
| Dhcp4Lease.AlwaysNormal | IPConfiguration.bproj/dhcp.c:4497-4553 | from any presence and value of the three options: infinite with T1 = T2 = 0, or 1 <= T1 <= T2 < lease |
| Dhcp4Lease.HonouredIff | IPConfiguration.bproj/dhcp.c:4497-4553 | three options are kept to the second if and only if they are coherent |
| Dhcp4Lease.LeasesInOrder | IPConfiguration.bproj/dhcp.c:1497-1544 | a lease set from any options keeps start < T1 <= T2 < expiration = start + length through any clock corrections, and ends later or earlier by their sum |
| Dhcp4Lease.ClockJumpEquivariance | IPConfiguration.bproj/dhcp.c:1530-1544 | a timeout after a detected jump takes the same branch and wait as the unshifted one at its planned time, with lease and next wake shifted alike |
| Dhcp4Lease.WakeWithinAMinute | IPConfiguration.bproj/dhcp.c:4216-4264 | the pending wake comes at least a minute on, before expiration plus a minute, and within a second of what the timer is set to |
| Dhcp4Lease.RequestsInWholeSeconds | IPConfiguration.bproj/dhcp.c:4216-4264 | in whole seconds: with at most 60*2^k seconds to T2 (or to the end) at most k+1 requests go out, however late timers fire |
| Dhcp4Lease.RequestsBounded | IPConfiguration.bproj/dhcp.c:4216-4264 | on a clock with fractions the same holds up to 119*2^(k-1)+1 seconds |
| Dhcp4Lease.RenewsBounded | IPConfiguration.bproj/dhcp.c:4216-4264 | an unanswered lease with at most the threshold's time to T2 sends at most k+1 RENEWs before T2 |
| Dhcp4Lease.RebindsBounded | IPConfiguration.bproj/dhcp.c:4216-4264 | and with at most that time to its end at most k+1 REBINDs |
| Dhcp4Lease.ThresholdIsExact | IPConfiguration.bproj/dhcp.c:4216-4264 | that threshold is exact: every time up to t sees at most k+1 requests if and only if t is at most the threshold |
| Dhcp4Lease.FourMinutesFourRequests | IPConfiguration.bproj/dhcp.c:4216-4264 | the whole-second bound fails on a clock with fractions: 239.5 s see a fourth request |
| Dhcp4Lease.ServerSilentEndsLease | IPConfiguration.bproj/dhcp.c:4198-4264 | a sequence of unanswered timeouts on one lease is no longer than the minutes it has left, plus one |
| Dhcp4Lease.LeaseClock.GetLeaseFromOptions | IPConfiguration.bproj/dhcp.c:4497-4553 | the writes through the out-parameters compute the three spans |
| Dhcp4Lease.LeaseClock.SetLeaseParams | IPConfiguration.bproj/dhcp.c:1497-1523 | the times of a lease from its start and spans, all zero when it is infinite |
| Dhcp4Lease.LeaseClock.AdjustLeaseInfo | IPConfiguration.bproj/dhcp.c:1530-1544 | all four times move by the same delta |
| Dhcp4Lease.LeaseClock.Recover | IPConfiguration.bproj/dhcp.c:1725-1731 | a lease switched to takes its times afresh from its packet |
| Dhcp4Lease.LeaseClock.RenewRebindTimeout | IPConfiguration.bproj/dhcp.c:4198-4264 | corrects for a jump, then renews, rebinds or unbinds, and says how long to wait |
| Dhcp4ClientLaws.StepKeepsInv | IPConfiguration.bproj/dhcp.c:2198-2567 | every event keeps a configured address tied to a valid lease, with nothing configured while an address is sought |
| Dhcp4ClientLaws.ConfiguredOnlyWithItsLease | IPConfiguration.bproj/dhcp.c:2198-2567 | over every run an address is configured only while a lease for that very address is valid, never in Init, Select, Decline or Unbound; the router's ARP answer finds the client in Init or Init-Reboot |
| Dhcp4ClientOrigin.ConfiguredWasGranted | IPConfiguration.bproj/dhcp.c:1684-1764 | over every run from the start in which no router's answer names a stored lease for an address only offered, a configured address was acknowledged by a server or recovered with its lease |
| Dhcp4ClientOrigin.StepKeepsEarnedIff | IPConfiguration.bproj/dhcp.c:2198-4329 | every event keeps what was only offered out of use, if and only if it is not such an answer: the same public address, found while no offer is being gathered |
| Dhcp4ClientOrigin.OfferConfigured | IPConfiguration.bproj/dhcp.c:2769-2775 | a concrete run from the start with one offer and no acknowledgement: the offered address is configured for the time that was offered |
| Dhcp4ClientLaws.LinkCheckedOk | IPConfiguration.bproj/dhcp.c:1819-1922 | a link check that drops or switches the lease removes the address before it ends |
| Dhcp4ClientLaws.RouterArpDoneOk | IPConfiguration.bproj/dhcp.c:3538-3669 | the router's answer configures an address only with a valid lease |
| Dhcp4ClientLaws.BoundStartedOk | IPConfiguration.bproj/dhcp.c:3749-3946 | Bound configures the address only after the lease is valid |
| Dhcp4ClientLaws.BoundArpDoneOk | IPConfiguration.bproj/dhcp.c:3819-3861 | a conflict found by the probe leaves neither lease nor address |
| Dhcp4ClientAnswers.SpansAre | IPConfiguration.bproj/dhcp.c:4497-4553 | lease, T1 and T2 from any options: as stated if coherent, else half and seven eighths of the lease, which itself comes from the first option there is |
| Dhcp4ClientAnswers.TimesAre | IPConfiguration.bproj/dhcp.c:1497-1523 | the times of a lease are its start plus these spans; an endless one has none |
| Dhcp4ClientAnswers.BoundIs | IPConfiguration.bproj/dhcp.c:3762-3946 | Bound probes a new address and announces one in use, and configures any other at once: lease valid, address set, renewal at T1, the router kept or looked for |
| Dhcp4ClientAnswers.InitAnswers | IPConfiguration.bproj/dhcp.c:2790-2865 | the best usable offer is kept, an ideal one requested at once, the first other starts the gathering; a server may ask to wait; any other packet changes nothing |
| Dhcp4ClientAnswers.SelectAnswers | IPConfiguration.bproj/dhcp.c:3293-3349 | a NAK of the chosen server starts again, a usable ACK is kept and bound, any other packet changes nothing |
| Dhcp4ClientAnswers.RebootAnswers | IPConfiguration.bproj/dhcp.c:3066-3165 | a NAK unbinds, or is remembered while routers are probed; a better ACK of a named server for the address asked for is kept, and bound at once on an isolated network; any other packet changes nothing |
| Dhcp4ClientAnswers.RenewAnswers | IPConfiguration.bproj/dhcp.c:4272-4321 | a NAK, or a usable ACK of another address, unbinds; a usable ACK of its own address is kept and configured; any other packet changes nothing |
| Dhcp4ClientAnswers.RenewGivesUpIff | IPConfiguration.bproj/dhcp.c:4272-4321 | in Renew and Rebind the address, lease and router are given up if and only if a server refuses, or acknowledges another address |
| Dhcp4ClientAnswers.RouterAnswers | IPConfiguration.bproj/dhcp.c:3538-3669 | the router of a stored lease: in Init the lease is made ready unless offers are gathered; in Init-Reboot its address is configured, unless the server's answer differs; a remembered NAK is acted on if nothing is taken over |
| Dhcp4ClientAnswers.BoundProbeAnswers | IPConfiguration.bproj/dhcp.c:3819-3864 | the probe of a new address: an error fails, a conflict declines, silence configures |
| Dhcp4ClientAnswers.CheckAnswers | IPConfiguration.bproj/dhcp.c:3387-3437 | the router of the lease in use: without an answer the link is checked; with one renewal is re-armed, or starts |
| Dhcp4ClientAnswers.ResolveAnswers | IPConfiguration.bproj/dhcp.c:3694-3732 | the router's hardware address is kept; silence takes the timer for another try |
| Dhcp4ClientAnswers.InitTimer | IPConfiguration.bproj/dhcp.c:2719-2789 | gathered offers are requested from; else another try, probing routers late, a lost link failing; out of tries a known router is enough, and else the search waits |
| Dhcp4ClientAnswers.RebootTimer | IPConfiguration.bproj/dhcp.c:2994-3064 | gathered answers bind; else another try, a lost link failing; out of tries the address goes and discovery starts |
| Dhcp4ClientAnswers.SelectTimer | IPConfiguration.bproj/dhcp.c:3256-3291 | another request, or discovery starts again |
| Dhcp4ClientAnswers.StartTimers | IPConfiguration.bproj/dhcp.c:4134-4264 | a search, or a turn of renewal: the lease moved by a clock jump, given up at its end, renewed before T2 and rebound after it, the next turn after half the time left and a minute at least |
| Dhcp4ClientAnswers.CheckTimers | IPConfiguration.bproj/dhcp.c:3680-3691 | the link is checked, or the router searched for again |
| Dhcp4ClientAnswers.ConflictAndLink | IPConfiguration.bproj/dhcp.c:2336-2404 | an address that cannot be defended is declined; a link change checks network, lease and what to start, the address gone first on another network; a link gone for long fails |
| Dhcp4ClientAnswers.WakeDecides | IPConfiguration.bproj/dhcp.c:2405-2499 | waking elsewhere loses the address; without a good lease discovery starts; a lease not in use is asked for again; one in use is kept, its router asked after a change of access point |
| Dhcp4ClientAnswers.RoamDecides | IPConfiguration.bproj/dhcp.c:2510-2526 | a roam asks the router of a published lease in use, and does nothing else |
| Dhcp4ClientAnswers.ForgetDecides | IPConfiguration.bproj/dhcp.c:2531-2557 | forgetting the network of the lease gives it up with its address and names, and checks the link |
| Dhcp4ClientAnswers.StartHolds | IPConfiguration.bproj/dhcp.c:2207-2269 | a start holds nothing but a lease found stored, with its times |
| Dhcp4ClientAnswers.StopLeaves | IPConfiguration.bproj/dhcp.c:2270-2306 | a stop leaves neither address nor lease nor anything pending |
| Dhcp4ClientTimes.ValidLeasesInOrder | IPConfiguration.bproj/dhcp.c:1497-1764 | over every run from the start, with clock jumps, switched leases and replies of any kind: every valid lease and every configured one that ends has start < T1 <= T2 < expiration = start + length |
| Dhcp4ClientRenewal.RenewalComing | IPConfiguration.bproj/dhcp.c:3680-4264 | over every run from the start a configured lease that ends has its renewal coming (its timer is set, or an ARP command is out that sets it) unless a search for the router timed out |
| Dhcp4ClientRenewal.RunKeepsRenewable | IPConfiguration.bproj/dhcp.c:2198-4329 | the same from any consistent state: also, the search's retry timer is only ever set by a search that timed out |
| Dhcp4ClientRenewal.StepKeepsRenewable | IPConfiguration.bproj/dhcp.c:2198-4329 | every event keeps it, and only a search that comes back unanswered makes one time out |
| Dhcp4ClientRenewal.RenewalLostIff | IPConfiguration.bproj/dhcp.c:3680-3732 | while no search has timed out, an event takes the renewal of a lease that stays configured if and only if it is a search for the router coming back without an answer |
| Dhcp4ClientRenewal.RenewalForgotten | IPConfiguration.bproj/dhcp.c:3680-3732 | after one search without an answer and a second with one nothing is pending: the address stays configured and nothing will renew it or give it up |
| Dhcp4ClientRenewal.RenewalLost | IPConfiguration.bproj/dhcp.c:3680-3732 | a concrete run from the start reaches that: an hour's lease configured, no timer, no receive handler and no ARP command |
| Dhcp4ClientRenewal.RenewalFires | IPConfiguration.bproj/dhcp.c:4134-4271 | a renewal timer that fires unanswered gives the lease up if it has ended; otherwise it keeps lease and address, waits a minute at least, and has given up any search for the router |
| Dhcp4ClientRenewal.SilentServerUnbinds | IPConfiguration.bproj/dhcp.c:4134-4271 | a client waiting for its renewal timer and for no ARP command, whatever then happens by itself while nobody answers up to the end of the lease: it ends in Unbound with neither address nor lease, about to look for a new one |
| Dhcp4ClientRenewal.HeldLeaseIsGivenUpIff | IPConfiguration.bproj/dhcp.c:3680-4271 | after any run from the start, neither server nor router answering a client that holds a lease: the lease is given up at its end if and only if no search for the router is under way or the renewal timer fires before that search comes back |
| Dhcp4ClientRenewal.SearchStrands | IPConfiguration.bproj/dhcp.c:3680-3732 | a search that comes back unanswered before the renewal timer fires: over every later run without answers the lease is neither renewed nor given up |
| Dhcp4ClientRenewal.StrandedForever | IPConfiguration.bproj/dhcp.c:3680-3732 | the search and its retry timer take turns over any number of rounds and at any clock reading, address and lease unchanged |
| Dhcp4ClientRenewal.LeaseOutlived | IPConfiguration.bproj/dhcp.c:3680-3946 | runs from the start: after any number of rounds and at any time, its end included, an hour's lease is still configured |
| Dhcp4Machine.Client.CheckLease | IPConfiguration.bproj/dhcp.c:1801-1817 | an expired lease is dropped with its address |
| Dhcp4Machine.Client.SwitchToLease | IPConfiguration.bproj/dhcp.c:1684-1764 | takes over a stored lease, address removed first, unless it is the lease in use |
| Dhcp4Machine.Client.KeepPacket | IPConfiguration.bproj/dhcp.c:2829-2847 | the better packet replaces the saved one and sets the lease times |
| Dhcp4Machine.Client.ArpRouterStart | IPConfiguration.bproj/dhcp.c:3451-3537 | probes the routers of stored leases, if there are any, when allowed and not yet verified |
| Dhcp4Machine.Client.ResolveRouterDone | IPConfiguration.bproj/dhcp.c:3694-3732 | an answer is kept, no answer takes the timer |
| Dhcp4Machine.Client.ResolveRouter | IPConfiguration.bproj/dhcp.c:3680-3691 | asks for the router's hardware address if its IP address is known |
| Dhcp4Machine.Client.BoundStart | IPConfiguration.bproj/dhcp.c:3762-3818 | probe after Select, announce an address in use, finish at once after Renew |
| Dhcp4Machine.Client.BoundFinish | IPConfiguration.bproj/dhcp.c:3866-3946 | lease valid, address configured, renewal set, router looked up |
| Dhcp4Machine.Client.BoundArp | IPConfiguration.bproj/dhcp.c:3819-3864 | error fails, conflict declines, otherwise finish |
| Dhcp4Machine.Client.DeclineStart | IPConfiguration.bproj/dhcp.c:3987-4075 | address, lease and router go, try again later |
| Dhcp4Machine.Client.InitAttempt | IPConfiguration.bproj/dhcp.c:2724-2750 | one more try, probing routers late, giving up on a lost link |
| Dhcp4Machine.Client.InitProceed | IPConfiguration.bproj/dhcp.c:2751-2789 | out of tries: bound by the verified router or no server |
| Dhcp4Machine.Client.InitBegin | IPConfiguration.bproj/dhcp.c:2640-2718 | Init from scratch |
| Dhcp4Machine.Client.InitData | IPConfiguration.bproj/dhcp.c:2790-2865 | keeps the better offer and gathers, or selects at once |
| Dhcp4Machine.Client.SelectAttempt | IPConfiguration.bproj/dhcp.c:3256-3291 | requests again, then Init |
| Dhcp4Machine.Client.SelectBegin | IPConfiguration.bproj/dhcp.c:3187-3255 | Select from scratch |
| Dhcp4Machine.Client.SelectData | IPConfiguration.bproj/dhcp.c:3293-3349 | a NAK of the chosen server waits for Init, an ACK binds |
| Dhcp4Machine.Client.RebootAttempt | IPConfiguration.bproj/dhcp.c:3000-3020 | one more try, always probing routers |
| Dhcp4Machine.Client.RebootProceed | IPConfiguration.bproj/dhcp.c:3020-3064 | out of tries: address removed, Init follows |
| Dhcp4Machine.Client.RebootBegin | IPConfiguration.bproj/dhcp.c:2897-2993 | Init-Reboot from scratch |
| Dhcp4Machine.Client.RebootData | IPConfiguration.bproj/dhcp.c:3066-3165 | a NAK unbinds or is remembered, an ACK for the same address is kept |
| Dhcp4Machine.Client.ArpRouterResult | IPConfiguration.bproj/dhcp.c:3538-3669 | switches to or confirms the lease given as the one behind the router that answered |
| Dhcp4Machine.Client.RenewAttempt | IPConfiguration.bproj/dhcp.c:4198-4271 | the lease clock's decision, carried out |
| Dhcp4Machine.Client.RenewBegin | IPConfiguration.bproj/dhcp.c:4134-4197 | Renew from scratch |
| Dhcp4Machine.Client.RenewData | IPConfiguration.bproj/dhcp.c:4272-4321 | NAK or another address unbinds, ACK binds |
| Dhcp4Machine.Client.CheckRouterResult | IPConfiguration.bproj/dhcp.c:3387-3437 | no answer checks the link, an answer goes on with the lease |
| Dhcp4Machine.Client.CheckNetwork | IPConfiguration.bproj/dhcp.c:1849-1901 | another network switches to the lease given for it or drops the lease, another hardware address drops it |
| Dhcp4Machine.Client.CheckLinkStatus | IPConfiguration.bproj/dhcp.c:1819-1922 | waits for the link, else checks network and lease and starts over |
| Dhcp4Machine.Client.StartOver | IPConfiguration.bproj/dhcp.c:1902-1921 | Init-Reboot with a lease, Init without, unless already on the first try |
| Dhcp4Machine.Client.CheckRouterStart | IPConfiguration.bproj/dhcp.c:3368-3386 | asks the router of the current lease |
| Dhcp4Machine.Client.MaintainAfterWake | IPConfiguration.bproj/dhcp.c:2470-2496 | re-arms a renewal far enough ahead, else renews now |
| Dhcp4Machine.Client.HandleWake | IPConfiguration.bproj/dhcp.c:2405-2499 | as the code decides between another network, no lease, a reboot and maintenance |
| Dhcp4Machine.Client.HandleRoam | IPConfiguration.bproj/dhcp.c:2510-2526 | asks the router only when bound and published |
| Dhcp4Machine.Client.HandleCollision | IPConfiguration.bproj/dhcp.c:2336-2369 | declines an address that cannot be defended |
| Dhcp4Machine.Client.Release | IPConfiguration.bproj/dhcp.c:4422-4490 | lease and pending events go; the address is the caller's to remove |
| Dhcp4Machine.Client.ForgetSsid | IPConfiguration.bproj/dhcp.c:2531-2557 | the client gives up the lease of a forgotten network together with its address and network names |
| Dhcp4Machine.Client.Handle | IPConfiguration.bproj/dhcp.c:2198-4329 | any event in any consistent state: the fields are those of the client step, the invariant is kept, and an address is configured only while running, with a valid lease for that very address, and not while seeking one |
| SharedSocket.StepKeepsInv | IPConfiguration.bproj/DHCPv6Socket.c:207-578 | each interleaved event keeps: refcount is the number of clients with the socket open; one live descriptor at most; used means descriptor or cancel pending; unused descriptor means close timer; if and only if a dispatch source it asks for can be made |
| SharedSocket.RunKeepsInv | IPConfiguration.bproj/DHCPv6Socket.c:207-685 | the same over every interleaving in which sources can be made |
| SharedSocket.InitialInv | IPConfiguration.bproj/DHCPv6Socket.c:183-205 | the empty session satisfies it |
| SharedSocket.Transmit6HasDescriptor | IPConfiguration.bproj/DHCPv6Socket.c:626-685 | a DHCPv6 transmit writes to the live descriptor unless it is refused or the socket call fails; it never follows a null one |
| SharedSocket.Transmit4DroppedIff | IPConfiguration.bproj/bootp_session.c:479-537 | a BOOTP unicast is dropped if and only if a cancellation is outstanding or the socket call fails |
| SharedSocket.DrainsWhenUnused | IPConfiguration.bproj/bootp_session.c:229-300 | once no client holds the socket, its timer and cancellation close every descriptor |
| SharedSocket.UnmadeSourceLeaks | IPConfiguration.bproj/DHCPv6Socket.c:488-547 | a concrete run from the start in which the dispatch source cannot be made: the descriptor is open, nobody reads it and nothing will close it |
| SharedSocket.LeakedForever | IPConfiguration.bproj/DHCPv6Socket.c:207-685 | a descriptor lost in that way stays open over every later run |
| SocketAnswers.LostConnectionCancels | IPConfiguration.bproj/DHCPv6Socket.c:408-482 | a read on a lost connection takes the descriptor out of use and has it canceled; clients and counts stay |
| SocketAnswers.LostConnectionRefuses | IPConfiguration.bproj/DHCPv6Socket.c:626-685 | over every run after that, no packet is given a descriptor until the cancellation completes |
| SocketAnswers.RefusedUntilCompletion | IPConfiguration.bproj/DHCPv6Socket.c:626-685 | the same for any cancellation; nothing is opened meanwhile |
| SocketAnswers.TimerCancels | IPConfiguration.bproj/DHCPv6Socket.c:219-237 | the close timer cancels the socket it finds unused |
| SocketAnswers.CompletionDecides | IPConfiguration.bproj/DHCPv6Socket.c:504-519 | a completed cancellation gives the descriptor to the clients that came meanwhile, or closes it |
| SocketAnswers.ReceiveOpens | IPConfiguration.bproj/DHCPv6Socket.c:580-598 | a client that starts to receive shares what there is, or gets a new descriptor; if there is none it is left without one |
| SocketAnswers.ReceiveCloses | IPConfiguration.bproj/DHCPv6Socket.c:606-614 | one that stops, or is released, gives its use back, and the last starts the close timer |
| SocketAnswers.Transmit6Uses | IPConfiguration.bproj/DHCPv6Socket.c:626-685 | a DHCPv6 packet goes out on the descriptor there is or a new one, none while one is being canceled; clients and counts are as before |
| SocketAnswers.NullFollowedIff | IPConfiguration.bproj/DHCPv6Socket.c:626-685 | a DHCPv6 packet follows a null pointer if and only if it opens a socket of its own and the dispatch source for it is not made |
| SocketAnswers.Transmit4Uses | IPConfiguration.bproj/bootp_session.c:479-537 | so does a BOOTP unicast; a broadcast needs none and changes nothing |
| SharedSocket.Session.CreateClient | IPConfiguration.bproj/DHCPv6Socket.c:322-344 | a new client holds nothing |
| SharedSocket.Session.ReleaseClient | IPConfiguration.bproj/DHCPv6Socket.c:356-376 | a released client gives its reference back |
| SharedSocket.Session.EnableSource | IPConfiguration.bproj/DHCPv6Socket.c:488-502 | the descriptor is readable only through a source that was made |
| SharedSocket.Session.CloseSocket | IPConfiguration.bproj/DHCPv6Socket.c:378-406 | the last reference starts the close timer |
| SharedSocket.Session.ScheduleClose | IPConfiguration.bproj/DHCPv6Socket.c:207-217 | one cancellation at a time, the source given up |
| SharedSocket.Session.DelayedClose | IPConfiguration.bproj/DHCPv6Socket.c:219-237 | closes only if still unused |
| SharedSocket.Session.ReadFails | IPConfiguration.bproj/DHCPv6Socket.c:408-482 | a socket that lost its connection is canceled |
| SharedSocket.Session.FDComplete | IPConfiguration.bproj/DHCPv6Socket.c:504-519 | a completed cancellation reuses the descriptor for new clients or closes it |
| SharedSocket.Session.OpenSocketFD | IPConfiguration.bproj/DHCPv6Socket.c:521-547 | a fresh descriptor, or an error |
| SharedSocket.Session.OpenSocket | IPConfiguration.bproj/DHCPv6Socket.c:549-578 | takes a reference, stops the timer, opens only when there is nothing to share |
| SharedSocket.Session.EnableReceiveOn | IPConfiguration.bproj/DHCPv6Socket.c:580-598 | receiving implies a reference |
| SharedSocket.Session.DisableReceiveOn | IPConfiguration.bproj/DHCPv6Socket.c:606-614 | gives the reference back |
| SharedSocket.Session.DoTransmit6 | IPConfiguration.bproj/DHCPv6Socket.c:626-685 | borrows a reference for the send and reports the descriptor used |
| SharedSocket.Session.DoTransmit4 | IPConfiguration.bproj/bootp_session.c:479-537 | borrows a reference unless broadcasting and reports whether it may send |
| SharedSocket.Session.Handle | IPConfiguration.bproj/DHCPv6Socket.c:207-685 | any event in any consistent state: the fields are those of the protocol step, and the invariant is kept if and only if a dispatch source asked for is made |
| ArpSessionLaws.StepKeepsInv | IPConfiguration.bproj/arp_session.c:323-1509 | every event keeps: a client is active iff its timer or callback is pending, a timer has a descriptor, a detect with a descriptor has its list, the count is the number of open clients and the descriptor is there iff it is positive, no null pointer is followed; if and only if no packet restarts a client without a descriptor or is compared with a freed list |
| ArpSessionLaws.RunKeepsInv | IPConfiguration.bproj/arp_session.c:323-1509 | the same over every run without such a packet |
| ArpSessionLaws.DeliveredOk | IPConfiguration.bproj/arp_session.c:520-748 | a packet keeps it for every client up to the first it restarts |
| ArpSessionLaws.ReadKeepsInv | IPConfiguration.bproj/arp_session.c:520-748 | so does a whole read of several packets |
| ArpSessionLaws.StrayBreaks | IPConfiguration.bproj/arp_session.c:702-722 | a packet that restarts a client without a descriptor, or is compared with a freed list, breaks it |
| ArpCommandLaws.StrayRestartHappens | IPConfiguration.bproj/arp_session.c:702-722 | a concrete run from the start after which any packet from the address once probed restarts a client without a descriptor |
| ArpCommandLaws.StaleProbeRestarts | IPConfiguration.bproj/arp_session.c:640-722 | in any session: a client that has probed is given nothing to detect while another has the descriptor, and such a packet restarts it |
| ArpCommandLaws.FreedListIsRead | IPConfiguration.bproj/arp_session.c:680-700 | in any session: a client that has run a detect is given nothing to detect while another has the descriptor, and the next reply that gets as far as it follows the pointer to the list that was freed |
| ArpCommandLaws.FreedListReached | IPConfiguration.bproj/arp_session.c:1430-1482 | a concrete run from the start after which any reply at all does so |
| ArpCommandLaws.StepSpendsBudget | IPConfiguration.bproj/arp_session.c:392-1169 | each turn of a client (timer, callback, conflict restart) lowers its budget and only a new command raises it; a callback is counted exactly when it is made |
| ArpCommandLaws.CommandIsBounded | IPConfiguration.bproj/arp_session.c:392-1169 | over any run one command takes a bounded number of turns, makes at most one callback, and an idle or canceled client none |
| ArpCommandLaws.CommandEndsInItsCallback | IPConfiguration.bproj/arp_session.c:392-472 | a command not canceled is over if and only if it has made its one callback |
| ArpCommandLaws.NeverStuck | IPConfiguration.bproj/arp_session.c:392-1169 | an active command always has a timer or a callback to come |
| ArpCommandLaws.OthersUntouched | IPConfiguration.bproj/arp_session.c:323-1509 | an event for one client changes no other client |
| ArpCommandLaws.ProbePacketsBounded | IPConfiguration.bproj/arp_session.c:1002-1075 | over every run a probe command, finished or not, has sent at most (conflict retries + 1) cycles of packets |
| ArpCommandLaws.ProbesBeforeAnnouncements | IPConfiguration.bproj/arp_session.c:1022-1075 | a probe announces nothing until all plain probes since the last start have gone out, and they come first |
| ArpAnswers.PacketAnswers | IPConfiguration.bproj/arp_session.c:640-728 | what a packet does to a client: one that is asking, within reach and answered reports the first entry or address that fits, or counts a conflict and probes again; any other is as before |
| ArpAnswers.AnsweredIff | IPConfiguration.bproj/arp_session.c:640-728 | a client comes to report an answer on a packet if and only if it is active and unanswered, no client before it starts another cycle, and the packet is a conflict (not from us), a Reply of the target, or a Reply of a listed host at its listed hardware address |
| ArpAnswers.FirstAnswerIs | IPConfiguration.bproj/arp_session.c:680-700 | the entry found is the first whose two addresses and hardware address are the packet's |
| ArpAnswers.TimerSends | IPConfiguration.bproj/arp_session.c:1002-1169 | what each timer sends: plain probes, then announcements; one more request for each second, or round of the list; then not in use; a failed write fails the command |
| ArpAnswers.CallbackEnds | IPConfiguration.bproj/arp_session.c:392-446 | the callback closes the descriptor, stops the timer and ends the command, and leaves its status |
| ArpAnswers.FailureReported | IPConfiguration.bproj/arp_session.c:735-747 | a failed read is reported to every active client and to no other |
| ArpAnswers.CancelSilences | IPConfiguration.bproj/arp_session.c:1468-1482 | a canceled client waits for nothing and has no descriptor and no list |
| ArpAnswers.ProbeStarts | IPConfiguration.bproj/arp_session.c:1376-1394 | a probe starts from a clean slate with a plain packet, or fails when no descriptor can be had |
| ArpAnswers.AnnounceStarts | IPConfiguration.bproj/arp_session.c:1353-1374 | an announcement starts past the plain packets and may skip the first |
| ArpAnswers.ResolveStarts | IPConfiguration.bproj/arp_session.c:1396-1428 | a resolve asks for the given seconds, sixteen if none, and not at all if they do not fit a signed word |
| ArpAnswers.DetectStarts | IPConfiguration.bproj/arp_session.c:1430-1460 | a detect asks the addresses of its list and fails without any |
| ArpAnswers.DefendSilences | IPConfiguration.bproj/arp_session.c:1484-1509 | defending leaves the client silent, with the defended address as sender and target if a descriptor can be had |
| ArpAnswers.AddedIsLast | IPConfiguration.bproj/arp_session.c:1171-1195 | a new client has nothing to do and is asked last; the others are as before |
| ArpAnswers.WritesNeedDescriptor | IPConfiguration.bproj/arp_session.c:865-1000 | in any session: without a descriptor a timer follows the null pointer exactly when it would send, so that a failed write would fail the command |
| ArpAnswers.NullFollowedIff | IPConfiguration.bproj/arp_session.c:680-700 | in any session: a packet follows a null pointer if and only if it is a Reply that reaches an active, unanswered client that detects, fits no entry of its list, and the length kept is past that list's end |
| ArpAnswers.ReadIsOneByOne | IPConfiguration.bproj/arp_session.c:520-728 | a read of several packets does what those packets do one by one, in their order |
| ArpCommandLaws.AnswerReportedIff | IPConfiguration.bproj/arp_session.c:392-1169 | over any run up to the callback an answer is reported if and only if the last event that found or spoiled one found it: packets of any kind find answers, the client's own timer ending or restarting its cycle and a failed read spoil them |
| ArpCommandLaws.AnswerLost | IPConfiguration.bproj/arp_session.c:392-1169 | a concrete run from the start: the owner has answered, the last retransmission comes before the callback, and the callback will say not in use |
| ArpCommandLaws.ProvidedRunsAreSafe | IPConfiguration.bproj/arp_session.c:323-1509 | if every command gets its descriptor and a detect names an address, no packet of any run restarts a client without one or is compared with a freed list, and the invariant holds throughout |
| ArpSession.FirstAnswer | IPConfiguration.bproj/arp_session.c:680-700 | the first listed address the packet answers for, if any |
| ArpSession.RestartIndex | IPConfiguration.bproj/arp_session.c:640-728 | the first client the packet restarts; no earlier one is restarted |
| ArpInterface.Interface.CloseFd | IPConfiguration.bproj/arp_session.c:323-354 | the last reference closes descriptor and buffer |
| ArpInterface.Interface.OpenFd | IPConfiguration.bproj/arp_session.c:750-859 | shares the descriptor, or opens one, or gives the reference back |
| ArpInterface.Interface.ProbeRetransmit | IPConfiguration.bproj/arp_session.c:1022-1075 | next packet of the cycle, plain before gratuitous, or the end |
| ArpInterface.Interface.ResolveRetransmit | IPConfiguration.bproj/arp_session.c:1085-1111 | next request, or the end |
| ArpInterface.Interface.WriteAll | IPConfiguration.bproj/arp_session.c:1145-1151 | stops at the first address that cannot be written |
| ArpInterface.Interface.DetectRetransmit | IPConfiguration.bproj/arp_session.c:1122-1169 | next round to every address, or the end |
| ArpInterface.Interface.OpenAndProbe | IPConfiguration.bproj/arp_session.c:1363-1374 | opens the descriptor and sends, or schedules the failure |
| ArpInterface.Interface.OpenAndResolve | IPConfiguration.bproj/arp_session.c:1412-1428 | the same for resolve |
| ArpInterface.Interface.StartDetect | IPConfiguration.bproj/arp_session.c:1430-1460 | detects over the list, failing at once when it is empty |
| ArpInterface.Interface.Defend | IPConfiguration.bproj/arp_session.c:1484-1509 | sends one packet for the address and keeps nothing open |
| ArpInterface.Interface.TimerExpires | IPConfiguration.bproj/arp_session.c:1002-1169 | the pending timer runs its handler |
| ArpInterface.Interface.CallBack | IPConfiguration.bproj/arp_session.c:392-446 | clears everything first, then reports the status |
| ArpInterface.Interface.Read | IPConfiguration.bproj/arp_session.c:520-748 | every packet of a read in turn, or the failure to every active client |
| ArpInterface.Interface.ReportReadFailure | IPConfiguration.bproj/arp_session.c:735-747 | every active client is told of the failure, no other is touched |
| ArpInterface.Interface.Receive | IPConfiguration.bproj/arp_session.c:640-728 | offers the packet to the clients in order, up to the first it restarts, the null pointers on the way included |
| ArpInterface.Interface.Offer | IPConfiguration.bproj/arp_session.c:640-727 | a match is an answer, or a conflict that restarts the probe; a reply met by a client whose list was freed follows the null pointer |
| ArpInterface.Interface.Handle | IPConfiguration.bproj/arp_session.c:323-1509 | any event in any consistent state: the fields are those of the protocol step, the invariant is kept if and only if no packet restarts a client without a descriptor or is compared with a freed list, and a null pointer is followed exactly in the second case |
| ArpInterface.FindAnswer | IPConfiguration.bproj/arp_session.c:680-700 | the loop computes the first answer |
| Clat46.StepConserves | IPConfiguration.bproj/rtadv.c:394-662 | each use count equals the number of services holding that address, a service is active iff it holds one, and release finds a positive count: kept by every step if and only if no counter overflows |
| Clat46.RunConserves | IPConfiguration.bproj/rtadv.c:394-662 | over any run with fewer than 65536 services |
| Clat46.WrapNeedsManyServices | IPConfiguration.bproj/rtadv.c:414-439 | a counter overflows only with 65536 services |
| Clat46.WrappedLooksUnused | IPConfiguration.bproj/rtadv.c:414-439 | the counters have sixteen bits: one holder more than 65535 makes an address look unused |
| Clat46.HoldersAreTheSum | IPConfiguration.bproj/rtadv.c:394-476 | the use counts add up to the number of holders |
| Clat46.StepKeepsUnshared | IPConfiguration.bproj/rtadv.c:414-439 | with at most four holders a new one gets an address of its own |
| Clat46.HeldAddressesDistinctIff | IPConfiguration.bproj/rtadv.c:414-662 | in any run of fewer than 65536 services all held addresses are always distinct if and only if at most four services ever hold one at a time |
| Clat46.FifthHolderShares | IPConfiguration.bproj/rtadv.c:414-439 | with more holders than addresses two of them share one, in every pool whose books are exact |
| Clat46.SetDecides | IPConfiguration.bproj/rtadv.c:539-589 | an inactive service comes to hold the first unused address, or the first of all, exactly when everything succeeds; otherwise nothing changes |
| Clat46.RemoveDecides | IPConfiguration.bproj/rtadv.c:612-662 | removal, failure and stop give exactly the address held back |
| Clat46.PickIsFirst | IPConfiguration.bproj/rtadv.c:414-439 | no earlier address is unused |
| Clat46.PickFrom | IPConfiguration.bproj/rtadv.c:414-439 | the address picked is unused, unless all are in use, and then the first of all |
| Clat46.AddressPool.Allocate | IPConfiguration.bproj/rtadv.c:414-439 | counts one more use of the address picked |
| Clat46.AddressPool.Release | IPConfiguration.bproj/rtadv.c:446-476 | counts one use less, if the address is of the pool and in use |
| Clat46.AddressPool.SetAddress | IPConfiguration.bproj/rtadv.c:539-589 | a service takes an address only when everything succeeds, and gives it back otherwise |
| Clat46.AddressPool.RemoveAddressOnly | IPConfiguration.bproj/rtadv.c:612-655 | an active service gives its address back once |
| Clat46.AddressPool.RemoveAddress | IPConfiguration.bproj/rtadv.c:657-662 | the same for the whole service |
| Clat46.AddressPool.Stop | IPConfiguration.bproj/rtadv.c:994-1013 | a failed service holds nothing |
| PrefixMask.PrefixRoundTrip | IPConfiguration.bproj/ifutil.c:618-660 | for every n in 0..128 the length reported for the mask of n is n |
| PrefixMask.MaskBits | IPConfiguration.bproj/ifutil.c:1127-1137 | bit j of the mask of n is set iff j < n |
| PrefixMask.NetAddrBits | IPConfiguration.bproj/ifutil.c:1139-1158 | a network address keeps exactly the first n bits |
| PrefixMask.NetAddrCompose | IPConfiguration.bproj/ifutil.c:1150-1158 | masking to m and then to n is masking to the smaller, so masking twice changes nothing |
| PrefixMask.ReportedLengthIsExactIff | IPConfiguration.bproj/ifutil.c:618-660 | a reported length n means the bytes are the mask of n if and only if bit 0 of the boundary byte is clear, or there is no boundary byte |
| PrefixMask.StrayBitAccepted | IPConfiguration.bproj/ifutil.c:618-660 | a mask with a stray bit 0 in the boundary byte is accepted |
| PrefixMask.AcceptedLengthUnique | IPConfiguration.bproj/ifutil.c:618-660 | bytes are accepted with one length only |
| PrefixMask.Len2Mask | IPConfiguration.bproj/ifutil.c:1127-1137 | the byte loop writes the mask in place |
| PrefixMask.MaskAddr | IPConfiguration.bproj/ifutil.c:1139-1148 | the byte loop masks the address in place |
| PrefixMask.ApplyNetAddr | IPConfiguration.bproj/ifutil.c:1150-1158 | the address becomes its network address |
| PrefixMask.CountPrefixBits | IPConfiguration.bproj/ifutil.c:618-660 | the scan over bytes and bits reports the accepted length, or 0 |

## Left out

- Sockets, packet filters, ioctls, power management, property lists, logging, Mach messages: replaced by
  parameters for what they answer.
- Option and packet parsing: a packet is a record of the options the clients read.
- Building of request packets: only whether it fails, which message is sent and to which state it belongs.
- Publishing, user warnings, link-local fallback, symptom reports, busy flags: they do not feed back into
  the modelled state.
- BSDP, the DHCP server, manual, INFORM, stf and failover services, PvD, AWD, CGA, DUID and IAID: other
  services or plumbing.
- Netboot paths of `dhcp.c`, and failures to allocate the client's own timer, socket or ARP client at start.
- The wake scheduling of `dhcp_handle_active_during_sleep`: it reads the lease clock and changes none of it.
- Transaction identifiers: a packet reaches the handler that is enabled, as the socket's demultiplexer does it.
- Aliasing of lease and client records: lists are sequences of records updated at an index, so the identity
  of a record and its address in memory are not captured.
- Memory for receive buffers and client lists is taken to be available.
- Dhcp4ClientLaws.ConfiguredOnlyWithItsLease: a valid lease may have expired already when no timer or event
  has looked at it (see `Dhcp4ClientRenewal.RenewalLost`); the statement is about the lease being held.
- Dhcp4Lease.ServerSilentEndsLease: about the lease clock alone; what the client does then is
  `Dhcp4ClientRenewal.SilentServerUnbinds`.
- Dhcp6ClientTiming.StepKeepsTimed: for leases whose T2 lies within the valid lifetime, which the client
  does not check.
- Dhcp6ClientTiming.SavedIsBest: up to the first usable Advertise of preference 255, which ends the wait
  (`FirstWaitEndsIff`).
- Dhcp4Machine.Client.ArpRouterStart: whether the lease list has rows to probe is a parameter;
  `LeaseListLaws.EveryArpRowFindsItsLease` is about the rows.
- Dhcp4Machine.Client.ArpRouterResult: which stored lease the router's answer identifies is a parameter;
  `LeaseListLaws` has the lookup itself.
- Dhcp4Machine.Client.CheckNetwork: the lease found for the new network is a parameter; the lookup is
  `LeaseList.LeaseDatabase.FindLeaseForWiFi`.
- Dhcp4Machine.Client.ForgetSsid: the client's part; the lease list forgets the network in
  `LeaseList.LeaseDatabase.RemoveLeaseForWiFi`.
- ArpInterface.Interface.Handle: packets written are counted and told apart as plain or gratuitous; their
  bytes are not modelled.
