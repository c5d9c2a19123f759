# A verified model of ipfs-embed's network core

This project models the network core of ipfs-embed in Dafny and proves what it promises. It
covers five parts of the system.

- **The address book** (`src/net/peers.rs`, `src/net/peer_info.rs`). Per peer it keeps a ranked
  table of addresses, a table of connections, a bounded failure history and round-trip
  statistics; it queues dials and defers redials. `AddressBook.dfy` gives every handler as a
  function on a value `Book`; `AddressBookClass.dfy` is the object of the source, whose methods
  are proved to compute those functions; `Swarm.dfy` puts the book next to the swarm it drives and
  defines whole runs: any interleaving of commands, Identify messages, pings, polls, dial
  failures, connections and listener changes. `Translation.dfy`, `Reachable.dfy`,
  `Guarantees.dfy` and `Redial.dfy` hold the theorems over runs. `Effects.dfy` says what each handler
  does in terms of address components, record fields and counts, and `Announcements.dfy` what it
  announces.
- **Round-trip statistics** (`Rtt.dfy`): integer exponential averages over every history of pings.
- **The query table** (`Query.dfy`, `QueryProofs.dfy`, `Replies.dfy`, `Backend.dfy`): requests that wait under a
  query id until a terminal event answers their channel, and the future that polls a sync query.
- **Subscribers** (`FanOut.dfy`, `Topics.dfy`): event streams, listener streams and topics.
- **The command line protocol** (`Text.dfy`, `Cli.dfy`): printing and parsing of commands and
  events, with bytes in lower-case Base16 as in section 8 of RFC 4648.

`dafny verify dfyconfig.toml` verifies the whole project.

## How the source is represented

- A multiaddress is the sequence of its components. A peer component holds a multihash, which is
  a valid peer id or not.
- Time is an argument of each handler, in nanoseconds, and may run backwards. One handler reads
  the clock once.
- Where the source iterates a hash map or set, the functions take the visiting order as an
  argument and the methods choose it freely; the theorems hold for all orders.
- `PeerInfo` is a record owned by the book's map. The source updates it through an exclusive
  borrow; the model takes the record out into an object, updates that in place and writes it back.
- Deferred dials are a multiset that is released in any order.
- The swarm counts the connections of a peer: the other ones when one opens, and those left when
  one closes.
- A channel is the sequence of messages put into it; a receiver that goes away closes it.
- The kind of a dial error, whether a transport error looks like a TCP simultaneous open, and
  whether the remote side closed a connection are inputs.
- The ids protocols give to queries, the outcome of starting one, whether gossipsub accepts a
  topic and whether it manages to leave one, and the end of the service are inputs.
- How peer ids, addresses and content ids print and parse, and whether a content id fits a
  block's data, are parameters of the line protocol.

## Where the code and its documentation part

- `failure_rate` is documented as 1_000_000 for only failures (`src/net/peer_info.rs:181`). With
  floor division it settles at 999_901 and never exceeds it.
- Identify messages under port reuse can give a peer its first confirmed address (a candidate)
  without a `Discovered` event; no other step does. `UnannouncedIff` gives the exact condition and
  `SilentConfirmation` a run of two steps that meets it.
- Two connections to a peer under the same address share one table entry, so closing or moving
  one of them makes the table miss the other. `SyncStep` gives the exact condition and
  `ClashIsReachable` a run of three steps that meets it.
- After gossipsub refuses a topic, its entry stays in the map, and the next subscriber is
  accepted although the topic was never joined (`RefusalSticks`).
- When gossipsub fails to leave a topic whose last subscriber is gone, the failure is only logged
  and the topic is forgotten, so that it stays joined outside the map. `WithinAlwaysIff` and
  `JoinedAlwaysIff` give the exact conditions, `LingerIsReachable` a run of three inputs.
- Polling a sync query whose channel is closed and holds no completion never returns
  (`PollTerminatesIff`). A future that is still held meets this exactly when the service ends while
  its query waits (`PollEndsIff`, `SpinIsReachable`). Under the default executor, dropping the last
  handle of the service ends it. A cancellation is no such case, since it is sent only when the
  future itself is dropped.
- Commands and events with an address that prints as no text, as the empty multiaddress does, do
  not survive the line protocol; for some the parser panics (`EmptyAddressPanics`).

## Model

| member | source | states |
|---|---|---|
| `Multiaddrs.NormalizeFacts` | src/net/peers.rs:118-143 | a normalised address ends in a peer; normalising again, even for another peer, changes nothing; the bare address and the loopback scope stay |
| `Multiaddrs.ReplacePortFacts` | src/net/peers.rs:484-499 | replacing the port of an address with IP and port never fails and keeps IP, suffix and scope |
| `Multiaddrs.IpPortExact` | src/net/peers.rs:694-706 | an address has an IP and a port exactly when it begins with an IP of either version and a TCP port, and these are the two |
| `Multiaddrs.PeerSuffix` | src/net/peers.rs:118-188 | the last component alone decides whether an address names a peer, which one, and what normalising and stripping do |
| `Multiaddrs.LoopbackScope` | src/net/peers.rs:174-181 | exactly the addresses that begin with an IPv4 address outside 127.0.0.0/8 are out of loopback scope |
| `Rtts.Rtt.Register` | src/net/peer_info.rs:171-177 | a reply updates all five statistics as the value function says |
| `Rtts.Rtt.RegisterFailure` | src/net/peer_info.rs:179-183 | a failure counts up (in 32 bits) and raises the rate, and touches nothing else |
| `Rtts.FailureRateBounded` | src/net/peer_info.rs:161-183 | for every history the failure rate is at most 999_901 and no product leaves 32 bits |
| `Rtts.FailuresRiseToLimit` | src/net/peer_info.rs:179-183 | after any history each further failure raises the rate strictly until it stays at 999_901 for good |
| `Rtts.RepliesFallToZero` | src/net/peer_info.rs:171-177 | after any history any n further replies, whatever times they took, lower the rate by at least n or to zero |
| `Rtts.FailureCounter` | src/net/peer_info.rs:171-183 | the counter is the number of failures since the last reply, modulo 2^32 |
| `Rtts.DriftBounded` | src/net/peer_info.rs:171-177 | for every history decay_3 lies in [min-3, max] and decay_10 in [min-9, max] of all samples |
| `Rtts.Floor3` | src/net/peer_info.rs:173 | the lower bound of the 30% average, at most three below the smallest sample |
| `Rtts.Floor10` | src/net/peer_info.rs:174 | the lower bound of the 10% average, at most nine below the smallest sample |
| `Rtts.DriftAttained` | src/net/peer_info.rs:171-177 | those lower bounds are exact: ten or more equal replies reach them |
| `Rtts.CurrentIsLatest` | src/net/peer_info.rs:171-172 | after every history the current value is that of the latest reply |
| `Rtts.MovingAverages` | src/net/peer_info.rs:173-174 | after every history a reply moves the averages by 30% and 10% of its distance, up to two nanoseconds, and a failure moves neither |
| `Rtts.RateDecays` | src/net/peer_info.rs:176-182 | after every history a ping takes 1% off the failure rate, up to rounding, and a failure adds 10_000 to what is left |
| `PeerInfos.PeerInfo.IngestAddress` | src/net/peer_info.rs:132-149 | stores the better of two sources, refreshes the time, asks for a probe exactly when the source rose to one that is to be probed |
| `PeerInfos.PeerInfo.PushFailure` | src/net/peer_info.rs:90-109 | keeps the ten newest failures, newest first; removes the address only for a probe result on an address to be probed |
| `PeerInfos.PeerInfo.SetRtt` | src/net/peer_info.rs:74-84 | creates, updates or leaves the statistics, case by case |
| `PeerInfos.IngestIsJoin` | src/net/peer_info.rs:132-149 | after any sequence of offers each address holds the greatest source offered, and nothing else is known |
| `PeerInfos.IngestOrderIrrelevant` | src/net/peer_info.rs:132-149 | the order (and repetition) of offers does not matter for addresses and sources |
| `PeerInfos.SourceOrder` | src/net/peer_info.rs:217-257 | the sources in ascending order, and the ranges of that order that are confirmed, to be probed and to be translated |
| `PeerInfos.TimesFollowOffers` | src/net/peer_info.rs:132-149 | after any offers each address carries the time of its latest offer, and others are untouched |
| `PeerInfos.TenNewestFailures` | src/net/peer_info.rs:90-109 | after any reports the record holds the ten newest failures, newest first |
| `PeerInfos.ReportRemovesIff` | src/net/peer_info.rs:99-107 | a report takes its address out if and only if it is a probe's and the address is still to be probed |
| `PeerInfos.StatisticsFromFirstReply` | src/net/peer_info.rs:74-84 | after any pings there are statistics from the first reply on, namely those of the pings that followed |
| `AddressBooks.AddressBook.Dial` | src/net/peers.rs:234-245 | queues a dial of the peer without an address of its own, never of ourselves |
| `AddressBooks.AddressBook.DialAddress` | src/net/peers.rs:247-270 | creates the record, and queues a dial with budget 11 unless connected there already; nothing for ourselves |
| `AddressBooks.AddressBook.AddAddress` | src/net/peers.rs:272-319 | files admissible addresses, queues a validation dial and announces as the book function says |
| `AddressBooks.AddressBook.TakeUp` | src/net/peers.rs:279-314 | the admitted address is learned, and the discovery and new information announced in that order |
| `AddressBooks.AddressBook.Admits` | src/net/peers.rs:273-294 | true exactly for an address that is in scope, not our own listener and not of ourselves, with its forms with and without the peer |
| `AddressBooks.AddressBook.Learn` | src/net/peers.rs:295-310 | files the address in the peer's record and queues its validation dial exactly when the offer asks for one and no connection has that address |
| `AddressBooks.AddressBook.RemoveAddress` | src/net/peers.rs:321-327 | removes the normalised address of a known peer |
| `AddressBooks.AddressBook.PrunePeers` | src/net/peers.rs:329-364 | removes exactly the doomed peers, in some order, one announcement each |
| `AddressBooks.AddressBook.CollectPrunable` | src/net/peers.rs:331-359 | lists every doomed peer exactly once |
| `AddressBooks.AddressBook.Prunable` | src/net/peers.rs:333-358 | true exactly when neither a connection, the newest failure nor an address keeps the peer |
| `AddressBooks.AddressBook.KeepsSome` | src/net/peers.rs:345-356 | finds whether some address keeps its peer, in any visiting order |
| `AddressBooks.AddressBook.ConnectionClosed` | src/net/peers.rs:366-423 | drops the connection entry, records the failure by who closed, keeps all addresses |
| `AddressBooks.AddressBook.Disconnect` | src/net/peers.rs:406-416 | drops the connection entry and records the failure without removing an address |
| `AddressBooks.AddressBook.SetRtt` | src/net/peers.rs:435-442 | updates the statistics of a known peer and announces it |
| `AddressBooks.AddressBook.SetInfo` | src/net/peers.rs:444-553 | computes the Identify function for some complete visit of the suggested addresses |
| `AddressBooks.AddressBook.Absorb` | src/net/peers.rs:448-549 | works the message into the record, for some complete visit of the suggestions |
| `AddressBooks.AddressBook.Suggest` | src/net/peers.rs:453-518 | collects exactly the translated and the advertised addresses and forgets the incoming ones |
| `AddressBooks.AddressBook.CollectPorts` | src/net/peers.rs:453-468 | collects IP and port of exactly the advertised listeners we are not connected to |
| `AddressBooks.AddressBook.CollectAdvertised` | src/net/peers.rs:512-518 | collects exactly the advertised listeners in scope, normalised |
| `AddressBooks.AddressBook.Translate` | src/net/peers.rs:483-508 | collects exactly the guesses for all incoming addresses |
| `AddressBooks.AddressBook.Guess` | src/net/peers.rs:484-507 | tries the ports advertised for the same IP, else all advertised ports, else the address itself |
| `AddressBooks.AddressBook.AdoptAll` | src/net/peers.rs:520-549 | takes up every suggestion once, in some order |
| `AddressBooks.AddressBook.AdoptAddress` | src/net/peers.rs:520-549 | one suggestion: skipped when our own, made a candidate or dialled when new, otherwise only refreshed |
| `AddressBooks.AddressBook.SwarmEvents` | src/net/peers.rs:555-557 | registers a subscriber with an empty inbox |
| `AddressBooks.AddressBook.ReceiverDropped` | src/net/peers.rs:559-563 | a receiver that goes away changes nothing but that its next send fails |
| `AddressBooks.AddressBook.Notify` | src/net/peers.rs:559-563 | delivers to every subscriber that takes the event and keeps exactly those |
| `AddressBooks.AddressBook.SubscribersUpToDate` | src/net/peers.rs:555-563 | in every state of the object, whatever handlers were called, each subscriber whose receiver lives is listed and holds exactly the events since it registered |
| `AddressBooks.AddressBook.DialFailed` | src/net/peers.rs:565-669 | charges the failure to the right peer and handles each kind of error as the book function says |
| `AddressBooks.AddressBook.ProbeDialFailed` | src/net/peers.rs:579-619 | failure of a validation dial: record, removal, redial with one retry less |
| `AddressBooks.AddressBook.TransportDialFailed` | src/net/peers.rs:620-656 | failure of a plain dial: one record and event per address, one redial per simultaneous open, else unreachable |
| `AddressBooks.AddressBook.ChargeFailures` | src/net/peers.rs:622-648 | one failure record and event per address in order, and one redial per simultaneous open |
| `AddressBooks.AddressBook.Poll` | src/net/peers.rs:781-797 | hands out queued dials in order, then any deferred dial that is due |
| `AddressBooks.AddressBook.ConnectionEstablished` | src/net/peers.rs:801-825 | offers the remote address, files the connection, announces |
| `AddressBooks.AddressBook.Connect` | src/net/peers.rs:815-852 | files the connection, in place of the former one when its address changed |
| `AddressBooks.AddressBook.AddressChange` | src/net/peers.rs:829-855 | offers the new address and replaces the connection entry |
| `AddressBooks.AddressBook.NewListenAddr` | src/net/peers.rs:863-869 | adds the address to our listeners and announces it |
| `AddressBooks.AddressBook.ExpiredListenAddr` | src/net/peers.rs:870-880 | removes the address from our listeners and announces it |
| `Translation.AdoptClosedForm` | src/net/peers.rs:520-549 | any duplicate-free visit gives the same table, and each wanted dial exactly once |
| `Translation.SettledStep` | src/net/peers.rs:528-547 | taking up one more suggestion asks for a dial exactly when the address is new to the table |
| `Translation.SetInfoClosedForm` | src/net/peers.rs:444-553 | the closed form of Identify: other addresses keep their source, suggestions outside our listeners are present, new ones are candidates or dialled exactly once, no incoming address is left |
| `Translation.SetInfoOrderIrrelevant` | src/net/peers.rs:483-549 | two visiting orders differ only in the order of the same queued dials |
| `Translation.RepeatedIdentifyIsSilent` | src/net/peers.rs:444-553 | a second Identify with the same listen addresses queues nothing and changes no source, however connections changed in between |
| `Effects.OfferRefusedIff` | src/net/peers.rs:272-294 | an offer changes nothing if and only if it is of ourselves, out of scope or our own listener |
| `Effects.OfferFiles` | src/net/peers.rs:295-301 | an accepted offer files its address with the better source and the time of the offer, and touches nothing else of the record |
| `Effects.OfferDials` | src/net/peers.rs:299-310 | an offer queues a dial exactly when it is accepted, raises the source to one that is to be probed, and no connection holds the address; the dial with all its fields |
| `Effects.DialAsks` | src/net/peers.rs:234-245 | what dialling a peer queues, field by field, and when |
| `Effects.DialAddressAsks` | src/net/peers.rs:247-270 | what dialling an address queues, field by field, and when, and that it makes the peer known |
| `Effects.ProbeRedialledIff` | src/net/peers.rs:601-615 | a failed dial of an address is repeated, with one retry less, if and only if some error is a simultaneous open and retries are left |
| `Effects.ProbeFailureRecorded` | src/net/peers.rs:579-600 | the record of such a failure at the front, and exactly when it takes its address out of the table |
| `Effects.PlainRedialled` | src/net/peers.rs:620-656 | a failed dial of a peer defers one dial with ten retries per simultaneous open, and reports each error as a probe result |
| `Effects.OtherFailuresIgnored` | src/net/peers.rs:571-577 | failures of unknown peers and other errors of a peer's dial change nothing but the log |
| `Effects.SuggestedExact` | src/net/peers.rs:453-518 | what an Identify suggests, in components: advertised listeners in scope, and for each incoming address its IP and rest with every port listed for that IP, else every port listed, else itself |
| `Effects.IdentifyFiles` | src/net/peers.rs:448-549 | after an Identify the table holds exactly its other entries and the suggestions that are not our listeners, each with source and time, and the record the fields of the message |
| `Effects.IdentifyTranslates` | src/net/peers.rs:483-518 | after an Identify the table holds, for each incoming address, its IP and rest at every port listed for that IP, else at every port listed, else itself, unless that is our own listener |
| `Effects.IdentifyDials` | src/net/peers.rs:528-547 | an Identify queues exactly one dial, with all its fields and budget four, per suggestion that is new and no reused connection |
| `Effects.KnownPeers` | src/net/peers.rs:234-442 | which steps make a peer known and which forget it |
| `Effects.ListenersFollowEvents` | src/net/peers.rs:863-880 | after every run our listeners are exactly the addresses whose latest listener event is a new one |
| `Effects.ConnectionFiled` | src/net/peers.rs:815-852 | the entry a connection is filed under, its time and direction, and that no other entry and field changes |
| `Effects.CloseRecorded` | src/net/peers.rs:366-416 | a close drops the entry and puts at the front of the failures who closed it, with the bare address |
| `Effects.EndpointNormalised` | src/net/peers.rs:145-166 | the remote address gets the remote peer and the local one ours |
| `Effects.RemovalTakes` | src/net/peers.rs:321-327 | exactly the normalised address goes, and nothing else of the record |
| `Effects.PingCounts` | src/net/peers.rs:435-442 | a ping counts for a known peer's statistics and for nothing else |
| `Announcements.LogGrows` | src/net/peers.rs:234-880 | the exact announcements of every step, in order |
| `Announcements.StepPresence` | src/net/peers.rs:801-825 | a step announces a peer as connected exactly when it gives it its first live connection, and as disconnected exactly when it takes its last |
| `Announcements.PresenceFollowsConnections` | src/net/peers.rs:366-423 | over every run from the empty book these announcements alternate for every peer, beginning with connected, and the last one tells whether a connection lives |
| `Swarms.StepMoves` | src/net/peers.rs:234-669 | every step changes every address table in one of a few stated ways |
| `Swarms.FailDialMoves` | src/net/peers.rs:565-669 | a dial failure removes only addresses to be probed and one a wrong peer answered for, and no connection |
| `Swarms.CalmQueues` | src/net/peers.rs:801-855 | connections that open, move or close, pings, pruning, removals and listener changes never queue or drop a queued dial |
| `Reachable.SuggestionsOk` | src/net/peers.rs:484-518 | from a well-formed table every suggestion is well formed and no port replacement fails |
| `Reachable.ReachableWellFormed` | src/net/peers.rs:118-319 | in every reachable state all stored addresses end in a peer, none is in loopback scope when that is disabled, we are not a peer of ourselves, failures are at most ten, budgets at most eleven |
| `Reachable.StepKeepsBook` | src/net/peers.rs:234-669 | every step keeps the book well formed; each handler of the object promises the same of its own state |
| `Reachable.StepConnections` | src/net/peers.rs:366-423 | which steps change a peer's connection keys, and how |
| `Guarantees.FirmStep` | src/net/peers.rs:579-600 | a step removes an address known from the user or a dial if it is its explicit removal or a wrong peer answering its validation dial, and only then |
| `Guarantees.FirmIsDurable` | src/net/peer_info.rs:90-149 | over every run without those two it stays and its source never goes down |
| `Guarantees.ValidationsClimb` | src/net/peers.rs:297-310 | every validation dial is paid for by a step up in the order of sources |
| `Guarantees.AtMostFourValidations` | src/net/peers.rs:530-547 | between two losses of an address, offers and Identify messages dial it at most four times |
| `Guarantees.AddAddressDiscovers` | src/net/peers.rs:279-314 | adding an address announces a discovery if and only if it gives the peer its first confirmed address |
| `Guarantees.DiscoveredMarksTransition` | src/net/peers.rs:279-314 | over all steps, announcements mark such transitions, and only Identify under port reuse makes one unannounced |
| `Guarantees.UnannouncedIff` | src/net/peers.rs:444-553 | a step confirms a peer unannounced if and only if it is an Identify under port reuse that suggests a connected address, not our listener, new to the table up to incoming ones |
| `Guarantees.SilentConfirmation` | src/net/peers.rs:520-537 | from the empty book an incoming connection and an Identify that advertises its address confirm the peer without an announcement |
| `Guarantees.BetweenDiscoveries` | src/net/peers.rs:311-313 | between two announcements of a peer all its confirmed addresses were lost |
| `Guarantees.ConnectionsRefineSwarm` | src/net/peers.rs:801-855 | over every run the connection keys are among the normalised remote addresses of the live connections |
| `Guarantees.SyncStep` | src/net/peers.rs:366-423 | from equality, a step keeps it if and only if it does not take an address that another live connection shares |
| `Guarantees.ClashIsReachable` | src/net/peers.rs:366-416 | from the empty book two connections at one address, one of them closed, leave the table without the other |
| `Guarantees.AlwaysInSyncIff` | src/net/peers.rs:801-855 | over every run from a state in sync, all its states are in sync if and only if no step takes an address that another live connection shares |
| `Guarantees.ConnectionsEqualSwarm` | src/net/peers.rs:801-855 | over every run in which connections of a peer never share an address, keys and live connections are equal |
| `Guarantees.PruneIsFilter` | src/net/peers.rs:329-364 | pruning keeps exactly the peers worth keeping, unchanged, announces each other peer once, and is idempotent |
| `Guarantees.PrunedIff` | src/net/peers.rs:333-358 | a peer is pruned if and only if it has no connection, no newest failure younger than the minimum age, no confirmed address and none to be probed younger than that age or ten seconds |
| `Guarantees.PruneMonotone` | src/net/peers.rs:329-364 | a larger minimum age or an earlier time never prunes more |
| `Redial.StepDecreases` | src/net/peers.rs:565-669 | without those disturbances no step raises the dial measure, and every dial handed out or answered lowers it |
| `Redial.RedialTerminates` | src/net/peers.rs:565-669 | in every infinite run in which dial commands, offers, Identify messages and failures of dials of other behaviours cease, there is a point after which no dial is handed out or answered |
| `Redial.BudgetBoundsDials` | src/net/peers.rs:601-615 | once only validation dials are outstanding, their budget bounds the number of dial steps of every run |
| `Redial.TwelveAttempts` | src/net/peers.rs:601-642 | no chain of redials has more than twelve attempts |
| `Redial.TwelveAttained` | src/net/peers.rs:601-615 | the bound is attained: a chain of twelve attempts for every peer and address |
| `FanOut.Deliver` | src/net/peers.rs:559-563 | the retaining send loop computes the delivery function |
| `FanOut.SubscribersSeeSuffix` | src/net/peers.rs:555-563 | after any history in which receivers are made once and dropped afterwards, the open senders are exactly those of the live subscribers, each with the events since it registered, in order |
| `FanOut.ForwardListenerEvents` | src/net/mod.rs:789-809 | forwards the log filtered to the listener, up to its close or the receiver's end |
| `FanOut.ForwardedKinds` | src/net/mod.rs:794-806 | new and expired addresses are forwarded as such, exactly those of the listener |
| `FanOut.UntilClosedExact` | src/net/mod.rs:794-796 | the events up to a listener's close are the longest beginning of the log that is free of that close |
| `FanOut.ListenerSeesItsEvents` | src/net/mod.rs:644-650 | what a stream registered before its listener has to forward is the whole log filtered to that listener up to its close |
| `Topics.Subscriptions.Subscribe` | src/net/behaviour.rs:679-704 | adds the subscriber, joins the protocols for a new topic, and reports refusal |
| `Topics.Subscriptions.Notify` | src/net/behaviour.rs:719-732 | delivers to the topic, and forgets it and leaves the protocols when nobody is left |
| `Topics.Subscriptions.Unsubscribe` | src/net/behaviour.rs:706-717 | leaves broadcast, and leaves gossipsub unless that fails |
| `Topics.Subscriptions.ReceiverDropped` | src/net/behaviour.rs:719-732 | a receiver that goes away closes its sender in every topic |
| `Topics.TopicsNeverEmpty` | src/net/behaviour.rs:679-732 | over every run no topic is without subscribers and broadcast is joined for nothing outside the map |
| `Topics.JoinedStep` | src/net/behaviour.rs:679-732 | from joined topics equal to the keys, a step keeps them equal if and only if gossipsub neither refuses a new topic nor fails to leave one |
| `Topics.WithinStep` | src/net/behaviour.rs:706-731 | from joined topics within the keys, a step keeps them within if and only if gossipsub does not fail to leave a joined topic |
| `Topics.WithinAlwaysIff` | src/net/behaviour.rs:679-732 | over every run nothing outside the map is ever joined if and only if gossipsub never fails to leave a joined topic |
| `Topics.JoinedAlwaysIff` | src/net/behaviour.rs:679-732 | over every run the joined topics are always exactly the keys if and only if gossipsub never refuses a new topic and never fails to leave one |
| `Topics.LingerIsReachable` | src/net/behaviour.rs:706-731 | a topic joined, its receiver dropped, and a failed leave: joined although nobody is subscribed, without any refusal |
| `Topics.RefusalSticks` | src/net/behaviour.rs:688-698 | after a refusal the topic accepts subscribers without ever being joined |
| `Topics.AcceptedIff` | src/net/behaviour.rs:684-703 | a caller gets its receiver exactly when its sender is then listed open |
| `Topics.TopicFanOut` | src/net/behaviour.rs:679-732 | over every run in which receivers are made once and dropped afterwards, a live subscriber holds exactly the events of its topic since it joined |
| `Backends.Backend.Bootstrap` | src/net/behaviour.rs:539-556 | starts the query, or answers that it was refused or Kademlia is off |
| `Backends.Backend.Provide` | src/net/behaviour.rs:579-600 | starts providing once bootstrapped, else answers with an error |
| `Backends.Backend.Providers` | src/net/behaviour.rs:608-623 | starts gathering providers once bootstrapped, else answers with an error |
| `Backends.Backend.Records` | src/net/behaviour.rs:625-647 | starts gathering records for the quorum once bootstrapped, else answers with an error |
| `Backends.Backend.Put` | src/net/behaviour.rs:649-671 | starts storing a record once bootstrapped, else answers with an error |
| `Backends.Backend.Get` | src/net/behaviour.rs:762-773 | files the channel under the bitswap id |
| `Backends.Backend.Sync` | src/net/behaviour.rs:775-787 | files the stream under the bitswap id |
| `Backends.Backend.CancelQuery` | src/net/behaviour.rs:789-794 | removes the entry and drops its channel |
| `Backends.Backend.Shutdown` | src/executor.rs:82-98 | the end of the service drops the table with every waiting channel unanswered |
| `Backends.Backend.InjectKadEvent` | src/net/behaviour.rs:165-290 | gathers, answers, removes and latches as the table function says |
| `Backends.Backend.Conclude` | src/net/behaviour.rs:196-277 | a result that ends its query well removes the entry and answers it when it is of that kind |
| `Backends.Backend.ConcludeError` | src/net/behaviour.rs:190-283 | an error removes the entry and is passed on when it is of that kind |
| `Backends.Backend.Bootstrapping` | src/net/behaviour.rs:180-189 | the last bootstrap step sets the latch and answers; earlier ones do nothing |
| `Backends.Backend.GatherProviders` | src/net/behaviour.rs:207-223 | adds to the set, and answers with it at the last step |
| `Backends.Backend.GatherRecord` | src/net/behaviour.rs:245-266 | appends the record, and answers at the quorum or the last step |
| `Backends.Backend.InjectBitswapProgress` | src/net/behaviour.rs:299-304 | passes progress to a waiting sync query only |
| `Backends.Backend.InjectBitswapComplete` | src/net/behaviour.rs:305-313 | answers and removes a get or sync query |
| `QueryProofs.ReachableInv` | src/net/behaviour.rs:165-315 | the table invariant over every run: the bootstrap latch implies Kademlia, channels are not shared, waiting record queries hold less than their quorum |
| `QueryProofs.StepKeepsInv` | src/net/behaviour.rs:165-315 | every lawful command and event keeps the table invariant |
| `QueryProofs.NoRequestIsLost` | src/net/behaviour.rs:165-315 | in every reachable state each reply channel is exactly one of waiting, answered by one reply that is its last message, cancelled, abandoned at the end of the service |
| `Backends.Backend.RequestsAreAccounted` | src/net/behaviour.rs:165-315 | the same of the object in any valid state; every handler keeps a valid state for lawful inputs |
| `QueryProofs.MismatchLosesRequest` | src/net/behaviour.rs:179-283 | a result loses a waiting request if and only if it takes the entry and is of another kind |
| `QueryProofs.SilentDrop` | src/net/behaviour.rs:579-671 | a request is dropped silently if and only if the latch is set without Kademlia, which `ReachableInv` rules out |
| `QueryProofs.SettledForGood` | src/net/behaviour.rs:294-315 | nothing follows a reply or a cancellation, for the rest of every run |
| `QueryProofs.RecordReply` | src/net/behaviour.rs:245-266 | the reply holds exactly the records found, in order of arrival, at most the quorum, fewer only at the last step |
| `QueryProofs.ProvidersReply` | src/net/behaviour.rs:207-223 | the reply is the union of all providers found since the request |
| `Replies.RequestOutcome` | src/net/behaviour.rs:539-671 | whether a request waits, and as what and for how many records, or is answered at once, and with which error |
| `Replies.LatchIff` | src/net/behaviour.rs:180-189 | over every run the latch is set if and only if some bootstrap reported its last step |
| `Replies.CancelWithdraws` | src/net/behaviour.rs:789-794 | cancelling withdraws exactly the entry under the id and sends nothing |
| `Replies.ConcludedReply` | src/net/behaviour.rs:180-283 | in every reachable state a result that ends a query is answered once: the six errors with a failure, found peers with these, the others with success |
| `Replies.BitswapReply` | src/net/behaviour.rs:305-313 | in every reachable state the end of a get or sync query is answered once, with success exactly if it was one |
| `Replies.ProgressDelivered` | src/net/behaviour.rs:299-304 | over every run a waiting sync query has been told exactly the progress reported since it was asked, in order |
| `Backends.PollTerminatesIff` | src/net/mod.rs:863-873 | the polling loop ends if and only if the channel is open or holds a reply |
| `Backends.SyncQuery.Poll` | src/net/mod.rs:863-873 | takes everything up to the first reply and returns it, or empties the channel and is pending |
| `Backends.PollingIsSafe` | src/net/mod.rs:860-874 | in every reachable state, however much progress was consumed, polling a query whose entry was not dropped unanswered ends: pending while it waits, its one reply once answered |
| `Backends.PollEndsIff` | src/net/mod.rs:860-874 | in every reachable state, polling the future of a query that was not cancelled ends if and only if the service did not end while the query waited |
| `Backends.StopSpins` | src/net/mod.rs:863-873 | when the service ends, polling any query that still waits never ends, whatever was consumed of it |
| `Backends.SpinIsReachable` | src/net/mod.rs:863-873 | a sync query and the end of the service lead there, with the query never cancelled |
| `Text.SplitCons` | cli/src/lib.rs:140-141 | a word followed by a space is split off any text |
| `Text.SplitField` | cli/src/lib.rs:140-141 | a field without whitespace is one word of the line, or none when it is empty |
| `Text.SplitYieldsTokens` | cli/src/lib.rs:140-141 | splitting yields non-empty words without whitespace |
| `Text.WriteHex` | cli/src/lib.rs:117-122 | writes two lower-case digits a byte |
| `Text.ReadHex` | cli/src/lib.rs:156-166 | reads chunks of two characters, failing on the first bad one |
| `Text.HexRoundTrip` | cli/src/lib.rs:117-166 | written bytes read back as themselves |
| `Text.LowerCaseDigits` | cli/src/lib.rs:117-122 | digits are written in lower case |
| `Text.DigitExact` | cli/src/lib.rs:156-166 | digits are read in either case, and nothing else is a digit |
| `Text.ReadsEitherCase` | cli/src/lib.rs:156-166 | two digits of either case per byte are read as these bytes |
| `Text.ShortChunks` | cli/src/lib.rs:156-166 | a single last digit and a digit after a plus sign are bytes of their own |
| `Text.RefusesOthers` | cli/src/lib.rs:156-166 | text with any other character is refused |
| `Text.Separators` | cli/src/lib.rs:140-141 | the code points that separate words |
| `Cli.CommandRoundTrip` | cli/src/lib.rs:110-180 | when the texts of the values in a command hold no whitespace and parse back, its line parses back to it if and only if none of these texts is empty, its block has data that fits and its alias is one word |
| `Cli.EventRoundTrip` | cli/src/lib.rs:235-364 | under the same condition on its own values, an event's line parses back to it if and only if none of their texts is empty, its block has data that fits, its topic is one word and its error is single-spaced |
| `Cli.EmptyAddressPanics` | cli/src/lib.rs:112-146 | adding an address that prints as no text gives a line on which the parser panics |
| `Cli.EmptyEventAddressPanics` | cli/src/lib.rs:264-360 | the same for opened and closed connections |
| `Cli.PrintingIsInjective` | cli/src/lib.rs:110-269 | different commands, and different events, that meet both conditions have different lines |
| `Cli.LanguagesDisjoint` | cli/src/lib.rs:110-269 | no line is both a printed command and a printed event |
| `Cli.CommandLine` | cli/src/lib.rs:110-134 | the words of every command's line |
| `Cli.EventLine` | cli/src/lib.rs:235-269 | the words of every event's line |
| `Cli.UnknownLines` | cli/src/lib.rs:136-180 | a line with no word or with a first word of another kind is an error |
| `Cli.ArgumentOutcome` | cli/src/lib.rs:147-150 | a missing argument is a panic, one that does not parse an error, and further words are ignored |

## Left out

- Block storage and garbage collection (`src/db.rs`): SQL statements of a store that is not part of this model.
- Kademlia, bitswap, gossipsub, broadcast, mdns, ping and Identify themselves: they are an environment that gives ids and sends events, and its results match the kind of their query (`MismatchLosesRequest` says what happens otherwise).
- Transport, DNS and encryption set-up, and the matching of nested error types: their outcome is an input.
- The list of external addresses and its refresh flag, metrics, log output and the text of errors.
- The connection handler and the hooks of the address book that do nothing.
- The loop of the service that takes commands and swarm events: each of its iterations is one step of a run, in any order.
- The delay before a redial: a deferred dial may be handed out at any later poll.
- The message sent when a query future is dropped, and its loss when the command channel is full: cancelling is an input that may come at any time or not at all.
- The one-shot channel of a get query: it reports a dropped entry as an error by itself, and is not polled in a loop.
- Overflow of durations at 2^64 seconds: durations are unbounded.
- The `PeerInfo` event of the line protocol and its JSON text, and command line options.
- The chain of cases in the two line parsers takes words from an iterator; the model is a function of the list of words, with the two byte loops as methods.
- Aliasing of peer records: a record is an object only while it is borrowed, and a value in the map otherwise.
- Cli.CommandRoundTrip: says nothing of a value whose text holds whitespace or does not parse back, such as an address with a space in a DNS name; EventRoundTrip and PrintingIsInjective likewise.
- Rtts.Rtt.RegisterFailure: the failure counter wraps at 2^32 as in a build without overflow checks; a build with them would stop there.
- Backends.SyncQuery.Poll: requires a channel that is open or holds a reply, because on any other the loop does not end; `PollTerminatesIff` covers all channels.
- Backends.Backend.Get: requires bitswap, as the source panics without it; so do Sync and CancelQuery of a bitswap query.
