# Topology replication of ipc-pubsub, verified

A group of processes keeps one shared picture of who has joined, under which address, and who publishes and
subscribes to what. One process runs the hub (`TopologyServer`); all processes are spokes (`TopologyManager`). The hub
keeps a log of topology messages, numbers fresh ones, compacts the log when a node leaves, and sends every connection
what lies past its cursor. A spoke replays what it is sent into a node table, files it into a log of its own, and
reports changes through callbacks; `IPCNode` builds its routing table from these callbacks alone.

This project models the hub, the spoke, the routing table and the hub's event loop (`UDSServer::MainLoop`), and proves
that they add up: compaction does not change what the log means, every connection is sent every log entry exactly
once, all spokes end up with the hub's topology under every interleaving, and publishing reaches exactly the nodes the
hub's log has as subscribed and reachable.

| file | contents |
|---|---|
| Messages.dfy | messages, logs ordered by number, `std::lower_bound` |
| Topology.dfy | the meaning of a log: the fold `Apply`/`Replay` |
| LogReading.dfy | the same meaning read off the log: which entry has the last word |
| CatchingUp.dfy | exactly which logs can be replayed over the stale table of a spoke that was cut off |
| Naming.dfy | under which names and addresses a log has a node join: the first, the one last told, the latest |
| Pruning.dfy | compaction as a filter, its algebra, exactly when it keeps the meaning from every table |
| Wiping.dfy | what compaction does to the topology a log means from nothing, without condition |
| Hub.dfy | the hub as a state machine and its invariant `Good` |
| HubRuns.dfy | what every run keeps: log discipline, exact cursors, exactly-once |
| Streams.dfy | exactly when a connection has been told what the log means, and when two have been told the same |
| HubMeaning.dfy | the hub with its compacted log refines, over whole runs, a machine without any log |
| Reconnecting.dfy | a spoke that loses its connection any number of times during a run |
| Repeats.dfy | a hub opened with a log that repeats entries |
| Handovers.dfy | what a spoke that has reconnected hands over to a new hub |
| Rerouting.dfy | the routing table of a node whose spoke has reconnected |
| Claims.dfy | which node a broken connection takes away |
| Retransmission.dfy | repeated payloads and stale messages have no effect |
| Purging.dfy | the one-time purge |
| Recovery.dfy | several spokes uploading one history to a hub opened with part of it or none |
| TopologyServer.dfy | the hub as a class with in-place loops, proved against Hub.dfy |
| Spokes.dfy | filing, callbacks and their protocol, introducing oneself |
| Outbox.dfy | direct sends, the backlog and its draining |
| TopologyManager.dfy | the spoke as a class, proved against Topology.dfy, Spokes.dfy and Outbox.dfy |
| IPCNode.dfy | the routing table, its refinement of the topology, publishing |
| UDSServer.dfy | the event loop as a class that drives a hub, with the purge timer striking between any two calls |
| Network.dfy | one hub and any number of spokes over FIFO connections: the end-to-end theorems |
| Scenarios.dfy | concrete runs in which the program as written falls short |

The state machine carries one field the program does not have, `journal`: what an observer connected from the start
would have been sent. `Client.sent` is what has been written to a connection. Nothing ever reads either of them except
the statements proved.

## Where the program and its comments differ

Both readings are modelled, as a parameter; the code as written is always one of them.

- `PruneRule`. Line 63 of `lib/TopologyServer.cc` looks up the truth value of `node_id() > 0` among the left ids,
  where the comment below it and the node branch above it look up `node_id()`. `AsWritten` is the code, `Intended` the
  comment. The hub's internal guarantees (log discipline, cursors, exactly-once delivery, recovery, retransmission)
  hold for both. What compaction does to the topology is settled for both by `Wiping.PruneWipes`: it takes away the
  topics of the nodes whose topic changes it strikes out. Under `Intended` these nodes have left anyway. As written
  they are, once node 1 has left, all nodes but 0, and connections are told different topologies
  (`Scenarios.AsWrittenDiverges`). Agreement therefore holds exactly under `Wiping.Spares`: no standing topic is one
  that compaction strikes out. `Wiping.SparesWhen` and `HubRuns.Sound` give the part of it a run can rely on: node 1
  has not left.
- `JoinRule`. At `lib/TopologyManager.cc:87-89` the comment says "so update" but nothing is stored. `KeepFirst` is the
  code, `TakeLatest` the comment. Only names and addresses depend on it. As written, the node table keeps the first name
  and address of a node's present life, the routing table the last one that differed from the first, and the log has the
  latest (`IPCNodes.ReplayTracksNames`). So a renamed node is routed to correctly although its node table entry is stale
  (`IPCNodes.RenameParts`), and is lost when it is given its first name and address back (`IPCNodes.RevertMisroutes`).
  `IPCNodes.RoutingCorrect` and `Network.RoutingFollowsHub` say exactly when routing is right, for both rules.
- The comment at `lib/TopologyServer.cc:169-171` is right that holes are not filled, but numbers are not unique to one
  message either: the counter can drop (`lib/TopologyServer.cc:163`, `HubRuns.CounterDropsIff`,
  `Scenarios.CounterDrops`). `HubRuns.NoSerialReused` shows that no number is ever sent with two different messages
  all the same.
- The hub takes a connection for the node its last message spoke about (`lib/TopologyServer.cc:203`), and a spoke speaks
  about everybody while it uploads its history. `Claims.OwnNodeGoesIff` says exactly when a broken connection takes away
  the spoke's own node, and `Claims.BrokenUploadTakesOther` that it takes away another one, for good, if it breaks in
  the middle of the upload.
- The assertion on the uid at `lib/TopologyServer.cc:160` and the one at `lib/TopologyServer.cc:166` do not hold for
  arbitrary clients (LEAVEs minted by a hub have uid 0). The model is that of a build without these two. The assertions
  at lines 40, 79, 90 and 199 are Dafny assertions or preconditions and are proved never to fire, for a hub opened with
  any log that is a seed but for repeated entries.
- `README.md:32-34` promises that a spoke drops entries that conflict with the hub's. No code does so. A spoke that is
  sent the whole log again files every entry a second time; `Spokes.FiledStrictlyIffUnrepeated` says exactly when its
  log is strictly increasing, and `Handovers.LaterHandover` that a hub opened with it behaves, but for the repeats, as
  if it were.

A digest is called a seed (`Hub.Seed`) when it is strictly increasing and leave-final: after a LEAVE nothing follows
that this LEAVE strikes out. `Network.Handover` shows that what a spoke has filed on its first connection is a seed,
`Handovers.LaterHandover` that what it has filed by any later time is one once each entry is taken once.

A log is called orderly (`CatchingUp.Orderly`) when no node that joins and stays has a premature last word: one that
starts a subscription or a publication before the node's first JOIN and is the last about its topic.

## Model

| member | source | states |
|---|---|---|
| `Network.Agreement` | lib/TopologyServer.cc:28-102 | in every reachable state of one hub and any number of spokes, for any client behaviour and any delivery order, applying a spoke's in-flight messages gives exactly the replay of the hub's compacted log, if and only if no topic that stands in what it was told is one the hub strikes out, or it was told the very log |
| `Network.AgreementWhenSound` | README.md:11-31 | always under the intended rule, and as written as long as node 1 has not left |
| `Network.DrainedSpokesAgree` | README.md:11-31 | two spokes with nothing in flight hold the same node table, even if one applied messages struck out before the other connected, if and only if both or neither were told of topics or no standing topic of either is struck out |
| `Network.Handover` | lib/TopologyManager.cc:260-264 | a drained spoke's own log equals the stream it was sent and opens a good hub; it means the old topology exactly under the condition for agreement; its first compaction keeps its meaning exactly if it strikes out no standing topic, leaves exactly the old hub's compacted log, and then means the old topology exactly if that hub had compacted or no standing topic is struck out |
| `Network.RoutingFollowsHub` | lib/IPCNode.cc:38-57 | what a drained node sends on a topic goes to exactly the nodes the hub's log has as joined, subscribed and reachable, under the latest addresses there, for both JOIN rules; except exactly for subscribers whose topics the hub has struck out and, as written, those readdressed and then given their first name and address back |
| `Network.ArrivalTakesOldest` | lib/TopologyManager.cc:59-78 | an arrival takes exactly the oldest message off one wire: the node table is updated with it, the log gains it in order, and nothing else changes |
| `Network.HubStepWrites` | lib/TopologyServer.cc:28-85 | a step of the hub puts on each wire exactly what it has written to that connection; a newcomer starts with nothing |
| `Network.WireDrains` | lib/TopologyManager.cc:59-78 | from any reachable state, as many arrivals as a wire holds leave it empty, the spoke with the log the hub has written to it and the table that means, hub and other spokes untouched |
| `Recovery.HistoryRecovered` | lib/TopologyManager.cc:136-142 | several spokes upload prefixes of one seed log to a hub opened with any prefix of it, the empty one included: under every interleaving the hub's log is the compacted longest prefix it was opened with or told so far, or untouched (uploaded entries without a node id are ignored) |
| `Recovery.LateUploadIgnored` | lib/TopologyServer.cc:164-174 | an upload of what somebody uploaded before, still in the log or already struck out, changes no log, counter or wire of a hub that was opened empty or has compacted its log; of any other it changes nothing but that the log is compacted |
| `Recovery.TakeReachesHub` | lib/TopologyManager.cc:139-142 | an upload by an attached spoke hands the hub that spoke's next entry and moves it on by one |
| `Recovery.WholeLogRecovered` | lib/TopologyManager.cc:139-142 | once one attached spoke has uploaded as often as the log has entries, whatever others do in between, the hub has what it was opened with compacted with all other entries that name a node, or just what it was opened with if there are none |
| `HubMeaning.RunRefines` | lib/TopologyServer.cc:177-256 | refinement over whole runs, by both rules: topology, departures, newest and next number and what each connection is known by are always what a machine without log, cursors or compaction makes of the same events |
| `HubMeaning.AppendMeans` | lib/TopologyServer.cc:205-213 | appending one entry and compacting means applying that entry, unless it is a JOIN of a node that has left, and then taking away the topics no longer kept |
| `HubMeaning.LeftNeverReturns` | lib/TopologyServer.cc:52-58 | once the log holds a node's LEAVE, no later run lists the node again |
| `Claims.BrokenTakesLastSubject` | lib/TopologyServer.cc:87-95 | a connection that breaks takes away exactly the node that the last message on it with a node id spoke about |
| `Claims.OwnNodeGoesIff` | lib/TopologyManager.cc:136-153 | of a spoke that sends its history and then speaks for itself, that is its own node if and only if its own words had begun or the history's last word so far was about it |
| `Claims.BrokenUploadTakesOther` | lib/TopologyServer.cc:197-203 | in any state of the hub, an upload that breaks off after an entry about another node takes that node away for good |
| `HubRuns.ExactlyOnce` | lib/TopologyServer.cc:75-85 | from any seed, after any run, every cursor equals the last number in the log, every log entry was sent exactly once on each connection, each stream strictly increases and is leave-final |
| `HubRuns.NoSerialReused` | lib/TopologyServer.cc:152-163 | two messages with one number, sent on any connections at any two times of a run, are the same message |
| `HubRuns.LogDiscipline` | lib/TopologyServer.cc:137-175 | every step's log is a subsequence of the old one followed by strictly newer entries, all below the counter; the last number never decreases |
| `HubRuns.DataAppends` | lib/TopologyServer.cc:137-163 | what a message with a node id adds to log, counter and contributions, field by field: a fresh one with a new payload its number and the uid drawn, and nothing else in it changes; a known payload nothing; a numbered one itself if newer than the whole log |
| `HubRuns.DataIgnores` | lib/TopologyServer.cc:183-195 | a message without a node id changes nothing at all |
| `HubRuns.DisconnectAppends` | lib/TopologyServer.cc:87-102 | a disconnect appends one LEAVE of the client's node with the next number, uid 0, and forgets the client |
| `HubRuns.PurgeAppends` | lib/TopologyServer.cc:239-256 | a purge appends one LEAVE with uid 0 for each node listed and not claimed, numbered on from the counter |
| `HubRuns.FirstNumber` | lib/TopologyServer.cc:262-265 | the first message a hub mints is numbered one past its digest, 1 if that is empty |
| `HubRuns.RunExtends` | lib/TopologyServer.cc:87-102 | over any run the invariant holds, no LEAVE is forgotten, and what was published is only extended |
| `Reconnecting.ReconnectCatchesUp` | lib/TopologyServer.cc:33-42 | a spoke whose connections broke anywhere, any number of times over a run, and that is sent the whole log at any later point, ends with the hub's topology if and only if its stale table lists no topic the hub has struck out and no node about which the log is not orderly |
| `Reconnecting.ReconnectNeedsOrder` | lib/TopologyServer.cc:33-42 | in any state of the hub, a connection opened now may break at every point and be opened again without harm if and only if the log is orderly |
| `Reconnecting.SoundIsUnburdened` | lib/TopologyServer.cc:62-68 | under the intended rule, and as written while node 1 has not left, no stale table lists a topic the hub has struck out |
| `Reconnecting.OneMoreVisit` | lib/TopologyServer.cc:28-43 | what a spoke's table becomes with one more broken connection: what was written to it by then, up to the cut, replayed over what it had |
| `Rerouting.RoutingAfterReconnect` | lib/IPCNode.cc:38-57 | after any number of broken connections and a whole delivery a node sends on a topic to exactly the nodes the hub's log has as joined, subscribed and reachable, under the latest addresses there; except exactly, as written, those readdressed and then given their first name and address back, and those that only the stale table has as subscribed |
| `Rerouting.NamesCatchUp` | lib/TopologyManager.cc:76-91 | replaying a whole log over the names that earlier cut-off deliveries left gives the names it gives from nothing |
| `Streams.ToldWhatHubMeans` | lib/TopologyServer.cc:28-85 | after any run a connection has been told the topology the log means, from nothing, if and only if no topic standing in its stream is one compaction strikes out, or its stream is the log |
| `Streams.ToldAlike` | lib/TopologyServer.cc:28-85 | after any run two connections have been told the same topology if and only if both or neither were told of topics or no standing topic of either is struck out |
| `Repeats.RepeatsDoNotMatter` | lib/TopologyServer.cc:258-266 | a hub opened with a log that repeats entries stays, over every run, the hub opened with each entry once, but for the repeats in log and streams: same counter, cursors and meaning |
| `Handovers.LaterHandover` | lib/TopologyManager.cc:260-264 | the log a spoke has filed over any number of broken connections and a whole delivery is, each entry once, a seed in step with the old hub's log; a hub opened with it behaves as one opened with that; it means the old topology exactly under the condition for agreement, and its first compaction leaves the old hub's compacted log |
| `Handovers.OneMorePart` | lib/TopologyServer.cc:28-43 | what has reached a spoke after one more broken connection: what it had, then what was written to it by then, up to the cut |
| `HubRuns.StreamMeansHistory` | lib/TopologyServer.cc:45-73 | under the intended rule, and as written while node 1 has not left, every stream in step with the log means what the log means, from every starting table |
| `HubRuns.StreamMeansHistoryExactly` | lib/TopologyServer.cc:62-68 | for a compacted log this holds if and only if compaction struck out topics of left nodes only |
| `Hub.RunGood` | lib/TopologyServer.cc:258-266 | the hub invariant holds in every state reachable from a hub that has it |
| `Hub.StreamAdvances` | lib/TopologyServer.cc:97-101 | a stream in step with the log stays in step when it is sent what survives compaction of the additions |
| `Hub.LogAdvances` | lib/TopologyServer.cc:75-85 | after compaction, what lies past an exact cursor is exactly the surviving additions |
| `Wiping.PruneWipes` | lib/TopologyServer.cc:45-73 | for every leave-final log and both rules, compaction takes from the topology the log means exactly the topics of the nodes whose topic changes it strikes out |
| `Wiping.PruneMeansSameIffSpares` | lib/TopologyServer.cc:45-73 | what a leave-final log means from nothing survives compaction if and only if no standing topic is one compaction strikes out |
| `Wiping.SparesWhen` | lib/TopologyServer.cc:62-68 | under the intended rule, or while node 1 has not left, none ever is; as written afterwards, if and only if no node but 0 has a topic standing |
| `Pruning.PruneMeaning` | lib/TopologyServer.cc:45-73 | compacting a leave-final log preserves its replay from every table if and only if the rule strikes out topics of left nodes only, in particular always under the intended rule and whenever node 1 has not left |
| `Pruning.PruneStrikesOut` | lib/TopologyServer.cc:52-72 | compaction keeps order, every LEAVE, and exactly the entries the rule does not condemn, with multiplicity |
| `Pruning.PruneSurvivors` | lib/TopologyServer.cc:54-71 | which entries survive, read off the log alone: LEAVEs and node changes of nodes without one; topic changes, as intended, of nodes without a LEAVE, as written those of nodes above 0 if node 1 has none and those of node 0 if node 0 has none |
| `Pruning.PruneIdempotent` | lib/TopologyServer.cc:45-73 | compacting twice is compacting once |
| `Pruning.PruneIncremental` | lib/TopologyServer.cc:212-213 | compacting after every append equals compacting once at the end, for every log |
| `Pruning.NewestSurvives` | lib/TopologyServer.cc:45-73 | the newest entry of a leave-final log survives compaction |
| `Pruning.PrunedIsLeaveFinal` | lib/TopologyServer.cc:45-73 | the compaction of any log is leave-final |
| `CatchingUp.CatchUp` | lib/TopologyManager.cc:66-134 | replaying a whole log over the table left by any of its prefixes equals replaying it from empty, for all prefixes, if and only if the log is orderly |
| `CatchingUp.CatchUpRepeated` | lib/TopologyManager.cc:66-134 | over the table left by any number of deliveries of it that broke off anywhere it does so if and only if the log is orderly about the nodes listed there |
| `CatchingUp.PrematureSubscribe` | lib/TopologyManager.cc:99-106 | a SUBSCRIBE before its JOIN is dropped the first time and takes effect the second time |
| `LogReading.ReplayJoined` | lib/TopologyManager.cc:76-97 | a node is listed after a replay if and only if the log has a JOIN of it with no later LEAVE |
| `LogReading.ReplaySubscribed` | lib/TopologyManager.cc:117-126 | it is listed as subscribed if and only if it subscribed while joined and neither unsubscribed nor left afterwards |
| `LogReading.ReplayPublished` | lib/TopologyManager.cc:107-132 | it is listed with a mime type for a topic if and only if it announced that type while joined and no other type, retraction or leave follows |
| `LogReading.ReplayReachable` | lib/TopologyManager.cc:76-91 | it is listed under the name and address of its first JOIN since the last LEAVE as written, of its latest JOIN if repeated JOINs are stored |
| `Purging.PurgeExact` | lib/TopologyServer.cc:219-256 | after the purge the listed nodes are exactly those listed before that some connection claims, by either rule, untouched but for the topics no longer kept |
| `Purging.PurgeOrderIrrelevant` | lib/TopologyServer.cc:241-249 | the topology after the purge does not depend on the iteration order of the unordered set |
| `Retransmission.ResendIgnored` | lib/TopologyServer.cc:124-150 | a payload handed in on a connection, under a number or fresh, and not rejected then, can be handed in fresh at any later point of that connection without changing log, counter or any wire |
| `Retransmission.FreshIgnoredIff` | lib/TopologyServer.cc:106-150 | after any run a fresh message changes no log, counter or wire if and only if it names no node or its payload was taken before in this life of its connection, fresh or under a number that was not rejected; any other takes the next number |
| `Retransmission.OfferedIffHandedIn` | lib/TopologyServer.cc:137-175 | what the redundancy test remembers of a connection is exactly the payloads taken in its present life |
| `Retransmission.MintedAreDistinct` | lib/TopologyServer.cc:137-150 | fresh messages minted for one connection over any run have pairwise distinct payloads |
| `Retransmission.StaleIgnored` | lib/TopologyServer.cc:152-175 | on a compacted log a numbered message that is not newer than all of it (duplicate, conflict or hole) changes nothing |
| `Scenarios.AsWrittenDiverges` | lib/TopologyServer.cc:63-65 | as written, after a LEAVE for id 1 an earlier and a later connection are sent logs that mean different topologies |
| `Scenarios.CounterDrops` | lib/TopologyServer.cc:158-163 | in a reachable state an accepted old message lowers the counter |
| `TopologyServers.TopologyServer.constructor` | lib/TopologyServer.cc:258-266 | seeding loads the digest and sets the counter past its last entry; a seed, or a log that is one but for repeated entries, establishes the invariant |
| `TopologyServers.TopologyServer.OnConnect` | lib/TopologyServer.cc:28-43 | a new connection is sent the whole log and gets the exact cursor; the cursor assertion never fires |
| `TopologyServers.TopologyServer.EraseLeft` | lib/TopologyServer.cc:52-72 | the in-place erase loop equals the order-preserving filter |
| `TopologyServers.TopologyServer.BroadcastAll` | lib/TopologyServer.cc:75-85 | every client is sent what lies past its cursor, in any iteration order; the counter assertion never fires |
| `TopologyServers.TopologyServer.OnDisconnect` | lib/TopologyServer.cc:87-102 | the state machine's disconnect step; the invariant is kept |
| `TopologyServers.IsRedundant` | lib/TopologyServer.cc:106-135 | the loop with its field-wise comparisons finds exactly an equal payload among the contributions |
| `TopologyServers.TopologyServer.AddNovelMessage` | lib/TopologyServer.cc:137-150 | a fresh message is numbered and appended to log and contributions unless redundant |
| `TopologyServers.TopologyServer.AddOldMessage` | lib/TopologyServer.cc:152-175 | through the binary search, a numbered message is appended exactly if it is newer than every entry |
| `TopologyServers.TopologyServer.OnData` | lib/TopologyServer.cc:177-217 | the state machine's data step, including both ways of being ignored; the invariant is kept |
| `TopologyServers.TopologyServer.CollectActive` | lib/TopologyServer.cc:228-237 | the scan finds exactly the nodes that a replay of the log has as joined |
| `TopologyServers.TopologyServer.PurgeDisconnected` | lib/TopologyServer.cc:219-256 | the state machine's purge step for some enumeration of those nodes; the invariant is kept |
| `Messages.LowerBound` | lib/TopologyServer.cc:154-157 | the binary search returns the first position not older than the number |
| `TopologyManagers.TopologyManager.ApplyUpdate` | lib/TopologyManager.cc:66-134 | one update files the message, changes the node table and fires callbacks as the replay functions say |
| `TopologyManagers.TopologyManager.IntroduceOurselves` | lib/TopologyManager.cc:136-175 | a new connection is sent the history, the JOIN, and an ANNOUNCE or SUBSCRIBE per own topic in some order, a SUBSCRIBE carrying the leftover mime type |
| `Spokes.IntroductionRestores` | lib/TopologyManager.cc:144-174 | round trip: replaying an introduction where the spoke is unknown restores exactly its own entry under its own name and address |
| `Spokes.IntroductionSays` | lib/TopologyManager.cc:144-174 | an introduction message by message: the JOIN first, whether the spoke lists itself or not; then, if it does, one ANNOUNCE per publication and one SUBSCRIBE per subscription, with the mime type announced last |
| `Spokes.IntroductionIsFresh` | lib/TopologyManager.cc:144-174 | all its messages are without number and about the spoke itself |
| `Spokes.IntroductionJoins` | lib/TopologyManager.cc:147-153 | where the spoke is unknown and lists nothing of its own, its introduction lists it as a newcomer |
| `Spokes.FiledIsSortedPermutation` | lib/TopologyManager.cc:69-72 | in whatever order messages arrive, the filed log is ordered and is a permutation of what arrived |
| `Spokes.FiledInOrder` | lib/TopologyManager.cc:69-72 | a strictly increasing stream is filed as it came |
| `Spokes.FiledStrictlyIffUnrepeated` | lib/TopologyManager.cc:69-72 | the filed log is strictly increasing if and only if no number was received twice |
| `Spokes.CallbacksFollowProtocol` | lib/TopologyManager.cc:74-133 | for all update sequences: leaves only for joined nodes, no topic callback for an unjoined node, subscriptions and publications begin before they end and never twice; and the callbacks add up to the node table |
| `Spokes.SubscriptionsAlternate` | lib/TopologyManager.cc:117-126 | between two subscribe callbacks for one node and topic lies an unsubscribe or a leave |
| `Outboxes.NothingLost` | lib/TopologyManager.cc:215-254 | under any interleaving of senders, takeovers, drain steps and lost clients, what was submitted is, as a multiset, what was delivered or is still held |
| `Outboxes.ActionsDo` | lib/TopologyManager.cc:215-254 | each action case by case: without a client a message waits, a refused one waits too and costs the client, any other is delivered; a takeover and a lost client move exactly what they should |
| `Outboxes.TakeoverKeepsOrder` | lib/TopologyManager.cc:247-254 | with no other sender, delivered messages followed by the new backlog equal the old ones in order, also when a send fails midway |
| `TopologyManagers.TopologyManager.SendMessage` | lib/TopologyManager.cc:215-229 | no client: queue; refusal: drop the client and queue; otherwise deliver |
| `TopologyManagers.TopologyManager.ResendBacklog` | lib/TopologyManager.cc:245-254 | the drain loop performs the takeover and its drain steps and keeps the order |
| `TopologyManagers.TopologyManager.SeedHub` | lib/TopologyManager.cc:261-264 | a new hub is opened with the spoke's history, and is in a good state if that is a seed but for repeats |
| `IPCNodes.TableMatches` | lib/IPCNode.cc:83-146 | fed the callbacks of any update sequence, the routing table has exactly the replayed nodes and subscriptions |
| `IPCNodes.AddressesMatch` | lib/TopologyManager.cc:76-91 | names and addresses agree too if repeated JOINs are stored; as written, exactly for the nodes not renamed since they joined |
| `IPCNodes.RoutingCorrect` | lib/IPCNode.cc:29-58 | after any update sequence a topic is routed to a node exactly as the log's latest JOIN of it and its subscriptions demand, if and only if repeated JOINs are stored or it is not a subscriber that was readdressed and then given its first name and address back |
| `IPCNodes.RoutingByLog` | lib/IPCNode.cc:38-57 | read off the received log, for both rules: a node is a recipient if and only if its last word on the topic is a subscription and the address that counts is not empty, and it is sent to at that address |
| `IPCNodes.LatestAddresses` | lib/TopologyManager.cc:85-90 | as written, the routing table has the name and address of a node's latest JOIN if and only if it was not renamed and then given its first ones back |
| `IPCNodes.ReplayTracksNames` | lib/TopologyManager.cc:76-91 | over any updates: the node table as written keeps the first name and address since the last LEAVE, the routing table the last that differed from it, storing repeated JOINs the latest |
| `IPCNodes.NamesAreSaid` | lib/TopologyManager.cc:76-91 | these are the names of the JOINs that the log, read by positions, has as first and as latest |
| `IPCNodes.RenameParts` | lib/TopologyManager.cc:85-90 | as written, a node that rejoins under a new address has the new one in the routing table and the old one in the node table |
| `IPCNodes.RevertMisroutes` | lib/TopologyManager.cc:85-90 | given the old address back, its datagrams still go to the address in between |
| `IPCNodes.SubscribersAreKnown` | lib/IPCNode.cc:123-130 | the branch for a subscriber that has not joined is never taken |
| `IPCNodes.StrangersStayUnreachable` | lib/IPCNode.cc:120-146 | an unknown subscriber would be listed without an address, and an unknown unsubscriber change nothing |
| `IPCNodes.IPCNode.Publish` | lib/IPCNode.cc:38-57 | one datagram to each recipient, under its path, and none to anybody else |
| `UDSServers.UDSServer.TakeTurn` | lib/UDSServer.cc:122-182 | one turn makes the calls its poll result demands, data before hang-up, with the purges that strike between any two of them, and keeps the client sets of event loop and hub equal |
| `UDSServers.UDSServer.MainLoop` | lib/UDSServer.cc:122-197 | the turns are taken up to and including the first that ends the loop and lead to exactly their calls and purges, each turn polling the clients there are by then; the calls form a lawful conversation, every hub precondition is met and the hub's state is what the state machine makes of them |
| `UDSServers.CallsTalk` | lib/UDSServer.cc:139-181 | what a turn says about each connection, read off the poll result: the message read, if not empty, then the hang-up; the newcomer is announced; nothing else, and nothing at all if the turn fails or is asked to shut down |
| `UDSServers.TurnTalk` | lib/UDSServer.cc:122-182 | the calls actually made in a turn say just that, however the purges among them are ordered |
| `UDSServers.ServedInOrder` | lib/UDSServer.cc:155-158 | descriptors are served in the order of the poll set |
| `UDSServers.PurgesStrike` | lib/TopologyServer.cc:273-277 | the newcomer comes first, and each purge where the timer strikes |
| `UDSServers.LawfulCallsEnabled` | lib/TopologyServer.cc:87-90 | in a lawful conversation each call finds the descriptor known, or unknown, as the hub asserts |
| `UDSServers.OneHangupPerConnection` | lib/UDSServer.cc:175-180 | two hang-ups of one descriptor are separated by its being accepted again |

## Left out

- Sockets, poll flags, eventfd, shared memory and datagram contents: a connection is a reliable FIFO sequence of whole
  messages, `sun_path` truncation is not modelled, and the outcome of a send is an input.
- Protobuf encoding: messages are values; a packet that fails to parse is whatever message the parser leaves.
- Mutexes and threads: each locked section is one atomic step. The second lock in `Unsubscribe`
  (`lib/TopologyManager.cc:211-212`), the unlocked read of the history at `lib/TopologyManager.cc:264` and the possibly
  null client at `lib/TopologyManager.cc:256` are not modelled.
- Random uids and the timers: a uid is an input, the purge may happen at any time and any number of times.
- The width of `uint64_t`: numbers and ids are unbounded, so a wrap of the counter at 2^64 is not modelled.
- The bind race for the hub: one hub at a time is assumed.
- Agreement of spokes whose histories from different hubs conflict: the code does not resolve such conflicts.
- Unset callbacks: all six are taken to be set, as `IPCNode` sets them; with an unset announce callback a changed mime
  type calls it nevertheless (`lib/TopologyManager.cc:113-115`).
- `Announce`, `Retract`, `Subscribe`, `Unsubscribe` of both classes: they build one message and send it.
- The equality of whole messages (`lib/TopologyServer.cc:116-122`), used in an assertion only.
- The `id` fields inside `Node` and `IPCNeighbor`: always the key they are stored under.
- UDSServers.UDSServer.MainLoop: on exit the loop forgets its clients without telling the hub, as the program does, so
  the two client tables agree at every loop head but not after the end.
