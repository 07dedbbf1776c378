/** One hub and any number of spokes, joined by reliable first-in-first-out connections. */
module Network {
  import opened Messages
  import opened Topology
  import opened Pruning
  import opened Hub
  import opened HubRuns
  import opened Streams
  import opened Wiping
  import opened Spokes
  import opened LogReading
  import opened Naming
  import opened IPCNodes

  /** A connected spoke: its node table, its own log, and what is still on the wire to it. */
  datatype Spoke = Spoke(nodes: Nodes, log: seq<Msg>, inbox: seq<Msg>)

  datatype Net = Net(hub: State, spokes: map<Fd, Spoke>)

  /** The hub takes a step on whatever reaches it, or the oldest message on one wire arrives. */
  datatype NetEvent = AtHub(e: Event) | Arrives(fd: Fd)

  function Receive(joins: JoinRule, s: Spoke): Spoke
    requires s.inbox != []
  {
    Spoke(Apply(joins, s.nodes, s.inbox[0]), File(s.log, s.inbox[0]), s.inbox[1..])
  }

  /** What was written to a connection beyond what had been written before. */
  function Written(before: seq<Msg>, after: seq<Msg>): seq<Msg> {
    if |before| <= |after| then after[|before|..] else []
  }

  /** Whatever the hub wrote in its step is on the wire; a newcomer starts with nothing. */
  function Wire(net: Net, hub: State, fd: Fd): Spoke
    requires fd in hub.clients
  {
    if fd in net.spokes && fd in net.hub.clients then
      var s := net.spokes[fd];
      s.(inbox := s.inbox + Written(net.hub.clients[fd].sent, hub.clients[fd].sent))
    else Spoke(map[], [], hub.clients[fd].sent)
  }

  ghost function NetStep(rule: PruneRule, joins: JoinRule, net: Net, e: NetEvent): Net {
    match e
    case AtHub(he) =>
      if Enabled(net.hub, he) then
        var hub := Step(rule, net.hub, he);
        Net(hub, map fd | fd in hub.clients :: Wire(net, hub, fd))
      else net
    case Arrives(fd) =>
      if fd in net.spokes && net.spokes[fd].inbox != []
      then net.(spokes := net.spokes[fd := Receive(joins, net.spokes[fd])])
      else net
  }

  ghost function NetRun(rule: PruneRule, joins: JoinRule, net: Net, es: seq<NetEvent>): Net
    decreases |es|
  {
    if es == [] then net else NetRun(rule, joins, NetStep(rule, joins, net, es[0]), es[1..])
  }

  /** What the spoke has plus what is on its wire is what the hub wrote, in that order. */
  ghost predicate SpokeGood(joins: JoinRule, s: Spoke, sent: seq<Msg>) {
    s.log + s.inbox == sent && s.nodes == Replay(joins, s.log, map[])
  }

  ghost predicate NetGood(rule: PruneRule, joins: JoinRule, net: Net) {
    && Good(rule, net.hub)
    && net.spokes.Keys == net.hub.clients.Keys
    && forall fd :: fd in net.spokes ==> SpokeGood(joins, net.spokes[fd], net.hub.clients[fd].sent)
  }

  lemma ReceiveGood(joins: JoinRule, s: Spoke, sent: seq<Msg>)
    requires SpokeGood(joins, s, sent) && Sorted(sent) && s.inbox != []
    ensures SpokeGood(joins, Receive(joins, s), sent)
  {
    var m := s.inbox[0];
    assert m == sent[|s.log|] && forall i :: 0 <= i < |s.log| ==> s.log[i] == sent[i];
    FileNewest(s.log, m);
    ReplayAppend(joins, s.log, m, map[]);
    assert (s.log + [m]) + s.inbox[1..] == sent;
  }

  lemma WireGood(joins: JoinRule, s: Spoke, before: seq<Msg>, news: seq<Msg>)
    requires SpokeGood(joins, s, before)
    ensures SpokeGood(joins, s.(inbox := s.inbox + Written(before, before + news)), before + news)
  {
    assert Written(before, before + news) == news;
    assert s.log + (s.inbox + news) == (s.log + s.inbox) + news;
  }

  lemma WiredGood(rule: PruneRule, joins: JoinRule, net: Net, hub: State, news: seq<Msg>)
    requires NetGood(rule, joins, net) && Good(rule, hub)
    requires forall fd :: fd in net.hub.clients && fd in hub.clients ==>
               hub.clients[fd].sent == net.hub.clients[fd].sent + news
    ensures NetGood(rule, joins, Net(hub, map fd | fd in hub.clients :: Wire(net, hub, fd)))
  {
    forall fd | fd in hub.clients ensures SpokeGood(joins, Wire(net, hub, fd), hub.clients[fd].sent) {
      if fd in net.hub.clients {
        WireGood(joins, net.spokes[fd], net.hub.clients[fd].sent, news);
      } else {
        assert [] + hub.clients[fd].sent == hub.clients[fd].sent;
      }
    }
  }

  lemma HubStepKeepsSpokes(rule: PruneRule, joins: JoinRule, net: Net, e: Event)
    requires NetGood(rule, joins, net) && Enabled(net.hub, e)
    ensures NetGood(rule, joins, NetStep(rule, joins, net, AtHub(e)))
  {
    StepGood(rule, net.hub, e);
    StepEffect(rule, net.hub, e);
    WiredGood(rule, joins, net, Step(rule, net.hub, e), News(rule, net.hub, Adds(net.hub, e)));
  }

  lemma NetStepGood(rule: PruneRule, joins: JoinRule, net: Net, e: NetEvent)
    requires NetGood(rule, joins, net)
    ensures NetGood(rule, joins, NetStep(rule, joins, net, e))
  {
    match e
    case AtHub(he) =>
      if Enabled(net.hub, he) {
        HubStepKeepsSpokes(rule, joins, net, he);
      }
    case Arrives(fd) =>
      if fd in net.spokes && net.spokes[fd].inbox != [] {
        assert ClientGood(rule, net.hub, net.hub.clients[fd]);
        ReceiveGood(joins, net.spokes[fd], net.hub.clients[fd].sent);
      }
  }

  lemma {:induction false} NetRunGood(rule: PruneRule, joins: JoinRule, net: Net, es: seq<NetEvent>)
    requires NetGood(rule, joins, net)
    ensures NetGood(rule, joins, NetRun(rule, joins, net, es))
    decreases |es|
  {
    if es != [] {
      NetStepGood(rule, joins, net, es[0]);
      NetRunGood(rule, joins, NetStep(rule, joins, net, es[0]), es[1..]);
    }
  }

  ghost function Reached(rule: PruneRule, joins: JoinRule, digest: seq<Msg>, es: seq<NetEvent>): Net {
    NetRun(rule, joins, Net(Open(digest), map[]), es)
  }

  lemma ReachedGood(rule: PruneRule, joins: JoinRule, digest: seq<Msg>, es: seq<NetEvent>)
    requires Seed(rule, digest)
    ensures NetGood(rule, joins, Reached(rule, joins, digest, es))
  {
    OpenGood(rule, digest);
    NetRunGood(rule, joins, Net(Open(digest), map[]), es);
  }

  // ----- The hub does not notice deliveries -----------------------------------------------------------------

  function HubEvents(es: seq<NetEvent>): seq<Event> {
    if es == [] then [] else (if es[0].AtHub? then [es[0].e] else []) + HubEvents(es[1..])
  }

  lemma {:induction false} HubRunsAlone(rule: PruneRule, joins: JoinRule, net: Net, es: seq<NetEvent>)
    ensures NetRun(rule, joins, net, es).hub == Run(rule, net.hub, HubEvents(es))
    decreases |es|
  {
    if es != [] {
      HubRunsAlone(rule, joins, NetStep(rule, joins, net, es[0]), es[1..]);
      var rest := HubEvents(es[1..]);
      if es[0].AtHub? {
        assert ([es[0].e] + rest)[1..] == rest;
      } else {
        assert [] + rest == rest;
      }
    }
  }

  /** A reachable network seen from one spoke: what it has and what is on its wire is what the hub told it. */
  lemma SpokeWasTold(rule: PruneRule, joins: JoinRule, digest: seq<Msg>, es: seq<NetEvent>, fd: Fd)
    requires Seed(rule, digest) && fd in Reached(rule, joins, digest, es).spokes
    ensures var net := Reached(rule, joins, digest, es);
            var s := net.spokes[fd];
            && net.hub == Run(rule, Open(digest), HubEvents(es))
            && fd in net.hub.clients && s.log + s.inbox == net.hub.clients[fd].sent
            && InStep(rule, net.hub.history, s.log + s.inbox)
            && (Compacted(rule, net.hub) || s.log + s.inbox == net.hub.history)
            && Replay(joins, s.inbox, s.nodes) == Listing(joins, s.log + s.inbox)
  {
    var net := Reached(rule, joins, digest, es);
    var s := net.spokes[fd];
    ReachedGood(rule, joins, digest, es);
    HubRunsAlone(rule, joins, Net(Open(digest), map[]), es);
    OpenGood(rule, digest);
    RunUniform(rule, joins, Open(digest), HubEvents(es));
    assert SpokeGood(joins, s, net.hub.clients[fd].sent) && ClientGood(rule, net.hub, net.hub.clients[fd]);
    ReplayConcat(joins, s.log, s.inbox, map[]);
  }

  // ----- Agreement --------------------------------------------------------------------------------------------

  /** End-to-end agreement. In every reachable state, whatever the clients sent and however deliveries interleaved,
      a spoke that takes in what is on its wire has exactly the topology the hub's compacted log means, if and only if
      no topic it was told of and that still stands is one the hub has struck out, or it was told the very log. */
  lemma Agreement(rule: PruneRule, joins: JoinRule, digest: seq<Msg>, es: seq<NetEvent>, fd: Fd)
    requires Seed(rule, digest) && fd in Reached(rule, joins, digest, es).spokes
    ensures var net := Reached(rule, joins, digest, es);
            var s := net.spokes[fd];
            Replay(joins, s.inbox, s.nodes) == Replay(joins, net.hub.history, map[])
            <==> Spares(rule, s.log + s.inbox) || s.log + s.inbox == net.hub.history
  {
    SpokeWasTold(rule, joins, digest, es, fd);
    ToldWhatHubMeans(rule, joins, digest, HubEvents(es), fd);
  }

  /** Which under the intended rule is always, and as written at least until node 1 leaves. */
  lemma AgreementWhenSound(rule: PruneRule, joins: JoinRule, digest: seq<Msg>, es: seq<NetEvent>, fd: Fd)
    requires Seed(rule, digest) && fd in Reached(rule, joins, digest, es).spokes
    requires Sound(rule, Reached(rule, joins, digest, es).hub.history)
    ensures var net := Reached(rule, joins, digest, es);
            var s := net.spokes[fd];
            Replay(joins, s.inbox, s.nodes) == Replay(joins, net.hub.history, map[])
  {
    var net := Reached(rule, joins, digest, es);
    var s := net.spokes[fd];
    SpokeWasTold(rule, joins, digest, es, fd);
    Agreement(rule, joins, digest, es, fd);
    InStepLeft(rule, net.hub.history, s.log + s.inbox);
    SparesWhen(rule, s.log + s.inbox);
  }

  /** Two spokes with nothing on the wire have the same node table, although one may have applied messages the hub had
      struck out before the other connected: if and only if both or neither were told of topics, or no standing topic
      of either has been struck out. */
  lemma DrainedSpokesAgree(rule: PruneRule, joins: JoinRule, digest: seq<Msg>, es: seq<NetEvent>, fd: Fd, fd': Fd)
    requires Seed(rule, digest)
    requires var net := Reached(rule, joins, digest, es);
             fd in net.spokes && fd' in net.spokes && net.spokes[fd].inbox == [] && net.spokes[fd'].inbox == []
    ensures var net := Reached(rule, joins, digest, es);
            var a, b := net.spokes[fd], net.spokes[fd'];
            a.nodes == b.nodes
            <==> (Briefed(a.log) <==> Briefed(b.log)) || (Spares(rule, a.log) && Spares(rule, b.log))
  {
    var net := Reached(rule, joins, digest, es);
    SpokeWasTold(rule, joins, digest, es, fd);
    SpokeWasTold(rule, joins, digest, es, fd');
    ToldAlike(rule, joins, digest, HubEvents(es), fd, fd');
    assert net.spokes[fd].log + [] == net.spokes[fd].log && net.spokes[fd'].log + [] == net.spokes[fd'].log;
  }

  // ----- Handover -----------------------------------------------------------------------------------------------

  /** Hub handover. The log a drained spoke has filed is what it was sent, and a new hub can be opened with it. It
      means the old hub's topology under the condition for agreement, and keeps its meaning in its first compaction if
      that strikes out no standing topic. That compaction leaves exactly the old hub's compacted log, so afterwards the
      new hub always means the old topology, unless the old hub had not compacted and a standing topic is struck out. */
  lemma Handover(rule: PruneRule, joins: JoinRule, digest: seq<Msg>, es: seq<NetEvent>, fd: Fd)
    requires Seed(rule, digest)
    requires var net := Reached(rule, joins, digest, es); fd in net.spokes && net.spokes[fd].inbox == []
    ensures var net := Reached(rule, joins, digest, es);
            var log, topology := net.spokes[fd].log, Replay(joins, net.hub.history, map[]);
            && fd in net.hub.clients && log == net.hub.clients[fd].sent
            && Good(rule, Open(log))
            && (Replay(joins, log, map[]) == topology <==> Spares(rule, log) || log == net.hub.history)
            && (Replay(joins, Prune(rule, log), map[]) == Replay(joins, log, map[]) <==> Spares(rule, log))
            && Prune(rule, log) == Prune(rule, net.hub.history)
            && (Replay(joins, Prune(rule, log), map[]) == topology <==> Compacted(rule, net.hub) || Spares(rule, log))
  {
    var net := Reached(rule, joins, digest, es);
    var log := net.spokes[fd].log;
    assert log + [] == log;
    SpokeWasTold(rule, joins, digest, es, fd);
    Agreement(rule, joins, digest, es, fd);
    OpenGood(rule, log);
    PruneMeansSameIffSpares(rule, joins, log);
  }

  // ----- Routing --------------------------------------------------------------------------------------------------

  lemma SameNames(rule: PruneRule, history: seq<Msg>, stream: seq<Msg>, id: nat)
    requires InStep(rule, history, stream) && id !in Left(history)
    ensures NamesIn(stream, id, None) == NamesIn(history, id, None)
  {
    InStepLeft(rule, history, stream);
    KeepNames(rule, Left(stream), stream, id, None);
    KeepNames(rule, Left(history), history, id, None);
  }

  lemma WipedRoutes(rule: PruneRule, left: set<nat>, table: Table, nodes: Nodes, id: nat, topic: string)
    ensures Routes(table, Wipe(rule, left, nodes), id, topic)
         == if TopicGone(rule, left, id) then id !in Recipients(table, topic) else Routes(table, nodes, id, topic)
  {
  }

  lemma SubscriberHasNames(rule: PruneRule, history: seq<Msg>, stream: seq<Msg>, topic: string, id: nat)
    requires InStep(rule, history, stream) && SaysSubscribed(stream, id, topic)
    ensures NamesIn(history, id, None) == NamesIn(stream, id, None) && NamesIn(stream, id, None).Some?
  {
    NamesAreSaid(stream, id, "", "");
    ReplaySubscribed(TakeLatest, stream, id, topic);
    ReplayJoined(TakeLatest, stream, id);
    InStepLeft(rule, history, stream);
    if id in Left(stream) {
      LeftIsGone(rule, TakeLatest, stream, map[], id);
    }
    SameNames(rule, history, stream, id);
  }

  /** How a node that processed a stream routes, judged by the hub's compacted log. */
  lemma RoutingFollowsStream(
      rule: PruneRule, joins: JoinRule, history: seq<Msg>, stream: seq<Msg>, topic: string, id: nat)
    requires InStep(rule, history, stream) && LeaveFinal(rule, history)
    requires Prune(rule, history) == history || stream == history
    requires SaysSubscribed(stream, id, topic)
    ensures var gone := TopicGone(rule, Left(history), id) && stream != history;
            var names := NamesIn(history, id, None);
            && names.Some?
            && (Routes(TableOf(joins, stream), Replay(TakeLatest, history, map[]), id, topic)
                <==> if gone then Counts(joins, names.value).address == ""
                     else joins == TakeLatest || !Misled(history, id))
  {
    SubscriberHasNames(rule, history, stream, topic, id);
    RoutingCorrect(joins, stream, topic, id);
    if stream != history {
      RoutingByLog(joins, stream, topic, id);
      StreamWiped(rule, TakeLatest, history, stream);
      WipedRoutes(rule, Left(history), TableOf(joins, stream), Listing(TakeLatest, stream), id, topic);
    }
  }

  /** Routing over the whole path. What a drained node would send on a topic goes exactly to the nodes that the hub's
      log has as joined, subscribed and reachable, under the latest addresses they have there, with two exceptions. A
      subscriber whose topics the hub has struck out is still sent to. And, as written, one that was readdressed and
      then given its first name and address back is sent to at the address in between. */
  lemma RoutingFollowsHub(
      rule: PruneRule, joins: JoinRule, digest: seq<Msg>, es: seq<NetEvent>, fd: Fd, topic: string, id: nat)
    requires Seed(rule, digest)
    requires var net := Reached(rule, joins, digest, es); fd in net.spokes && net.spokes[fd].inbox == []
    ensures var net := Reached(rule, joins, digest, es);
            var log, history := net.spokes[fd].log, net.hub.history;
            var gone := TopicGone(rule, Left(history), id) && log != history;
            var names := NamesIn(history, id, None);
            && (SaysSubscribed(log, id, topic) ==> names.Some?)
            && (Routes(TableOf(joins, log), Replay(TakeLatest, history, map[]), id, topic)
                <==> || !SaysSubscribed(log, id, topic)
                     || if gone then Counts(joins, names.value).address == ""
                        else joins == TakeLatest || !Misled(history, id))
  {
    var net := Reached(rule, joins, digest, es);
    var log, history := net.spokes[fd].log, net.hub.history;
    assert log + [] == log;
    ReachedGood(rule, joins, digest, es);
    SpokeWasTold(rule, joins, digest, es, fd);
    if SaysSubscribed(log, id, topic) {
      RoutingFollowsStream(rule, joins, history, log, topic, id);
    } else {
      NoRouteUnlessSubscribed(rule, joins, history, log, topic, id);
    }
  }

  lemma NoRouteUnlessSubscribed(
      rule: PruneRule, joins: JoinRule, history: seq<Msg>, stream: seq<Msg>, topic: string, id: nat)
    requires InStep(rule, history, stream)
    requires Prune(rule, history) == history || stream == history
    requires !SaysSubscribed(stream, id, topic)
    ensures Routes(TableOf(joins, stream), Replay(TakeLatest, history, map[]), id, topic)
  {
    RoutingByLog(joins, stream, topic, id);
    ReplaySubscribed(TakeLatest, stream, id, topic);
    if stream != history {
      StreamWiped(rule, TakeLatest, history, stream);
    }
  }

  // ----- Deliveries ------------------------------------------------------------------------------------------------

  /** An arrival takes the oldest message off one wire: the node table is updated with it and the spoke's log gains it,
      in order. Nothing else happens; and nothing at all on an empty wire. */
  lemma ArrivalTakesOldest(rule: PruneRule, joins: JoinRule, net: Net, fd: Fd)
    ensures var net' := NetStep(rule, joins, net, Arrives(fd));
            && net'.hub == net.hub && net'.spokes.Keys == net.spokes.Keys
            && (forall f :: f in net.spokes && f != fd ==> net'.spokes[f] == net.spokes[f])
            && (fd in net.spokes && net.spokes[fd].inbox == [] ==> net'.spokes[fd] == net.spokes[fd])
            && (fd in net.spokes && net.spokes[fd].inbox != [] ==>
                  var s, s', m := net.spokes[fd], net'.spokes[fd], net.spokes[fd].inbox[0];
                  && s.inbox == [m] + s'.inbox
                  && s'.nodes == Apply(joins, s.nodes, m)
                  && multiset(s'.log) == multiset(s.log) + multiset{m}
                  && (WeaklySorted(s.log) ==> WeaklySorted(s'.log)))
  {
    if fd in net.spokes && net.spokes[fd].inbox != [] {
      FileKeepsAll(net.spokes[fd].log, net.spokes[fd].inbox[0]);
      if WeaklySorted(net.spokes[fd].log) {
        FileKeepsOrder(net.spokes[fd].log, net.spokes[fd].inbox[0]);
      }
    }
  }

  /** A step of the hub puts on each wire exactly what the hub has written to that connection in it. Who stays has
      received nothing yet, who is new starts with nothing, and who is gone is gone. */
  lemma HubStepWrites(rule: PruneRule, joins: JoinRule, net: Net, e: Event, fd: Fd)
    requires NetGood(rule, joins, net)
    ensures var net' := NetStep(rule, joins, net, AtHub(e));
            && net'.hub == Next(rule, net.hub, e)
            && (fd in net'.spokes <==> fd in net'.hub.clients)
            && (fd in net'.spokes && fd in net.spokes ==>
                  && net'.spokes[fd].nodes == net.spokes[fd].nodes && net'.spokes[fd].log == net.spokes[fd].log
                  && net'.spokes[fd].log + net'.spokes[fd].inbox == net'.hub.clients[fd].sent)
            && (fd in net'.spokes && fd !in net.spokes ==>
                  net'.spokes[fd] == Spoke(map[], [], net'.hub.clients[fd].sent))
  {
    var net' := NetStep(rule, joins, net, AtHub(e));
    NetStepGood(rule, joins, net, AtHub(e));
    if fd in net'.spokes {
      assert SpokeGood(joins, net'.spokes[fd], net'.hub.clients[fd].sent);
    }
  }

  function Arrivals(fd: Fd, n: nat): seq<NetEvent> {
    if n == 0 then [] else [Arrives(fd)] + Arrivals(fd, n - 1)
  }

  lemma {:induction false} ArrivalsDrain(rule: PruneRule, joins: JoinRule, net: Net, fd: Fd)
    requires fd in net.spokes
    ensures var net' := NetRun(rule, joins, net, Arrivals(fd, |net.spokes[fd].inbox|));
            && net'.hub == net.hub && net'.spokes.Keys == net.spokes.Keys
            && (forall f :: f in net.spokes && f != fd ==> net'.spokes[f] == net.spokes[f])
            && net'.spokes[fd].inbox == []
    decreases |net.spokes[fd].inbox|
  {
    var n := |net.spokes[fd].inbox|;
    if n > 0 {
      assert Arrivals(fd, n)[1..] == Arrivals(fd, n - 1);
      ArrivalTakesOldest(rule, joins, net, fd);
      ArrivalsDrain(rule, joins, NetStep(rule, joins, net, Arrives(fd)), fd);
    }
  }

  /** From any reachable state, as many arrivals as the wire holds deliver everything: the spoke's log is what the hub
      has written to it, its table is what that means, and hub and other spokes are as they were. */
  lemma WireDrains(rule: PruneRule, joins: JoinRule, digest: seq<Msg>, es: seq<NetEvent>, fd: Fd)
    requires Seed(rule, digest) && fd in Reached(rule, joins, digest, es).spokes
    ensures var net := Reached(rule, joins, digest, es);
            var net' := NetRun(rule, joins, net, Arrivals(fd, |net.spokes[fd].inbox|));
            && net'.hub == net.hub && net'.spokes.Keys == net.spokes.Keys
            && (forall f :: f in net.spokes && f != fd ==> net'.spokes[f] == net.spokes[f])
            && fd in net.hub.clients
            && net'.spokes[fd].inbox == [] && net'.spokes[fd].log == net.hub.clients[fd].sent
            && net'.spokes[fd].nodes == Replay(joins, net.hub.clients[fd].sent, map[])
  {
    var net := Reached(rule, joins, digest, es);
    var arrivals := Arrivals(fd, |net.spokes[fd].inbox|);
    ReachedGood(rule, joins, digest, es);
    NetRunGood(rule, joins, net, arrivals);
    ArrivalsDrain(rule, joins, net, fd);
    var s := NetRun(rule, joins, net, arrivals).spokes[fd];
    assert SpokeGood(joins, s, net.hub.clients[fd].sent) && s.log + [] == s.log;
  }
}
