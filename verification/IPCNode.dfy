/** The routing table of a node: a second copy of the topology, built from callbacks alone, from which
    publishing selects its recipients. */
module IPCNodes {
  import opened Messages
  import opened Topology
  import opened Spokes
  import opened LogReading
  import opened Naming

  datatype Neighbor = Neighbor(name: string, path: string, subscriptions: set<string>)

  type Table = map<nat, Neighbor>

  /** How the table answers one callback. A subscription of an unknown node creates an unreachable entry. */
  function React(table: Table, cb: Callback): Table {
    match cb
    case OnJoin(id, name, address) =>
      table[id := if id in table then table[id].(name := name, path := address) else Neighbor(name, address, {})]
    case OnLeave(id) => table - {id}
    case OnAnnounce(_, _, _) => table
    case OnRetract(_, _) => table
    case OnSubscribe(id, topic) =>
      var entry := if id in table then table[id] else Neighbor("", "", {});
      table[id := entry.(subscriptions := entry.subscriptions + {topic})]
    case OnUnsubscribe(id, topic) =>
      if id in table then table[id := table[id].(subscriptions := table[id].subscriptions - {topic})] else table
  }

  function ReactAll(table: Table, trace: seq<Callback>): Table
    decreases |trace|
  {
    if trace == [] then table else ReactAll(React(table, trace[0]), trace[1..])
  }

  /** The nodes a message on `topic` goes to. */
  function Recipients(table: Table, topic: string): set<nat> {
    set id | id in table && topic in table[id].subscriptions && table[id].path != ""
  }

  // ----- The table refines the topology ------------------------------------------------------------------

  /** Same nodes, same subscriptions. */
  ghost predicate Matches(nodes: Nodes, table: Table) {
    && table.Keys == nodes.Keys
    && forall id :: id in nodes ==> table[id].subscriptions == nodes[id].subscriptions
  }

  predicate SameAddress(nodes: Nodes, table: Table, id: nat)
    requires id in nodes && id in table
  {
    table[id].name == nodes[id].name && table[id].path == nodes[id].address
  }

  /** A JOIN for a joined node under another name or address: the case in which the program, as written,
      tells the routing table but not its own node table. */
  predicate Renames(nodes: Nodes, m: Msg, id: nat) {
    && IsJoin(m) && m.body.id == id && id in nodes
    && (nodes[id].name != m.body.name || nodes[id].address != m.body.address)
  }

  /** The node has been renamed since it last joined. */
  predicate Renamed(rule: JoinRule, log: seq<Msg>, nodes: Nodes, id: nat, before: bool) {
    if log == [] then before
    else
      Renamed(rule, log[1..], Apply(rule, nodes, log[0]), id,
              id in Apply(rule, nodes, log[0]) && (before || Renames(nodes, log[0], id)))
  }

  lemma {:induction false} ReactConcat(table: Table, a: seq<Callback>, b: seq<Callback>)
    ensures ReactAll(table, a + b) == ReactAll(ReactAll(table, a), b)
    decreases |a|
  {
    if a == [] {
      assert a + b == b;
    } else {
      assert (a + b)[1..] == a[1..] + b;
      ReactConcat(React(table, a[0]), a[1..], b);
    }
  }

  lemma ReactOne(rule: JoinRule, nodes: Nodes, table: Table, m: Msg)
    requires Matches(nodes, table)
    ensures Matches(Apply(rule, nodes, m), ReactAll(table, Fire(nodes, m)))
  {
    var news := Fire(nodes, m);
    assert ReactAll(table, news) == if news == [] then table else React(table, news[0]);
  }

  /** One update keeps the addresses alike, except a rename under the rule as written, which parts them. */
  lemma ReactOneAddress(rule: JoinRule, nodes: Nodes, table: Table, m: Msg, id: nat)
    requires Matches(nodes, table)
    requires id in Apply(rule, nodes, m) && id in ReactAll(table, Fire(nodes, m))
    ensures id in nodes ==> SameAddress(nodes, table, id) && (rule == TakeLatest || !Renames(nodes, m, id)) ==>
              SameAddress(Apply(rule, nodes, m), ReactAll(table, Fire(nodes, m)), id)
    ensures id !in nodes ==> SameAddress(Apply(rule, nodes, m), ReactAll(table, Fire(nodes, m)), id)
    ensures id in nodes && rule == KeepFirst && (Renames(nodes, m, id) || !SameAddress(nodes, table, id)) ==>
              !SameAddress(Apply(rule, nodes, m), ReactAll(table, Fire(nodes, m)), id)
  {
    var news := Fire(nodes, m);
    assert ReactAll(table, news) == if news == [] then table else React(table, news[0]);
  }

  /** Fed with the callbacks of any sequence of updates, the table has exactly the replayed nodes with exactly
      their subscriptions. */
  lemma {:induction false} TableMatches(rule: JoinRule, log: seq<Msg>, nodes: Nodes, table: Table)
    requires Matches(nodes, table)
    ensures Matches(Replay(rule, log, nodes), ReactAll(table, FireAll(rule, log, nodes)))
    decreases |log|
  {
    if log != [] {
      var news, nodes' := Fire(nodes, log[0]), Apply(rule, nodes, log[0]);
      ReactOne(rule, nodes, table, log[0]);
      ReactConcat(table, news, FireAll(rule, log[1..], nodes'));
      TableMatches(rule, log[1..], nodes', ReactAll(table, news));
    }
  }

  /** Names and addresses agree too if a repeated JOIN is stored; as written, for exactly those nodes that
      have not been renamed since they joined. */
  lemma {:induction false} AddressesMatch(
      rule: JoinRule, log: seq<Msg>, nodes: Nodes, table: Table, id: nat, renamed: bool)
    requires Matches(nodes, table)
    requires id in nodes ==> (SameAddress(nodes, table, id) <==> rule == TakeLatest || !renamed)
    requires id !in nodes ==> !renamed
    ensures Matches(Replay(rule, log, nodes), ReactAll(table, FireAll(rule, log, nodes)))
    ensures id in Replay(rule, log, nodes) ==>
              (SameAddress(Replay(rule, log, nodes), ReactAll(table, FireAll(rule, log, nodes)), id)
               <==> rule == TakeLatest || !Renamed(rule, log, nodes, id, renamed))
    decreases |log|
  {
    if log != [] {
      var news, nodes' := Fire(nodes, log[0]), Apply(rule, nodes, log[0]);
      var table' := ReactAll(table, news);
      ReactOne(rule, nodes, table, log[0]);
      if id in nodes' {
        ReactOneAddress(rule, nodes, table, log[0], id);
      }
      ReactConcat(table, news, FireAll(rule, log[1..], nodes'));
      AddressesMatch(rule, log[1..], nodes', table', id, id in nodes' && (renamed || Renames(nodes, log[0], id)));
    }
  }

  /** What a node's table is after its spoke has processed `log` from the start. */
  function TableOf(rule: JoinRule, log: seq<Msg>): Table {
    ReactAll(map[], FireAll(rule, log, map[]))
  }

  // ----- Names: the node table has the first, the routing table the one last told, the log the latest -----------

  predicate TracksNames(names: Option<Names>, first: Nodes, latest: Nodes, table: Table, id: nat) {
    match names
    case None => id !in first && id !in latest && id !in table
    case Some(n) =>
      && id in first && n.first == Label(first[id].name, first[id].address)
      && id in latest && n.latest == Label(latest[id].name, latest[id].address)
      && id in table && n.told == Label(table[id].name, table[id].path)
  }

  lemma HearTracks(names: Option<Names>, first: Nodes, latest: Nodes, table: Table, m: Msg, id: nat)
    requires TracksNames(names, first, latest, table, id) && Matches(first, table)
    ensures TracksNames(Hear(names, m, id), Apply(KeepFirst, first, m), Apply(TakeLatest, latest, m),
                        ReactAll(table, Fire(first, m)), id)
  {
    var news := Fire(first, m);
    assert ReactAll(table, news) == if news == [] then table else React(table, news[0]);
  }

  /** Running the program as written, a node table keeps the first name and address and the routing table what it
      was last told, while storing repeated JOINs would keep the latest. */
  lemma {:induction false} ReplayTracksNames(
      log: seq<Msg>, names: Option<Names>, first: Nodes, latest: Nodes, table: Table, id: nat)
    requires TracksNames(names, first, latest, table, id) && Matches(first, table)
    ensures TracksNames(NamesIn(log, id, names), Replay(KeepFirst, log, first), Replay(TakeLatest, log, latest),
                        ReactAll(table, FireAll(KeepFirst, log, first)), id)
    decreases |log|
  {
    if log != [] {
      var m, news := log[0], Fire(first, log[0]);
      ReactOne(KeepFirst, first, table, m);
      HearTracks(names, first, latest, table, m, id);
      ReactConcat(table, news, FireAll(KeepFirst, log[1..], Apply(KeepFirst, first, m)));
      ReplayTracksNames(log[1..], Hear(names, m, id), Apply(KeepFirst, first, m), Apply(TakeLatest, latest, m),
                        ReactAll(table, news), id);
    }
  }

  /** As written, the routing table has the name and address of the node's latest JOIN, unless the node was renamed
      and then given its first name and address back. */
  lemma LatestAddresses(log: seq<Msg>, id: nat)
    requires id in Replay(TakeLatest, log, map[])
    ensures id in TableOf(KeepFirst, log)
    ensures SameAddress(Replay(TakeLatest, log, map[]), TableOf(KeepFirst, log), id) <==> !Reverted(log, id)
  {
    ReplayTracksNames(log, None, map[], map[], map[], id);
    FirstOrTold(log, id, None);
  }

  // ----- Routing ---------------------------------------------------------------------------------------------------

  /** On this topic the table sends to `id` exactly if `nodes` has it subscribed and reachable, at its address there. */
  predicate Routes(table: Table, nodes: Nodes, id: nat, topic: string) {
    && (id in Recipients(table, topic) <==> SubscribedTo(nodes, id, topic) && nodes[id].address != "")
    && (id in Recipients(table, topic) ==> id in nodes && table[id].path == nodes[id].address)
  }

  lemma SameSubscriptions(rule: JoinRule, log: seq<Msg>, id: nat, topic: string)
    ensures SubscribedTo(Replay(rule, log, map[]), id, topic)
       <==> id in TableOf(KeepFirst, log) && topic in TableOf(KeepFirst, log)[id].subscriptions
  {
    TableMatches(KeepFirst, log, map[], map[]);
    ReplaySubscribed(rule, log, id, topic);
    ReplaySubscribed(KeepFirst, log, id, topic);
  }

  /** Publishing after any updates, judged by the latest name and address the log gives each node. If repeated JOINs
      are stored it is always right. As written it goes wrong for exactly those subscribers that were readdressed and
      then given their first name and address back. */
  lemma RoutingCorrect(rule: JoinRule, log: seq<Msg>, topic: string, id: nat)
    ensures Routes(TableOf(rule, log), Replay(TakeLatest, log, map[]), id, topic)
       <==> rule == TakeLatest || !(SaysSubscribed(log, id, topic) && Misled(log, id))
  {
    var nodes := Replay(TakeLatest, log, map[]);
    ReplaySubscribed(TakeLatest, log, id, topic);
    if rule == TakeLatest {
      AddressesMatch(TakeLatest, log, map[], map[], id, false);
    } else {
      SameSubscriptions(TakeLatest, log, id, topic);
      ReplayTracksNames(log, None, map[], map[], map[], id);
      FirstOrTold(log, id, None);
    }
  }

  /** The same, read off the log: the node's last word on the topic is a subscription, and the address that counts is
      not empty. */
  lemma RoutingByLog(rule: JoinRule, log: seq<Msg>, topic: string, id: nat)
    ensures var names, table := NamesIn(log, id, None), TableOf(rule, log);
            && (id in Recipients(table, topic) <==>
                 SaysSubscribed(log, id, topic) && names.Some? && Counts(rule, names.value).address != "")
            && (id in Recipients(table, topic) ==> table[id].path == Counts(rule, names.value).address)
  {
    ReplayTracksNames(log, None, map[], map[], map[], id);
    if rule == TakeLatest {
      RoutingCorrect(rule, log, topic, id);
    } else {
      SameSubscriptions(KeepFirst, log, id, topic);
    }
    ReplaySubscribed(TakeLatest, log, id, topic);
    ReplaySubscribed(KeepFirst, log, id, topic);
  }

  /** The names kept are those the log says: the first JOIN since the last LEAVE, and the latest. */
  lemma NamesAreSaid(log: seq<Msg>, id: nat, name: string, address: string)
    ensures var names := NamesIn(log, id, None);
            && (names.Some? <==> SaysJoined(log, id))
            && (names.Some? && names.value.first == Label(name, address)
                <==> SaysReachable(KeepFirst, log, id, name, address))
            && (names.Some? && names.value.latest == Label(name, address)
                <==> SaysReachable(TakeLatest, log, id, name, address))
  {
    ReplayTracksNames(log, None, map[], map[], map[], id);
    ReplayJoined(KeepFirst, log, id);
    ReplayReachable(KeepFirst, log, id, name, address);
    ReplayReachable(TakeLatest, log, id, name, address);
  }

  /** As written, the tables of one process part when a node rejoins under a new address: the routing table, and so
      every datagram, follows, but the node table still shows the old address. */
  lemma RenameParts()
    ensures var log := [Msg(1, 1, NodeChange(7, Join, "n", "old")), Msg(2, 2, NodeChange(7, Join, "n", "new"))];
            && Renamed(KeepFirst, log, map[], 7, false)
            && 7 in Replay(KeepFirst, log, map[]) && 7 in TableOf(KeepFirst, log)
            && Replay(KeepFirst, log, map[])[7].address == "old" && TableOf(KeepFirst, log)[7].path == "new"
  {
    var first, second := Msg(1, 1, NodeChange(7, Join, "n", "old")), Msg(2, 2, NodeChange(7, Join, "n", "new"));
    var log := [first, second];
    var one: Nodes := map[7 := Newcomer("n", "old")];
    assert log[1..] == [second] && [second][1..] == [];
    assert Apply(KeepFirst, map[], first) == one && Apply(KeepFirst, one, second) == one;
    assert Replay(KeepFirst, [second], one) == one;
    assert "old" != "new" by {
      assert "old"[0] != "new"[0];
    }
    assert FireAll(KeepFirst, [second], one) == [OnJoin(7, "n", "new")] + [];
    var trace := [OnJoin(7, "n", "old")] + ([OnJoin(7, "n", "new")] + []);
    assert FireAll(KeepFirst, log, map[]) == trace;
    assert trace[1..] == [OnJoin(7, "n", "new")] && trace[1..][1..] == [];
    var table := React(map[], trace[0]);
    assert ReactAll(table, trace[1..]) == ReactAll(React(table, trace[1]), []);
    assert ReactAll(map[], trace) == React(table, trace[1]);
    assert Renamed(KeepFirst, [second], one, 7, false);
  }

  /** And routing itself goes wrong once the node is given its old address back: nobody tells the routing table, and
      datagrams go on to the address in between. */
  lemma RevertMisroutes(original: Msg, between: Msg, back: Msg, sub: Msg)
    requires original.body == back.body == NodeChange(7, Join, "n", "old")
    requires between.body == NodeChange(7, Join, "n", "new")
    requires sub.body == TopicChange("t", "", 7, Subscribe, "")
    ensures var log := [original, between, back, sub];
            && Misled(log, 7) && !Routes(TableOf(KeepFirst, log), Replay(TakeLatest, log, map[]), 7, "t")
            && 7 in TableOf(KeepFirst, log) && TableOf(KeepFirst, log)[7].path == "new"
            && 7 in Replay(TakeLatest, log, map[]) && Replay(TakeLatest, log, map[])[7].address == "old"
  {
    var log := [original, between, back, sub];
    var first, second := Label("n", "old"), Label("n", "new");
    assert "old" != "new" by {
      assert "old"[0] != "new"[0];
    }
    assert log[1..] == [between, back, sub] && [between, back, sub][1..] == [back, sub];
    assert [back, sub][1..] == [sub] && [sub][1..] == [];
    var reverted := Some(Names(first, second, first));
    assert NamesIn([sub], 7, reverted) == reverted;
    assert Hear(Some(Names(first, second, second)), back, 7) == reverted;
    assert NamesIn([back, sub], 7, Some(Names(first, second, second))) == reverted;
    assert NamesIn(log, 7, None) == reverted;
    ReplayTracksNames(log, None, map[], map[], map[], 7);
    assert SaysSubscribed(log, 7, "t") by {
      assert SaysJoined(log[..3], 7) by {
        assert IsJoin(log[..3][0]);
      }
      assert Asks(log[3], 7, Subscribe, "t");
    }
    RoutingCorrect(KeepFirst, log, "t", 7);
  }

  /** Should it happen all the same, a subscription of an unknown node leaves it unreachable, and an unsubscription of
      one changes nothing. */
  lemma StrangersStayUnreachable(table: Table, id: nat, topic: string, other: string)
    requires id !in table
    ensures id !in Recipients(React(table, OnSubscribe(id, topic)), other)
    ensures React(table, OnUnsubscribe(id, topic)) == table
  {
  }

  /** The table is never told of a topic of a node it does not list: the branch for a subscriber that has not
      joined is never taken. */
  lemma SubscribersAreKnown(rule: JoinRule, log: seq<Msg>, j: nat)
    requires j < |FireAll(rule, log, map[])|
    requires FireAll(rule, log, map[])[j].OnSubscribe?
    ensures var trace := FireAll(rule, log, map[]); trace[j].id in ReactAll(map[], trace[..j])
  {
    var trace := FireAll(rule, log, map[]);
    CallbacksFollowProtocol(rule, log);
    assert Permitted(trace[..j], trace[j]);
    JoinedIsListed(trace[..j], trace[j].id);
  }

  lemma {:induction false} JoinedIsListed(trace: seq<Callback>, id: nat)
    requires JoinedIn(trace, id)
    ensures id in ReactAll(map[], trace)
  {
    var n := |trace| - 1;
    assert trace == trace[..n] + [trace[n]];
    ReactConcat(map[], trace[..n], [trace[n]]);
    assert ReactAll(ReactAll(map[], trace[..n]), [trace[n]]) == React(ReactAll(map[], trace[..n]), trace[n]);
    if !(trace[n].OnJoin? && trace[n].id == id) {
      JoinedIsListed(trace[..n], id);
    }
  }

  // ----- The object ------------------------------------------------------------------------------------------

  datatype Datagram = Datagram(id: nat, path: string)

  class IPCNode {
    var nodeById: Table

    constructor ()
      ensures nodeById == map[]
    {
      nodeById := map[];
    }

    method HandleJoin(id: nat, name: string, address: string)
      modifies this
      ensures nodeById == React(old(nodeById), OnJoin(id, name, address))
    {
      if id !in nodeById {
        nodeById := nodeById[id := Neighbor("", "", {})];
      }
      nodeById := nodeById[id := nodeById[id].(name := name, path := address)];
    }

    method HandleLeave(id: nat)
      modifies this
      ensures nodeById == React(old(nodeById), OnLeave(id))
    {
      nodeById := nodeById - {id};
    }

    method HandleSubscribe(id: nat, topic: string)
      modifies this
      ensures nodeById == React(old(nodeById), OnSubscribe(id, topic))
    {
      if id !in nodeById {
        nodeById := nodeById[id := Neighbor("", "", {})];
      }
      nodeById := nodeById[id := nodeById[id].(subscriptions := nodeById[id].subscriptions + {topic})];
    }

    method HandleUnsubscribe(id: nat, topic: string)
      modifies this
      ensures nodeById == React(old(nodeById), OnUnsubscribe(id, topic))
    {
      if id !in nodeById {
        return;
      }
      nodeById := nodeById[id := nodeById[id].(subscriptions := nodeById[id].subscriptions - {topic})];
    }

    /** One datagram per recipient, to its path, and none to anybody else. */
    method Publish(topic: string) returns (out: seq<Datagram>)
      ensures forall i, j :: 0 <= i < j < |out| ==> out[i].id != out[j].id
      ensures (set d | d in out :: d.id) == Recipients(nodeById, topic)
      ensures forall d :: d in out ==> d.id in nodeById && d.path == nodeById[d.id].path
    {
      out := [];
      var todo := nodeById.Keys;
      while todo != {}
        invariant todo <= nodeById.Keys
        invariant forall i, j :: 0 <= i < j < |out| ==> out[i].id != out[j].id
        invariant forall d :: d in out ==> d.id in nodeById && d.id !in todo && d.path == nodeById[d.id].path
        invariant (set d | d in out :: d.id) == Recipients(nodeById, topic) - todo
        decreases todo
      {
        var id := Pick(todo);
        todo := todo - {id};
        var node := nodeById[id];
        if topic !in node.subscriptions {
          continue;
        }
        if node.path == "" {
          continue;
        }
        ghost var before := out;
        out := out + [Datagram(id, node.path)];
        assert (set d | d in out :: d.id) == (set d | d in before :: d.id) + {id};
      }
    }
  }
}
