/** The spoke as the program has it: an object that replays updates in place and keeps a backlog. Every
    method is proved against modules `Topology`, `Spokes` and `Outboxes`. */
module TopologyManagers {
  import opened Messages
  import opened Topology
  import opened Spokes
  import opened Outboxes
  import Pruning
  import Hub
  import Repeats
  import TopologyServers

  class TopologyManager {
    const rule: JoinRule
    const nodeId: nat
    const name: string
    const address: string
    var history: seq<Msg>
    var nodes: Nodes
    // Whether there is a client, the messages waiting for one, and those the main loop is resending.
    var connected: bool
    var backlog: seq<Msg>
    var draining: seq<Msg>
    // What clients accepted and what callbacks were called with, in order.
    var delivered: seq<Msg>
    var fired: seq<Callback>

    ghost function Outgoing(): Outbox
      reads this
    {
      Outbox(connected, backlog, draining, delivered)
    }

    constructor (rule: JoinRule, nodeId: nat, name: string, address: string)
      ensures this.rule == rule && this.nodeId == nodeId && this.name == name && this.address == address
      ensures history == [] && nodes == map[] && fired == []
      ensures Outgoing() == Outbox(false, [], [], [])
    {
      this.rule, this.nodeId, this.name, this.address := rule, nodeId, name, address;
      history, nodes, fired := [], map[], [];
      connected, backlog, draining, delivered := false, [], [], [];
    }

    method ApplyUpdate(m: Msg)
      requires WeaklySorted(history)
      modifies this`history, this`nodes, this`fired
      ensures history == File(old(history), m) && WeaklySorted(history)
      ensures nodes == Apply(rule, old(nodes), m)
      ensures fired == old(fired) + Fire(old(nodes), m)
    {
      FileKeepsOrder(history, m);
      var at := LowerBound(history, m.serial);
      FileAt(history, m, at);
      history := history[..at] + [m] + history[at..];
      if m.body.NodeChange? {
        ApplyNodeChange(m);
      } else if m.body.TopicChange? {
        ApplyTopicChange(m);
      } else {
        assert fired + [] == fired;
      }
    }

    method ApplyNodeChange(m: Msg)
      requires m.body.NodeChange?
      modifies this`nodes, this`fired
      ensures nodes == Apply(rule, old(nodes), m)
      ensures fired == old(fired) + Fire(old(nodes), m)
    {
      var change := m.body;
      if change.op == Join {
        if change.id !in nodes {
          nodes := nodes[change.id := Newcomer(change.name, change.address)];
          fired := fired + [OnJoin(change.id, change.name, change.address)];
        } else if nodes[change.id].name != change.name || nodes[change.id].address != change.address {
          // The program says "so update" here but only `TakeLatest` does.
          nodes := nodes[change.id := Rejoin(rule, nodes[change.id], change.name, change.address)];
          fired := fired + [OnJoin(change.id, change.name, change.address)];
        } else {
          assert nodes[change.id := nodes[change.id]] == nodes;
        }
      } else if change.op == Leave {
        if change.id in nodes {
          nodes := nodes - {change.id};
          fired := fired + [OnLeave(change.id)];
        }
      }
    }

    method ApplyTopicChange(m: Msg)
      requires m.body.TopicChange?
      modifies this`nodes, this`fired
      ensures nodes == Apply(rule, old(nodes), m)
      ensures fired == old(fired) + Fire(old(nodes), m)
    {
      var change := m.body;
      if change.nodeId !in nodes {
        // a topic of a node that has not joined is dropped
        return;
      }
      var id, topic, node := change.nodeId, change.topic, nodes[change.nodeId];
      assert nodes[id := node] == nodes;
      match change.verb {
      case Announce =>
        if topic !in node.publications {
          node := node.(publications := node.publications[topic := change.mime]);
          fired := fired + [OnAnnounce(id, topic, change.mime)];
        } else if change.mime != node.publications[topic] {
          node := node.(publications := node.publications[topic := change.mime]);
          fired := fired + [OnAnnounce(id, topic, change.mime)];
        } else {
          assert node.publications[topic := change.mime] == node.publications;
        }
      case Subscribe =>
        if topic !in node.subscriptions {
          fired := fired + [OnSubscribe(id, topic)];
        }
        node := node.(subscriptions := node.subscriptions + {topic});
      case Unsubscribe =>
        if topic in node.subscriptions {
          fired := fired + [OnUnsubscribe(id, topic)];
        }
        node := node.(subscriptions := node.subscriptions - {topic});
      case Retract =>
        if topic in node.publications {
          fired := fired + [OnRetract(id, topic)];
        }
        node := node.(publications := node.publications - {topic});
      case OtherTopicOp(_) =>
      }
      nodes := nodes[id := node];
    }

    /** `ok` is what the client reports for this message. */
    method SendMessage(m: Msg, ok: bool)
      modifies this`connected, this`backlog, this`delivered
      ensures Outgoing() == Send(old(Outgoing()), m, ok)
    {
      if !connected {
        backlog := backlog + [m];
        return;
      }
      if !ok {
        connected := false;
        backlog := backlog + [m];
        return;
      }
      delivered := delivered + [m];
    }

    /** A client is there: take the backlog over and resend it, with nobody else sending. What was delivered
        and what went back to the backlog, in this order, is what there was. */
    method ResendBacklog(oks: seq<bool>)
      requires draining == [] && |oks| == |backlog|
      modifies this`connected, this`backlog, this`draining, this`delivered
      ensures Outgoing() == ActAll(old(Outgoing()), [TakeBacklog] + Drain(oks))
      ensures delivered + backlog == old(delivered + backlog) && old(delivered) <= delivered && draining == []
    {
      ghost var before := Outgoing();
      TakeoverKeepsOrder(before, oks);
      connected, draining, backlog := true, backlog, [];
      assert ([TakeBacklog] + Drain(oks))[1..] == Drain(oks);
      assert Drain(oks[0..]) == Drain(oks);
      for i := 0 to |oks|
        invariant |draining| == |oks| - i
        invariant ActAll(Outgoing(), Drain(oks[i..])) == ActAll(before, [TakeBacklog] + Drain(oks))
      {
        var m := draining[0];
        assert Drain(oks[i..])[0] == DrainOne(oks[i]) && Drain(oks[i..])[1..] == Drain(oks[i + 1..]);
        draining := draining[1..];
        SendMessage(m, oks[i]);
      }
    }

    /** Everything a new connection is sent: the whole history, then the spoke's own entry afresh. */
    method IntroduceOurselves() returns (out: seq<Msg>, ghost pubs: seq<string>, ghost subs: seq<string>)
      ensures nodeId in nodes ==> Enumerates(pubs, nodes[nodeId].publications.Keys)
      ensures nodeId in nodes ==> Enumerates(subs, nodes[nodeId].subscriptions)
      ensures out == history + Introduction(nodeId, name, address, Lookup(nodes, nodeId), pubs, subs)
    {
      pubs, subs := [], [];
      out := history + [SelfJoin(nodeId, name, address)];
      if nodeId in nodes {
        var own := nodes[nodeId];
        var announced, mime, subscribed;
        announced, mime, pubs := AnnounceAll(own.publications);
        subscribed, subs := SubscribeAll(own.subscriptions, mime);
        out := out + announced + subscribed;
      }
    }

    method AnnounceAll(publications: map<string, string>)
      returns (out: seq<Msg>, mime: string, ghost order: seq<string>)
      ensures Enumerates(order, publications.Keys)
      ensures out == Announcements(nodeId, publications, order) && mime == LeftoverMime(publications, order)
    {
      out, mime, order := [], "", [];
      var todo := publications.Keys;
      while todo != {}
        invariant todo <= publications.Keys && Enumerates(order, publications.Keys - todo)
        invariant out == Announcements(nodeId, publications, order) && mime == LeftoverMime(publications, order)
        decreases todo
      {
        var topic := Pick(todo);
        ghost var longer := order + [topic];
        assert longer[..|longer| - 1] == order;
        mime := publications[topic];
        out := out + [SelfAnnounce(nodeId, topic, mime)];
        order := longer;
        todo := todo - {topic};
      }
    }

    method SubscribeAll(topics: set<string>, mime: string) returns (out: seq<Msg>, ghost order: seq<string>)
      ensures Enumerates(order, topics) && out == Subscriptions(nodeId, mime, order)
    {
      out, order := [], [];
      var todo := topics;
      while todo != {}
        invariant todo <= topics && Enumerates(order, topics - todo)
        invariant out == Subscriptions(nodeId, mime, order)
        decreases todo
      {
        var topic := Pick(todo);
        ghost var longer := order + [topic];
        assert longer[..|longer| - 1] == order;
        out := out + [SelfSubscribe(nodeId, topic, mime)];
        order := longer;
        todo := todo - {topic};
      }
    }

    /** No hub was found: open one, seeded with this spoke's history. */
    method SeedHub(pruneRule: Pruning.PruneRule) returns (hub: TopologyServers.TopologyServer)
      ensures fresh(hub) && hub.rule == pruneRule && hub.View() == Hub.Open(history)
      ensures Repeats.Digest(pruneRule, history) ==> hub.Valid()
    {
      hub := new TopologyServers.TopologyServer(pruneRule, history);
    }
  }
}
