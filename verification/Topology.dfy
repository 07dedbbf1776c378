/** What a log of messages means: the table of nodes a spoke builds by replaying it. */
module Topology {
  import opened Messages

  /** What a JOIN does to a node that has already joined. `KeepFirst` is the code as written, which
      stores nothing; `TakeLatest` stores the new name and address, as the comment there says. */
  datatype JoinRule = KeepFirst | TakeLatest

  datatype NodeInfo = NodeInfo(
    name: string, address: string, publications: map<string, string>, subscriptions: set<string>)

  type Nodes = map<nat, NodeInfo>

  datatype Option<+T> = None | Some(value: T)

  function Lookup(nodes: Nodes, id: nat): Option<NodeInfo> {
    if id in nodes then Some(nodes[id]) else None
  }

  function Newcomer(name: string, address: string): NodeInfo {
    NodeInfo(name, address, map[], {})
  }

  function Rejoin(rule: JoinRule, info: NodeInfo, name: string, address: string): NodeInfo {
    if rule == TakeLatest then info.(name := name, address := address) else info
  }

  function Retopic(info: NodeInfo, verb: TopicOp, topic: string, mime: string): NodeInfo {
    match verb
    case Announce => info.(publications := info.publications[topic := mime])
    case Retract => info.(publications := info.publications - {topic})
    case Subscribe => info.(subscriptions := info.subscriptions + {topic})
    case Unsubscribe => info.(subscriptions := info.subscriptions - {topic})
    case OtherTopicOp(_) => info
  }

  /** One update of the node table. A topic change for a node that has not joined is dropped. */
  function Apply(rule: JoinRule, nodes: Nodes, m: Msg): Nodes {
    match m.body
    case NoBody => nodes
    case NodeChange(id, op, name, address) => (
      match op
      case Join => nodes[id := if id in nodes then Rejoin(rule, nodes[id], name, address)
                               else Newcomer(name, address)]
      case Leave => nodes - {id}
      case OtherNodeOp(_) => nodes)
    case TopicChange(topic, mime, id, verb, _) =>
      if id in nodes then nodes[id := Retopic(nodes[id], verb, topic, mime)] else nodes
  }

  function Replay(rule: JoinRule, log: seq<Msg>, nodes: Nodes): Nodes {
    if log == [] then nodes else Replay(rule, log[1..], Apply(rule, nodes, log[0]))
  }

  lemma {:induction false} ReplayConcat(rule: JoinRule, a: seq<Msg>, b: seq<Msg>, nodes: Nodes)
    ensures Replay(rule, a + b, nodes) == Replay(rule, b, Replay(rule, a, nodes))
  {
    if a == [] {
      assert a + b == b;
    } else {
      assert (a + b)[1..] == a[1..] + b;
      ReplayConcat(rule, a[1..], b, Apply(rule, nodes, a[0]));
    }
  }

  lemma ReplayAppend(rule: JoinRule, log: seq<Msg>, m: Msg, nodes: Nodes)
    ensures Replay(rule, log + [m], nodes) == Apply(rule, Replay(rule, log, nodes), m)
  {
    ReplayConcat(rule, log, [m], nodes);
    assert [m][1..] == [];
  }

  lemma SameEverywhere(a: Nodes, b: Nodes)
    requires forall id :: Lookup(a, id) == Lookup(b, id)
    ensures a == b
  {
    assert forall id :: id in a <==> Lookup(a, id).Some?;
    assert forall id :: id in b <==> Lookup(b, id).Some?;
    assert a.Keys == b.Keys;
    forall id | id in a ensures a[id] == b[id] {
      assert Lookup(a, id) == Lookup(b, id);
    }
  }

  /** A message touches its own node only, and what it does there depends on that node only. */
  lemma ApplyIsLocal(rule: JoinRule, a: Nodes, b: Nodes, m: Msg, id: nat)
    requires Lookup(a, id) == Lookup(b, id)
    ensures Lookup(Apply(rule, a, m), id) == Lookup(Apply(rule, b, m), id)
    ensures !About(m, id) ==> Lookup(Apply(rule, a, m), id) == Lookup(a, id)
  {
  }

  lemma {:induction false} ReplayIsLocal(rule: JoinRule, log: seq<Msg>, a: Nodes, b: Nodes, id: nat)
    requires Lookup(a, id) == Lookup(b, id)
    ensures Lookup(Replay(rule, log, a), id) == Lookup(Replay(rule, log, b), id)
  {
    if log != [] {
      ApplyIsLocal(rule, a, b, log[0], id);
      ReplayIsLocal(rule, log[1..], Apply(rule, a, log[0]), Apply(rule, b, log[0]), id);
    }
  }

  lemma {:induction false} ReplayUntouched(rule: JoinRule, log: seq<Msg>, a: Nodes, id: nat)
    requires forall m :: m in log ==> !About(m, id)
    ensures Lookup(Replay(rule, log, a), id) == Lookup(a, id)
  {
    if log != [] {
      assert log[0] in log;
      ReplayUntouched(rule, log[1..], Apply(rule, a, log[0]), id);
    }
  }

  /** Once a node is gone and no later JOIN names it, it stays gone. */
  lemma {:induction false} StaysGone(rule: JoinRule, log: seq<Msg>, a: Nodes, id: nat)
    requires id !in a
    requires forall m :: m in log && IsJoin(m) ==> m.body.id != id
    ensures id !in Replay(rule, log, a)
  {
    if log != [] {
      assert log[0] in log;
      StaysGone(rule, log[1..], Apply(rule, a, log[0]), id);
    }
  }

  /** A LEAVE makes the outcome for its node independent of where the replay started. */
  lemma {:induction false} LeaveResets(rule: JoinRule, log: seq<Msg>, leave: Msg, a: Nodes, b: Nodes)
    requires leave in log && IsLeave(leave)
    ensures Lookup(Replay(rule, log, a), leave.body.id) == Lookup(Replay(rule, log, b), leave.body.id)
  {
    if log[0] == leave {
      ReplayIsLocal(rule, log[1..], Apply(rule, a, leave), Apply(rule, b, leave), leave.body.id);
    } else {
      LeaveResets(rule, log[1..], leave, Apply(rule, a, log[0]), Apply(rule, b, log[0]));
    }
  }

  // ----- Two replays of one log forget their differences ---------------------------------------

  predicate SubscriptionOf(m: Msg, id: nat) {
    m.body.TopicChange? && m.body.nodeId == id && (m.body.verb == Subscribe || m.body.verb == Unsubscribe)
  }

  predicate PublicationOf(m: Msg, id: nat) {
    m.body.TopicChange? && m.body.nodeId == id && (m.body.verb == Announce || m.body.verb == Retract)
  }

  /** The topics whose subscription by `id` the log decides. */
  function Subscribed(log: seq<Msg>, id: nat): set<string> {
    set m | m in log && SubscriptionOf(m, id) :: m.body.topic
  }

  function Published(log: seq<Msg>, id: nat): set<string> {
    set m | m in log && PublicationOf(m, id) :: m.body.topic
  }

  /** `a` and `b` differ only in what `log` is going to overwrite. */
  predicate AgreeUpTo(a: NodeInfo, b: NodeInfo, log: seq<Msg>, id: nat) {
    && a.name == b.name && a.address == b.address
    && a.subscriptions - Subscribed(log, id) == b.subscriptions - Subscribed(log, id)
    && a.publications - Published(log, id) == b.publications - Published(log, id)
  }

  lemma MembersOfTail(log: seq<Msg>)
    requires log != []
    ensures forall m :: m in log <==> m == log[0] || m in log[1..]
  {
    assert log == [log[0]] + log[1..];
  }

  lemma SubscribedTail(log: seq<Msg>, id: nat)
    requires log != []
    ensures Subscribed(log, id)
         == Subscribed(log[1..], id) + if SubscriptionOf(log[0], id) then {log[0].body.topic} else {}
  {
    MembersOfTail(log);
  }

  lemma PublishedTail(log: seq<Msg>, id: nat)
    requires log != []
    ensures Published(log, id)
         == Published(log[1..], id) + if PublicationOf(log[0], id) then {log[0].body.topic} else {}
  {
    MembersOfTail(log);
  }

  /** One update of the one entry a log keeps changing while its node stays joined. */
  function Change(rule: JoinRule, info: NodeInfo, m: Msg, id: nat): NodeInfo {
    if IsJoin(m) && m.body.id == id then Rejoin(rule, info, m.body.name, m.body.address)
    else if m.body.TopicChange? && m.body.nodeId == id then
      Retopic(info, m.body.verb, m.body.topic, m.body.mime)
    else info
  }

  lemma ChangeIsApply(rule: JoinRule, nodes: Nodes, m: Msg, id: nat)
    requires id in nodes && !(IsLeave(m) && m.body.id == id)
    ensures Lookup(Apply(rule, nodes, m), id) == Some(Change(rule, nodes[id], m, id))
  {
  }

  lemma ChangeAgrees(rule: JoinRule, a: NodeInfo, b: NodeInfo, log: seq<Msg>, id: nat)
    requires log != [] && AgreeUpTo(a, b, log, id)
    ensures AgreeUpTo(Change(rule, a, log[0], id), Change(rule, b, log[0], id), log[1..], id)
  {
    SubscribedTail(log, id);
    PublishedTail(log, id);
    var a', b' := Change(rule, a, log[0], id), Change(rule, b, log[0], id);
    var subs, pubs := Subscribed(log[1..], id), Published(log[1..], id);
    forall t ensures t in a'.subscriptions - subs <==> t in b'.subscriptions - subs {
      assert t in a.subscriptions - Subscribed(log, id) <==> t in b.subscriptions - Subscribed(log, id);
    }
    var pa, pb := a.publications - Published(log, id), b.publications - Published(log, id);
    forall t
      ensures t in a'.publications - pubs <==> t in b'.publications - pubs
      ensures t in a'.publications - pubs ==> (a'.publications - pubs)[t] == (b'.publications - pubs)[t]
    {
      assert t in pa <==> t in pb;
      assert t in pa ==> pa[t] == pb[t];
    }
  }

  lemma {:induction false} Converge(rule: JoinRule, log: seq<Msg>, a: Nodes, b: Nodes, id: nat)
    requires forall m :: m in log && IsLeave(m) ==> m.body.id != id
    requires id in a && id in b && AgreeUpTo(a[id], b[id], log, id)
    ensures Lookup(Replay(rule, log, a), id) == Lookup(Replay(rule, log, b), id)
  {
    if log == [] {
      assert Subscribed(log, id) == {} && Published(log, id) == {};
      assert a[id].subscriptions == a[id].subscriptions - {} == b[id].subscriptions - {} == b[id].subscriptions;
      assert a[id].publications == a[id].publications - {} == b[id].publications - {} == b[id].publications;
    } else {
      assert log[0] in log;
      ChangeAgrees(rule, a[id], b[id], log, id);
      ChangeIsApply(rule, a, log[0], id);
      ChangeIsApply(rule, b, log[0], id);
      Converge(rule, log[1..], Apply(rule, a, log[0]), Apply(rule, b, log[0]), id);
    }
  }

  /** What a replay can have put into a node that stays joined throughout. */
  lemma {:induction false} Reached(rule: JoinRule, log: seq<Msg>, a: Nodes, id: nat)
    requires forall m :: m in log && IsLeave(m) ==> m.body.id != id
    requires id in a
    ensures id in Replay(rule, log, a)
    ensures Replay(rule, log, a)[id].subscriptions <= a[id].subscriptions + Subscribed(log, id)
    ensures Replay(rule, log, a)[id].publications.Keys <= a[id].publications.Keys + Published(log, id)
    ensures rule == KeepFirst ==> Replay(rule, log, a)[id].name == a[id].name
    ensures rule == KeepFirst ==> Replay(rule, log, a)[id].address == a[id].address
  {
    if log != [] {
      assert log[0] in log;
      ChangeIsApply(rule, a, log[0], id);
      SubscribedTail(log, id);
      PublishedTail(log, id);
      Reached(rule, log[1..], Apply(rule, a, log[0]), id);
    }
  }
}
