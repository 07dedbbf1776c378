/** Compaction of the hub's log (`TopologyServer::PruneRemoved`) and what it does to the log's meaning. */
module Pruning {
  import opened Messages
  import opened Topology

  /** Which left ids strike out a topic change. `AsWritten` is the code, whose parenthesis makes it look
      up the truth value of `node_id > 0`; `Intended` looks up `node_id`, as the comment there says. */
  datatype PruneRule = AsWritten | Intended

  predicate TopicGone(rule: PruneRule, left: set<nat>, nodeId: nat) {
    match rule
    case AsWritten => (if nodeId > 0 then 1 else 0) in left
    case Intended => nodeId in left
  }

  predicate Kept(rule: PruneRule, left: set<nat>, m: Msg) {
    match m.body
    case NoBody => true
    case NodeChange(id, op, _, _) => op == Leave || id !in left
    case TopicChange(_, _, id, _, _) => !TopicGone(rule, left, id)
  }

  function Left(log: seq<Msg>): set<nat> {
    set m | m in log && IsLeave(m) :: m.body.id
  }

  function Keep(rule: PruneRule, left: set<nat>, log: seq<Msg>): (kept: seq<Msg>)
    ensures forall m :: m in kept <==> m in log && Kept(rule, left, m)
  {
    if log == [] then []
    else
      MembersOfTail(log);
      (if Kept(rule, left, log[0]) then [log[0]] else []) + Keep(rule, left, log[1..])
  }

  function Prune(rule: PruneRule, log: seq<Msg>): seq<Msg> {
    Keep(rule, Left(log), log)
  }

  /** After a LEAVE nothing follows that this LEAVE strikes out. Under `Intended`: after a LEAVE for an id
      only LEAVEs mention that id. */
  ghost predicate LeaveFinal(rule: PruneRule, log: seq<Msg>) {
    forall i, j :: 0 <= i < j < |log| && IsLeave(log[i]) ==> Kept(rule, {log[i].body.id}, log[j])
  }

  // ----- Algebra --------------------------------------------------------------------------------

  lemma {:induction false} KeepConcat(rule: PruneRule, left: set<nat>, a: seq<Msg>, b: seq<Msg>)
    ensures Keep(rule, left, a + b) == Keep(rule, left, a) + Keep(rule, left, b)
  {
    if a == [] {
      assert a + b == b;
    } else {
      assert (a + b)[1..] == a[1..] + b;
      KeepConcat(rule, left, a[1..], b);
    }
  }

  /** Striking out more afterwards makes an earlier, smaller compaction invisible. */
  lemma {:induction false} KeepTwice(rule: PruneRule, few: set<nat>, many: set<nat>, log: seq<Msg>)
    requires few <= many
    ensures Keep(rule, many, Keep(rule, few, log)) == Keep(rule, many, log)
  {
    if log != [] {
      var head := if Kept(rule, few, log[0]) then [log[0]] else [];
      KeepConcat(rule, many, head, Keep(rule, few, log[1..]));
      KeepTwice(rule, few, many, log[1..]);
    }
  }

  lemma {:induction false} KeepAll(rule: PruneRule, left: set<nat>, log: seq<Msg>)
    requires forall m :: m in log ==> Kept(rule, left, m)
    ensures Keep(rule, left, log) == log
  {
    if log != [] {
      MembersOfTail(log);
      KeepAll(rule, left, log[1..]);
    }
  }

  lemma LeftConcat(a: seq<Msg>, b: seq<Msg>)
    ensures Left(a + b) == Left(a) + Left(b)
  {
    assert forall m :: m in a + b <==> m in a || m in b;
  }

  lemma LeftOfKeep(rule: PruneRule, left: set<nat>, log: seq<Msg>)
    ensures Left(Keep(rule, left, log)) == Left(log)
  {
    forall x | x in Left(log) ensures x in Left(Keep(rule, left, log)) {
      var m :| m in log && IsLeave(m) && m.body.id == x;
      assert m in Keep(rule, left, log);
    }
  }

  lemma PruneIdempotent(rule: PruneRule, log: seq<Msg>)
    ensures Prune(rule, Prune(rule, log)) == Prune(rule, log)
  {
    LeftOfKeep(rule, Left(log), log);
    KeepTwice(rule, Left(log), Left(log), log);
  }

  /** Compacting after every append gives the same log as compacting once at the end. */
  lemma PruneIncremental(rule: PruneRule, a: seq<Msg>, b: seq<Msg>)
    ensures Prune(rule, Prune(rule, a) + b) == Prune(rule, a + b)
  {
    LeftOfKeep(rule, Left(a), a);
    LeftConcat(a, b);
    LeftConcat(Prune(rule, a), b);
    var all := Left(a + b);
    KeepConcat(rule, all, a, b);
    KeepConcat(rule, all, Prune(rule, a), b);
    KeepTwice(rule, Left(a), all, a);
  }

  lemma {:induction false} KeepIsSubsequence(rule: PruneRule, left: set<nat>, log: seq<Msg>)
    ensures IsSubsequence(Keep(rule, left, log), log)
  {
    if log != [] {
      var rest := Keep(rule, left, log[1..]);
      KeepIsSubsequence(rule, left, log[1..]);
      if Kept(rule, left, log[0]) {
        assert ([log[0]] + rest)[1..] == rest;
      } else {
        assert [] + rest == rest;
        assert rest != [] ==> rest[0] in rest;
      }
    }
  }

  lemma {:induction false} KeepCounts(rule: PruneRule, left: set<nat>, log: seq<Msg>, m: Msg)
    ensures multiset(Keep(rule, left, log))[m] == if Kept(rule, left, m) then multiset(log)[m] else 0
  {
    if log != [] {
      KeepCounts(rule, left, log[1..], m);
      var head := if Kept(rule, left, log[0]) then [log[0]] else [];
      assert log == [log[0]] + log[1..];
      assert multiset(log) == multiset([log[0]]) + multiset(log[1..]);
      assert multiset(head + Keep(rule, left, log[1..])) == multiset(head) + multiset(Keep(rule, left, log[1..]));
    }
  }

  /** Compaction strikes out exactly what a LEAVE condemns, keeps every LEAVE, and reorders nothing. */
  lemma PruneStrikesOut(rule: PruneRule, log: seq<Msg>)
    ensures IsSubsequence(Prune(rule, log), log)
    ensures forall m :: multiset(Prune(rule, log))[m] == if Kept(rule, Left(log), m) then multiset(log)[m] else 0
    ensures forall m :: m in log && IsLeave(m) ==> m in Prune(rule, log)
  {
    KeepIsSubsequence(rule, Left(log), log);
    forall m
      ensures multiset(Prune(rule, log))[m] == if Kept(rule, Left(log), m) then multiset(log)[m] else 0
    {
      KeepCounts(rule, Left(log), log, m);
    }
  }

  /** Somewhere in the log the node leaves. */
  ghost predicate HasLeave(log: seq<Msg>, id: nat) {
    exists m :: m in log && m.body.NodeChange? && m.body.op == Leave && m.body.id == id
  }

  /** What survives, read off the log alone. A node change does if it is a LEAVE or its node does not leave. A topic
      change does, as intended, if its node does not leave; as written, if node 1 does not, or node 0 where the topic
      change is about node 0. */
  lemma PruneSurvivors(rule: PruneRule, log: seq<Msg>, m: Msg)
    ensures m.body.NoBody? ==> (m in Prune(rule, log) <==> m in log)
    ensures m.body.NodeChange? ==>
              (m in Prune(rule, log) <==> m in log && (m.body.op == Leave || !HasLeave(log, m.body.id)))
    ensures m.body.TopicChange? && rule == Intended ==>
              (m in Prune(rule, log) <==> m in log && !HasLeave(log, m.body.nodeId))
    ensures m.body.TopicChange? && rule == AsWritten && m.body.nodeId > 0 ==>
              (m in Prune(rule, log) <==> m in log && !HasLeave(log, 1))
    ensures m.body.TopicChange? && rule == AsWritten && m.body.nodeId == 0 ==>
              (m in Prune(rule, log) <==> m in log && !HasLeave(log, 0))
  {
    assert forall id :: id in Left(log) <==> HasLeave(log, id);
  }

  lemma {:induction false} KeepSorted(rule: PruneRule, left: set<nat>, log: seq<Msg>)
    requires Sorted(log)
    ensures Sorted(Keep(rule, left, log))
  {
    if log != [] {
      KeepSorted(rule, left, log[1..]);
      var rest := Keep(rule, left, log[1..]);
      forall i | 0 <= i < |rest| ensures log[0].serial < rest[i].serial {
        assert rest[i] in rest;
      }
    }
  }

  lemma KeptByAll(rule: PruneRule, left: set<nat>, m: Msg)
    ensures Kept(rule, left, m) <==> forall x :: x in left ==> Kept(rule, {x}, m)
  {
  }

  /** Whatever the log was, its compaction is leave-final. */
  lemma PrunedIsLeaveFinal(rule: PruneRule, log: seq<Msg>)
    ensures LeaveFinal(rule, Prune(rule, log))
  {
    var kept := Prune(rule, log);
    forall i, j | 0 <= i < j < |kept| && IsLeave(kept[i])
      ensures Kept(rule, {kept[i].body.id}, kept[j])
    {
      assert kept[i] in kept && kept[j] in kept;
      KeptByAll(rule, Left(log), kept[j]);
    }
  }

  /** In a leave-final log the newest entry survives compaction. */
  lemma NewestSurvives(rule: PruneRule, log: seq<Msg>)
    requires LeaveFinal(rule, log) && log != []
    ensures Kept(rule, Left(log), log[|log| - 1])
    ensures Prune(rule, log) != []
    ensures Prune(rule, log)[|Prune(rule, log)| - 1] == log[|log| - 1]
  {
    var last := log[|log| - 1];
    forall x | x in Left(log) ensures Kept(rule, {x}, last) {
      var m :| m in log && IsLeave(m) && m.body.id == x;
      var i :| 0 <= i < |log| && log[i] == m;
    }
    KeptByAll(rule, Left(log), last);
    assert log == log[..|log| - 1] + [last];
    KeepConcat(rule, Left(log), log[..|log| - 1], [last]);
    assert Keep(rule, Left(log), [last]) == [last];
  }

  // ----- Meaning ---------------------------------------------------------------------------------

  /** A message no node table reacts to. */
  predicate Inert(m: Msg) {
    match m.body
    case NoBody => true
    case NodeChange(_, op, _, _) => op.OtherNodeOp?
    case TopicChange(_, _, _, verb, _) => verb.OtherTopicOp?
  }

  lemma {:induction false} KeepMeansSameAt(
      rule: PruneRule, left: set<nat>, joins: JoinRule, log: seq<Msg>, a: Nodes, b: Nodes, id: nat)
    requires Lookup(a, id) == Lookup(b, id)
    requires forall m :: m in log && About(m, id) && !Kept(rule, left, m) ==> Inert(m)
    ensures Lookup(Replay(joins, Keep(rule, left, log), a), id) == Lookup(Replay(joins, log, b), id)
  {
    if log != [] {
      var m, rest := log[0], Keep(rule, left, log[1..]);
      assert m in log;
      ApplyIsLocal(joins, b, a, m, id);
      if Kept(rule, left, m) {
        assert Keep(rule, left, log) == [m] + rest && ([m] + rest)[1..] == rest;
        KeepMeansSameAt(rule, left, joins, log[1..], Apply(joins, a, m), Apply(joins, b, m), id);
      } else {
        assert Keep(rule, left, log) == [] + rest == rest;
        KeepMeansSameAt(rule, left, joins, log[1..], a, Apply(joins, b, m), id);
      }
    }
  }

  /** In a leave-final log a node that has left is absent at the end. */
  lemma {:induction false} LeftIsGone(rule: PruneRule, joins: JoinRule, log: seq<Msg>, a: Nodes, id: nat)
    requires LeaveFinal(rule, log) && id in Left(log)
    ensures id !in Replay(joins, log, a)
  {
    if IsLeave(log[0]) && log[0].body.id == id {
      forall m | m in log[1..] && IsJoin(m) ensures m.body.id != id {
        var j :| 0 <= j < |log[1..]| && log[1..][j] == m;
        assert Kept(rule, {id}, log[j + 1]);
      }
      StaysGone(joins, log[1..], Apply(joins, a, log[0]), id);
    } else {
      MembersOfTail(log);
      LeftIsGone(rule, joins, log[1..], Apply(joins, a, log[0]), id);
    }
  }

  /** The entries a compaction strikes out without need say nothing: a condition on the log alone. It holds
      outright when node 1 has not left, or when every effective topic change is by a node that has. */
  ghost predicate StrikesOnlyLeft(rule: PruneRule, log: seq<Msg>) {
    || rule == Intended
    || 1 !in Left(log)
    || forall m :: m in log && m.body.TopicChange? && !Inert(m) && m.body.nodeId > 0 ==> m.body.nodeId in Left(log)
  }

  ghost predicate MeansTheSame(joins: JoinRule, a: seq<Msg>, b: seq<Msg>) {
    forall nodes :: Replay(joins, a, nodes) == Replay(joins, b, nodes)
  }

  lemma PruneMeansSameFrom(rule: PruneRule, joins: JoinRule, log: seq<Msg>, nodes: Nodes)
    requires LeaveFinal(rule, log) && StrikesOnlyLeft(rule, log)
    ensures Replay(joins, Prune(rule, log), nodes) == Replay(joins, log, nodes)
  {
    var a, b := Replay(joins, Prune(rule, log), nodes), Replay(joins, log, nodes);
    forall id ensures Lookup(a, id) == Lookup(b, id) {
      if id in Left(log) {
        LeftOfKeep(rule, Left(log), log);
        PrunedIsLeaveFinal(rule, log);
        LeftIsGone(rule, joins, log, nodes, id);
        LeftIsGone(rule, joins, Prune(rule, log), nodes, id);
      } else {
        KeepMeansSameAt(rule, Left(log), joins, log, nodes, nodes, id);
      }
    }
    SameEverywhere(a, b);
  }

  lemma {:induction false} NoTopicsNoChange(joins: JoinRule, log: seq<Msg>, a: Nodes, id: nat)
    requires id in a && id !in Left(log)
    requires forall m :: m in log && m.body.TopicChange? ==> m.body.nodeId != id
    ensures id in Replay(joins, log, a)
    ensures Replay(joins, log, a)[id].subscriptions == a[id].subscriptions
    ensures Replay(joins, log, a)[id].publications == a[id].publications
  {
    if log != [] {
      MembersOfTail(log);
      assert log[0] in log;
      ChangeIsApply(joins, a, log[0], id);
      NoTopicsNoChange(joins, log[1..], Apply(joins, a, log[0]), id);
    }
  }

  lemma StruckTopicMatters(joins: JoinRule, log: seq<Msg>, m: Msg)
    requires 1 in Left(log) && m in log
    requires m.body.TopicChange? && !Inert(m) && m.body.nodeId > 0 && m.body.nodeId !in Left(log)
    ensures !MeansTheSame(joins, Prune(AsWritten, log), log)
  {
    var id, topic := m.body.nodeId, m.body.topic;
    var plain: Nodes := map[id := Newcomer("", "")];
    var marked: Nodes := map[id := if SubscriptionOf(m, id) then NodeInfo("", "", map[], {topic})
                                   else NodeInfo("", "", map[topic := ""], {})];
    var pruned := Prune(AsWritten, log);
    LeftOfKeep(AsWritten, Left(log), log);
    NoTopicsNoChange(joins, pruned, plain, id);
    NoTopicsNoChange(joins, pruned, marked, id);
    assert Lookup(Replay(joins, pruned, plain), id) != Lookup(Replay(joins, pruned, marked), id) by {
      assert topic in marked[id].subscriptions || topic in marked[id].publications;
    }
    assert if SubscriptionOf(m, id) then topic in Subscribed(log, id) else topic in Published(log, id);
    var subs, pubs := Subscribed(log, id), Published(log, id);
    assert plain[id].subscriptions - subs == marked[id].subscriptions - subs;
    assert plain[id].publications - pubs == marked[id].publications - pubs;
    Converge(joins, log, plain, marked, id);
  }

  /** Exactly when compaction keeps the meaning of a leave-final log, from every starting table. */
  lemma PruneMeaning(rule: PruneRule, joins: JoinRule, log: seq<Msg>)
    requires LeaveFinal(rule, log)
    ensures MeansTheSame(joins, Prune(rule, log), log) <==> StrikesOnlyLeft(rule, log)
  {
    if StrikesOnlyLeft(rule, log) {
      forall nodes ensures Replay(joins, Prune(rule, log), nodes) == Replay(joins, log, nodes) {
        PruneMeansSameFrom(rule, joins, log, nodes);
      }
    } else {
      var m :| m in log && m.body.TopicChange? && !Inert(m) && m.body.nodeId > 0 && m.body.nodeId !in Left(log);
      StruckTopicMatters(joins, log, m);
    }
  }
}
