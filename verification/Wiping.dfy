/** What compaction does to the topology a log means to somebody who knows nothing yet: exactly, for every
    leave-final log and both rules. */
module Wiping {
  import opened Messages
  import opened Topology
  import opened Spokes
  import opened LogReading
  import opened Pruning

  function Bare(info: NodeInfo): NodeInfo {
    Newcomer(info.name, info.address)
  }

  function WipeAt(rule: PruneRule, left: set<nat>, entry: Option<NodeInfo>, id: nat): Option<NodeInfo> {
    if entry.Some? && TopicGone(rule, left, id) then Some(Bare(entry.value)) else entry
  }

  /** The table without the topics of the nodes whose topic changes compaction strikes out. */
  function Wipe(rule: PruneRule, left: set<nat>, nodes: Nodes): Nodes {
    map id | id in nodes :: if TopicGone(rule, left, id) then Bare(nodes[id]) else nodes[id]
  }

  /** One update, wiped afterwards, is the update of the wiped table if it is kept, and no update if it is not. */
  lemma WipeStep(rule: PruneRule, left: set<nat>, joins: JoinRule, a: Nodes, b: Nodes, m: Msg, id: nat)
    requires id !in left && Lookup(a, id) == WipeAt(rule, left, Lookup(b, id), id)
    ensures Lookup(if Kept(rule, left, m) then Apply(joins, a, m) else a, id)
         == WipeAt(rule, left, Lookup(Apply(joins, b, m), id), id)
  {
    ApplyIsLocal(joins, b, b, m, id);
    ApplyIsLocal(joins, a, a, m, id);
  }

  lemma {:induction false} KeepWipesAt(
      rule: PruneRule, left: set<nat>, joins: JoinRule, log: seq<Msg>, a: Nodes, b: Nodes, id: nat)
    requires id !in left && Lookup(a, id) == WipeAt(rule, left, Lookup(b, id), id)
    ensures Lookup(Replay(joins, Keep(rule, left, log), a), id)
         == WipeAt(rule, left, Lookup(Replay(joins, log, b), id), id)
  {
    if log != [] {
      var m, rest := log[0], Keep(rule, left, log[1..]);
      WipeStep(rule, left, joins, a, b, m, id);
      if Kept(rule, left, m) {
        assert Keep(rule, left, log) == [m] + rest && ([m] + rest)[1..] == rest;
        KeepWipesAt(rule, left, joins, log[1..], Apply(joins, a, m), Apply(joins, b, m), id);
      } else {
        assert Keep(rule, left, log) == [] + rest == rest;
        KeepWipesAt(rule, left, joins, log[1..], a, Apply(joins, b, m), id);
      }
    }
  }

  /** Compacting a leave-final log wipes the topology it means, and does nothing else to it. */
  lemma PruneWipes(rule: PruneRule, joins: JoinRule, log: seq<Msg>)
    requires LeaveFinal(rule, log)
    ensures Replay(joins, Prune(rule, log), map[]) == Wipe(rule, Left(log), Replay(joins, log, map[]))
  {
    var left, full := Left(log), Replay(joins, log, map[]);
    var a, b := Replay(joins, Prune(rule, log), map[]), Wipe(rule, left, full);
    forall id ensures Lookup(a, id) == Lookup(b, id) {
      if id in left {
        LeftOfKeep(rule, left, log);
        PrunedIsLeaveFinal(rule, log);
        LeftIsGone(rule, joins, log, map[], id);
        LeftIsGone(rule, joins, Prune(rule, log), map[], id);
      } else {
        KeepWipesAt(rule, left, joins, log, map[], map[], id);
      }
    }
    SameEverywhere(a, b);
  }

  // ----- When nothing is wiped ---------------------------------------------------------------------------------

  /** At the end of the log the node has a subscription or a publication. */
  ghost predicate HasTopics(log: seq<Msg>, id: nat) {
    || (exists topic :: SaysSubscribed(log, id, topic))
    || (exists topic, mime :: SaysPublished(log, id, topic, mime))
  }

  /** Every topic that stands at the end of the log is of a node whose topic changes compaction keeps. */
  ghost predicate Spares(rule: PruneRule, log: seq<Msg>) {
    forall id :: HasTopics(log, id) ==> !TopicGone(rule, Left(log), id)
  }

  /** The table lists topics only of nodes whose topic changes compaction keeps. */
  ghost predicate Unwiped(rule: PruneRule, left: set<nat>, nodes: Nodes) {
    forall id :: id in nodes && TopicGone(rule, left, id) ==> nodes[id] == Bare(nodes[id])
  }

  lemma WipeNothing(rule: PruneRule, left: set<nat>, nodes: Nodes)
    ensures Wipe(rule, left, nodes) == nodes <==> Unwiped(rule, left, nodes)
  {
    var wiped := Wipe(rule, left, nodes);
    if Unwiped(rule, left, nodes) {
      assert forall id :: id in nodes ==> wiped[id] == nodes[id];
      assert wiped == nodes;
    } else {
      var id :| id in nodes && TopicGone(rule, left, id) && nodes[id] != Bare(nodes[id]);
      assert wiped[id] != nodes[id];
    }
  }

  lemma ListsTopics(joins: JoinRule, log: seq<Msg>, id: nat)
    ensures var nodes := Replay(joins, log, map[]);
            HasTopics(log, id) <==> id in nodes && nodes[id] != Bare(nodes[id])
  {
    var nodes := Replay(joins, log, map[]);
    forall topic ensures SubscribedTo(nodes, id, topic) <==> SaysSubscribed(log, id, topic) {
      ReplaySubscribed(joins, log, id, topic);
    }
    forall topic, mime ensures PublishedAs(nodes, id, topic) == Some(mime) <==> SaysPublished(log, id, topic, mime) {
      ReplayPublished(joins, log, id, topic, mime);
    }
    if id in nodes && nodes[id] != Bare(nodes[id]) {
      if topic :| topic in nodes[id].subscriptions {
        assert SubscribedTo(nodes, id, topic);
      } else {
        var topic :| topic in nodes[id].publications;
        assert PublishedAs(nodes, id, topic) == Some(nodes[id].publications[topic]);
      }
    }
  }

  /** The condition on the log and the condition on the table it means are one. */
  lemma SparesIffUnwiped(rule: PruneRule, joins: JoinRule, log: seq<Msg>)
    ensures Spares(rule, log) <==> Unwiped(rule, Left(log), Replay(joins, log, map[]))
  {
    forall id
      ensures var nodes := Replay(joins, log, map[]);
              HasTopics(log, id) <==> id in nodes && nodes[id] != Bare(nodes[id])
    {
      ListsTopics(joins, log, id);
    }
  }

  /** Exactly when compaction keeps what the log means to a newcomer. */
  lemma PruneMeansSameIffSpares(rule: PruneRule, joins: JoinRule, log: seq<Msg>)
    requires LeaveFinal(rule, log)
    ensures Replay(joins, Prune(rule, log), map[]) == Replay(joins, log, map[]) <==> Spares(rule, log)
  {
    PruneWipes(rule, joins, log);
    WipeNothing(rule, Left(log), Replay(joins, log, map[]));
    SparesIffUnwiped(rule, joins, log);
  }

  /** Under the intended rule nothing is ever wiped. As written, nothing is before node 1 leaves; after that all
      standing topics are, except those of node 0. */
  lemma SparesWhen(rule: PruneRule, log: seq<Msg>)
    requires LeaveFinal(rule, log)
    ensures rule == Intended || 1 !in Left(log) ==> Spares(rule, log)
    ensures rule == AsWritten && 1 in Left(log) ==> (Spares(rule, log) <==> forall id :: id > 0 ==> !HasTopics(log, id))
  {
    forall id | id in Left(log) ensures !HasTopics(log, id) {
      LeftIsGone(rule, KeepFirst, log, map[], id);
      ListsTopics(KeepFirst, log, id);
    }
  }
}
