/** The one-time purge: which nodes a hub still lists after evicting those that never came back. */
module Purging {
  import opened Messages
  import opened Topology
  import opened Pruning
  import opened Wiping
  import opened Hub
  import opened HubRuns

  /** Which nodes are joined does not depend on what a repeated JOIN stores. */
  lemma {:induction false} KeysIgnoreJoinRule(rule: JoinRule, rule': JoinRule, log: seq<Msg>, a: Nodes, b: Nodes)
    requires a.Keys == b.Keys
    ensures Replay(rule, log, a).Keys == Replay(rule', log, b).Keys
  {
    if log != [] {
      KeysIgnoreJoinRule(rule, rule', log[1..], Apply(rule, a, log[0]), Apply(rule', b, log[0]));
    }
  }

  lemma {:induction false} EvictionsLeave(ids: seq<nat>, connected: set<nat>, next: nat)
    ensures Left(Evictions(ids, connected, next)) == set id | id in ids && id !in connected
  {
    if ids != [] {
      var n := |ids| - 1;
      EvictionsLeave(ids[..n], connected, next);
      assert ids == ids[..n] + [ids[n]];
      var before := Evictions(ids[..n], connected, next);
      if ids[n] in connected {
        assert Evictions(ids, connected, next) == before;
      } else {
        var last := LeaveOf(next + |before|, ids[n]);
        LeftConcat(before, [last]);
        assert Left([last]) == {ids[n]} by {
          assert last in [last];
        }
      }
    }
  }

  lemma {:induction false} LeavesRemove(joins: JoinRule, leaves: seq<Msg>, nodes: Nodes)
    requires forall m :: m in leaves ==> IsLeave(m)
    ensures Replay(joins, leaves, nodes) == nodes - Left(leaves)
  {
    if leaves != [] {
      assert leaves[0] in leaves;
      assert leaves == [leaves[0]] + leaves[1..];
      LeftConcat([leaves[0]], leaves[1..]);
      LeavesRemove(joins, leaves[1..], Apply(joins, nodes, leaves[0]));
      assert Left([leaves[0]]) == {leaves[0].body.id};
    }
  }

  /** The log just before the purge compacts it: exactly the unclaimed nodes are gone. */
  lemma EvictedReplay(joins: JoinRule, history: seq<Msg>, order: seq<nat>, connected: set<nat>, next: nat)
    requires Enumerates(order, Active(history))
    ensures var before := Replay(joins, history, map[]);
            Replay(joins, history + Evictions(order, connected, next), map[]) == before - (before.Keys - connected)
  {
    var before, added := Replay(joins, history, map[]), Evictions(order, connected, next);
    ReplayConcat(joins, history, added, map[]);
    forall m | m in added ensures IsLeave(m) {
      var i :| 0 <= i < |added| && added[i] == m;
    }
    LeavesRemove(joins, added, before);
    EvictionsLeave(order, connected, next);
    KeysIgnoreJoinRule(joins, KeepFirst, history, map[], map[]);
    assert Left(added) == before.Keys - connected;
  }

  lemma EvictedIsLeaveFinal(rule: PruneRule, history: seq<Msg>, added: seq<Msg>)
    requires LeaveFinal(rule, history)
    requires forall i :: 0 <= i < |added| ==> IsLeave(added[i])
    ensures LeaveFinal(rule, history + added)
  {
  }

  /** After the purge the listed nodes are exactly those that were listed and that some connection claims;
      while node 1 has not left (or under the intended rule) the survivors are untouched. */
  lemma PurgeExact(rule: PruneRule, joins: JoinRule, h: State, order: seq<nat>)
    requires LeaveFinal(rule, h.history) && Enumerates(order, Active(h.history))
    ensures var before, after := Replay(joins, h.history, map[]), Replay(joins, Purge(rule, h, order).history, map[]);
            && after.Keys == before.Keys * Identified(h.clients)
            && after == Wipe(rule, Left(Purge(rule, h, order).history), before - (before.Keys - Identified(h.clients)))
            && (Sound(rule, Purge(rule, h, order).history) ==> after == before - (before.Keys - Identified(h.clients)))
  {
    var added := Evictions(order, Identified(h.clients), h.next);
    EvictedReplay(joins, h.history, order, Identified(h.clients), h.next);
    EvictedIsLeaveFinal(rule, h.history, added);
    PruneWipes(rule, joins, h.history + added);
    LeftOfKeep(rule, Left(h.history + added), h.history + added);
    if Sound(rule, Purge(rule, h, order).history) {
      PruneMeansSameFrom(rule, joins, h.history + added, map[]);
    }
  }

  /** What the purge leaves behind: the old entries that stay, in an order-free selection, then the LEAVEs. */
  lemma PurgedLog(rule: PruneRule, h: State, order: seq<nat>)
    requires Enumerates(order, Active(h.history))
    ensures var gone := Active(h.history) - Identified(h.clients);
            var added := Evictions(order, Identified(h.clients), h.next);
            && Left(added) == gone
            && Purge(rule, h, order).history == Keep(rule, Left(h.history) + gone, h.history) + added
  {
    var added := Evictions(order, Identified(h.clients), h.next);
    EvictionsLeave(order, Identified(h.clients), h.next);
    assert Left(added) == Active(h.history) - Identified(h.clients);
    LeftConcat(h.history, added);
    KeepConcat(rule, Left(h.history + added), h.history, added);
    KeepAll(rule, Left(h.history + added), added);
  }

  /** The topology after the purge does not depend on the order in which the unordered set was walked. */
  lemma PurgeOrderIrrelevant(rule: PruneRule, joins: JoinRule, h: State, order: seq<nat>, order': seq<nat>)
    requires Enumerates(order, Active(h.history)) && Enumerates(order', Active(h.history))
    ensures MeansTheSame(joins, Purge(rule, h, order).history, Purge(rule, h, order').history)
  {
    var connected := Identified(h.clients);
    var stay := Keep(rule, Left(h.history) + (Active(h.history) - connected), h.history);
    var a, b := Evictions(order, connected, h.next), Evictions(order', connected, h.next);
    PurgedLog(rule, h, order);
    PurgedLog(rule, h, order');
    forall nodes ensures Replay(joins, stay + a, nodes) == Replay(joins, stay + b, nodes) {
      ReplayConcat(joins, stay, a, nodes);
      ReplayConcat(joins, stay, b, nodes);
      LeavesRemove(joins, a, Replay(joins, stay, nodes));
      LeavesRemove(joins, b, Replay(joins, stay, nodes));
    }
  }
}
