/** A spoke that loses its connection any number of times during a run of the hub, and what its stale table becomes
    when it is sent the whole log again. */
module Reconnecting {
  import opened Messages
  import opened Topology
  import opened CatchingUp
  import opened Pruning
  import opened Wiping
  import opened Hub
  import opened HubRuns
  import opened Streams

  // ----- Earlier deliveries ------------------------------------------------------------------------------------

  /** Two streams in step look the same once a larger set of departures is struck out. */
  lemma InStepStrikesAlike(rule: PruneRule, history: seq<Msg>, a: seq<Msg>, b: seq<Msg>, left: set<nat>)
    requires InStep(rule, history, a) && InStep(rule, history, b) && Left(history) <= left
    ensures Keep(rule, left, a) == Keep(rule, left, b)
  {
    InStepLeft(rule, history, a);
    InStepLeft(rule, history, b);
    KeepTwice(rule, Left(history), left, a);
    KeepTwice(rule, Left(history), left, b);
  }

  lemma KeepPrefix(rule: PruneRule, left: set<nat>, a: seq<Msg>, b: seq<Msg>)
    requires a <= b
    ensures Keep(rule, left, a) <= Keep(rule, left, b)
  {
    assert b == a + b[|a|..];
    KeepConcat(rule, left, a, b[|a|..]);
  }

  /** What was delivered earlier, less what has since been struck out, starts today's compacted log. */
  lemma EarlierDeliveryIsPrefix(rule: PruneRule, h: State, es: seq<Event>, fd: Fd, k: nat)
    requires Good(rule, h) && fd in h.clients && k <= |h.clients[fd].sent|
    ensures var now := Run(rule, h, es).history;
            Keep(rule, Left(now), h.clients[fd].sent[..k]) <= Prune(rule, now)
  {
    RunExtends(rule, h, es);
    var h', sent := Run(rule, h, es), h.clients[fd].sent;
    var left := Left(h'.history);
    assert ClientGood(rule, h, h.clients[fd]);
    InStepStrikesAlike(rule, h.history, sent, h.journal, left);
    InStepLeft(rule, h'.history, h'.journal);
    KeepPrefix(rule, left, sent[..k], sent);
    KeepPrefix(rule, left, h.journal, h'.journal);
  }

  // ----- A spoke that comes and goes -----------------------------------------------------------------------

  /** The hub runs through `es`; then the spoke's connection on `fd` breaks, `k` messages having arrived on it. */
  datatype Visit = Visit(es: seq<Event>, fd: Fd, k: nat)

  function AllEvents(visits: seq<Visit>): seq<Event> {
    if visits == [] then [] else visits[0].es + AllEvents(visits[1..])
  }

  function Part(h: State, fd: Fd, k: nat): seq<Msg> {
    if fd !in h.clients then []
    else if k <= |h.clients[fd].sent| then h.clients[fd].sent[..k]
    else h.clients[fd].sent
  }

  ghost function TableAfter(rule: PruneRule, joins: JoinRule, h: State, visits: seq<Visit>, table: Nodes): Nodes
    decreases |visits|
  {
    if visits == [] then table
    else
      var h' := Run(rule, h, visits[0].es);
      TableAfter(rule, joins, h', visits[1..], Replay(joins, Part(h', visits[0].fd, visits[0].k), table))
  }

  /** One more visit: the hub runs on from where it is, and what has been written to the connection by then, up to `k`
      messages of it, is replayed over the table. */
  lemma {:induction false} OneMoreVisit(
      rule: PruneRule, joins: JoinRule, h: State, visits: seq<Visit>, v: Visit, table: Nodes)
    ensures var h' := Run(rule, h, AllEvents(visits) + v.es);
            var sent := if v.fd in h'.clients then h'.clients[v.fd].sent else [];
            var arrived := if v.k <= |sent| then sent[..v.k] else sent;
            TableAfter(rule, joins, h, visits + [v], table)
            == Replay(joins, arrived, TableAfter(rule, joins, h, visits, table))
    decreases |visits|
  {
    if visits == [] {
      assert [] + [v] == [v] && [] + v.es == v.es && [v][1..] == [];
    } else {
      var u, h1 := visits[0], Run(rule, h, visits[0].es);
      assert (visits + [v])[1..] == visits[1..] + [v] && (visits + [v])[0] == u;
      RunConcat(rule, h, u.es, AllEvents(visits[1..]) + v.es);
      assert AllEvents(visits) + v.es == u.es + (AllEvents(visits[1..]) + v.es);
      OneMoreVisit(rule, joins, h1, visits[1..], v, Replay(joins, Part(h1, u.fd, u.k), table));
    }
  }

  /** What of a stale table matters under `now`: if the hub has compacted, all but the topics it has struck out. */
  ghost function Seen(rule: PruneRule, now: seq<Msg>, table: Nodes): Nodes {
    if Prune(rule, now) == now then Wipe(rule, Left(now), table) else table
  }

  lemma {:induction false} RunSettled(rule: PruneRule, h: State, es: seq<Event>)
    requires Good(rule, h) && Settled(rule, h)
    ensures Good(rule, Run(rule, h, es)) && Settled(rule, Run(rule, h, es))
    ensures Compacted(rule, Run(rule, h, es)) || (Run(rule, h, es).history == h.history && !Compacted(rule, h))
    decreases |es|
  {
    if es != [] {
      NextGood(rule, h, es[0]);
      NextSettled(rule, h, es[0]);
      if Compacted(rule, h) {
        CompactedStaysOne(rule, h, es[0]);
      }
      RunSettled(rule, Next(rule, h, es[0]), es[1..]);
    }
  }

  lemma PartIsPrefix(h: State, fd: Fd, k: nat) returns (k': nat)
    requires fd in h.clients
    ensures k' <= |h.clients[fd].sent| && Part(h, fd, k) == h.clients[fd].sent[..k']
  {
    var sent := h.clients[fd].sent;
    k' := if k <= |sent| then k else |sent|;
    assert sent[..|sent|] == sent;
  }

  /** Until the hub compacts its log for the first time, it has sent nothing but that log. */
  lemma UncompactedIsSent(rule: PruneRule, h: State, fd: Fd, rest: seq<Event>)
    requires Good(rule, h) && Settled(rule, h) && fd in h.clients
    requires !Compacted(rule, Run(rule, h, rest))
    ensures h.clients[fd].sent == Run(rule, h, rest).history
  {
    RunSettled(rule, h, rest);
  }

  lemma PrefixLength(part: seq<Msg>, log: seq<Msg>) returns (n: nat)
    requires part <= log
    ensures n <= |log| && log[..n] == part
  {
    n := |part|;
  }

  /** What arrived in one visit, less what has since been struck out, starts today's log. */
  lemma PartStartsLog(rule: PruneRule, h: State, fd: Fd, k: nat, rest: seq<Event>) returns (n: nat)
    requires Good(rule, h) && Settled(rule, h)
    ensures var now, part := Run(rule, h, rest).history, Part(h, fd, k);
            && n <= |now|
            && now[..n] == if Prune(rule, now) == now then Keep(rule, Left(now), part) else part
  {
    if fd !in h.clients {
      return 0;
    }
    var now, part := Run(rule, h, rest).history, Part(h, fd, k);
    var k' := PartIsPrefix(h, fd, k);
    if Prune(rule, now) == now {
      EarlierDeliveryIsPrefix(rule, h, rest, fd, k');
      n := PrefixLength(Keep(rule, Left(now), part), now);
    } else {
      UncompactedIsSent(rule, h, fd, rest);
      n := k';
    }
  }

  lemma SameEntrySameStale(joins: JoinRule, log: seq<Msg>, a: Nodes, b: Nodes, id: nat)
    requires StaleAt(joins, log, a, id) && Lookup(a, id) == Lookup(b, id)
    ensures StaleAt(joins, log, b, id)
  {
  }

  lemma SeenReplay(rule: PruneRule, joins: JoinRule, now: seq<Msg>, part: seq<Msg>, table: Nodes, id: nat)
    requires id !in Left(now)
    ensures var short := if Prune(rule, now) == now then Keep(rule, Left(now), part) else part;
            Lookup(Replay(joins, short, Seen(rule, now, table)), id)
            == Lookup(Seen(rule, now, Replay(joins, part, table)), id)
  {
    if Prune(rule, now) == now {
      KeepWipesAt(rule, Left(now), joins, part, Wipe(rule, Left(now), table), table, id);
    }
  }

  lemma VisitStaysStale(
      rule: PruneRule, joins: JoinRule, h: State, fd: Fd, k: nat, rest: seq<Event>, table: Nodes, id: nat)
    requires Good(rule, h) && Settled(rule, h)
    requires var now := Run(rule, h, rest).history;
             id !in Left(now) && StaleAt(joins, now, Seen(rule, now, table), id)
    ensures var now := Run(rule, h, rest).history;
            StaleAt(joins, now, Seen(rule, now, Replay(joins, Part(h, fd, k), table)), id)
  {
    var now, part := Run(rule, h, rest).history, Part(h, fd, k);
    var n := PartStartsLog(rule, h, fd, k, rest);
    StaleStays(joins, now, Seen(rule, now, table), id, n);
    SeenReplay(rule, joins, now, part, table, id);
    SameEntrySameStale(joins, now, Replay(joins, now[..n], Seen(rule, now, table)),
                       Seen(rule, now, Replay(joins, part, table)), id);
  }

  lemma {:induction false} VisitsStayStale(
      rule: PruneRule, joins: JoinRule, h: State, visits: seq<Visit>, more: seq<Event>, table: Nodes, id: nat)
    requires Good(rule, h) && Settled(rule, h)
    requires var now := Run(rule, h, AllEvents(visits) + more).history;
             id !in Left(now) && StaleAt(joins, now, Seen(rule, now, table), id)
    ensures var now := Run(rule, h, AllEvents(visits) + more).history;
            StaleAt(joins, now, Seen(rule, now, TableAfter(rule, joins, h, visits, table)), id)
    decreases |visits|
  {
    if visits != [] {
      var v := visits[0];
      var h', rest := Run(rule, h, v.es), AllEvents(visits[1..]) + more;
      assert AllEvents(visits) + more == v.es + rest;
      RunConcat(rule, h, v.es, rest);
      RunSettled(rule, h, v.es);
      VisitStaysStale(rule, joins, h', v.fd, v.k, rest, table, id);
      VisitsStayStale(rule, joins, h', visits[1..], more, Replay(joins, Part(h', v.fd, v.k), table), id);
    }
  }

  // ----- Catching up ----------------------------------------------------------------------------------------------

  /** The table lists no topic, of a node still there, that the hub has struck out of its log. */
  ghost predicate Unburdened(rule: PruneRule, now: seq<Msg>, table: Nodes) {
    Prune(rule, now) == now ==> Unwiped(rule, Left(now), table - Left(now))
  }

  /** What the stale table lists of a node whose topics the hub has struck out, it lists for good. */
  lemma BurdenStays(rule: PruneRule, joins: JoinRule, now: seq<Msg>, stale: Nodes, id: nat)
    requires Prune(rule, now) == now && TopicGone(rule, Left(now), id)
    requires id in stale && id !in Left(now)
    ensures id in Replay(joins, now, stale)
    ensures Replay(joins, now, stale)[id] == Bare(Replay(joins, now, stale)[id]) <==> stale[id] == Bare(stale[id])
  {
    assert forall m :: m in Prune(rule, now) ==> Kept(rule, Left(now), m);
    NoTopicsNoChange(joins, now, stale, id);
  }

  lemma CaughtUpWhenCompacted(rule: PruneRule, joins: JoinRule, now: seq<Msg>, stale: Nodes, id: nat)
    requires Prune(rule, now) == now && OrderlyAt(now, id) && id !in Left(now)
    requires StaleAt(joins, now, Wipe(rule, Left(now), stale), id)
    ensures (Lookup(Replay(joins, now, stale), id) == Lookup(Replay(joins, now, map[]), id)) == (
              id in stale && TopicGone(rule, Left(now), id) ==> stale[id] == Bare(stale[id]))
  {
    var left, full := Left(now), Replay(joins, now, stale);
    KeepWipesAt(rule, left, joins, now, Wipe(rule, left, stale), stale, id);
    KeepWipesAt(rule, left, joins, now, map[], map[], id);
    CatchUpAt(joins, now, Wipe(rule, left, stale), id);
    assert WipeAt(rule, left, Lookup(full, id), id) == Lookup(Replay(joins, now, map[]), id);
    if id in stale {
      if TopicGone(rule, left, id) {
        BurdenStays(rule, joins, now, stale, id);
      }
    } else {
      ReplayIsLocal(joins, now, stale, map[], id);
    }
  }

  /** The node is not listed yet; or the log says nothing premature about it, and the table lists no topic of it that
      the hub has struck out. */
  ghost predicate CatchesUpAt(rule: PruneRule, now: seq<Msg>, stale: Nodes, id: nat) {
    id in stale ==>
      && OrderlyAt(now, id)
      && (Prune(rule, now) == now && id !in Left(now) && TopicGone(rule, Left(now), id) ==>
            stale[id] == Bare(stale[id]))
  }

  /** One node of a stale table, after the whole log. */
  lemma CaughtUpAt(rule: PruneRule, joins: JoinRule, now: seq<Msg>, stale: Nodes, id: nat)
    requires id !in Left(now) ==> StaleAt(joins, now, Seen(rule, now, stale), id)
    ensures Lookup(Replay(joins, now, stale), id) == Lookup(Replay(joins, now, map[]), id)
       <==> CatchesUpAt(rule, now, stale, id)
  {
    if id !in stale {
      ReplayIsLocal(joins, now, stale, map[], id);
    } else if !OrderlyAt(now, id) {
      PrematureShows(joins, now, stale, id);
    } else if id in Left(now) {
      assert Leaves(now, id);
      CatchUpAt(joins, now, stale, id);
    } else if Prune(rule, now) == now {
      CaughtUpWhenCompacted(rule, joins, now, stale, id);
    } else {
      CatchUpAt(joins, now, stale, id);
    }
  }

  /** A spoke whose connections broke at any points of any deliveries, any number of times, and that is sent the whole
      log at any later point of the run, ends with the hub's topology: if and only if its stale table lists no topic
      that the hub has struck out, and no node of which the log has a premature last word. */
  lemma ReconnectCatchesUp(
      rule: PruneRule, joins: JoinRule, digest: seq<Msg>, visits: seq<Visit>, more: seq<Event>)
    requires Seed(rule, digest)
    ensures var now := Run(rule, Open(digest), AllEvents(visits) + more).history;
            var stale := TableAfter(rule, joins, Open(digest), visits, map[]);
            Replay(joins, now, stale) == Replay(joins, now, map[])
            <==> Unburdened(rule, now, stale) && forall id :: id in stale ==> OrderlyAt(now, id)
  {
    var now := Run(rule, Open(digest), AllEvents(visits) + more).history;
    var stale := TableAfter(rule, joins, Open(digest), visits, map[]);
    OpenGood(rule, digest);
    forall id
      ensures Lookup(Replay(joins, now, stale), id) == Lookup(Replay(joins, now, map[]), id)
         <==> CatchesUpAt(rule, now, stale, id)
    {
      if id !in Left(now) {
        VisitsStayStale(rule, joins, Open(digest), visits, more, map[], id);
      }
      CaughtUpAt(rule, joins, now, stale, id);
    }
    SameIff(Replay(joins, now, stale), Replay(joins, now, map[]));
    CatchesUpEverywhere(rule, now, stale);
  }

  lemma CatchesUpEverywhere(rule: PruneRule, now: seq<Msg>, stale: Nodes)
    ensures (forall id :: CatchesUpAt(rule, now, stale, id))
       <==> Unburdened(rule, now, stale) && forall id :: id in stale ==> OrderlyAt(now, id)
  {
    if forall id :: CatchesUpAt(rule, now, stale, id) {
      forall id | id in stale ensures OrderlyAt(now, id) {
        assert CatchesUpAt(rule, now, stale, id);
      }
      forall id | id in stale - Left(now) && TopicGone(rule, Left(now), id) && Prune(rule, now) == now
        ensures stale[id] == Bare(stale[id])
      {
        assert CatchesUpAt(rule, now, stale, id);
      }
    }
    if Unburdened(rule, now, stale) {
      assert forall id :: id in stale && id !in Left(now) ==> id in stale - Left(now);
    }
  }

  /** Under the intended rule, and as written as long as node 1 has not left, no table is ever burdened. */
  lemma SoundIsUnburdened(rule: PruneRule, now: seq<Msg>, table: Nodes)
    requires Sound(rule, now)
    ensures Unburdened(rule, now, table)
  {
  }

  /** Whenever a connection opened now breaks, opening it again leads to the hub's topology, if and only if no node has
      a premature last word. */
  lemma ReconnectNeedsOrder(joins: JoinRule, h: State, fd: Fd)
    requires fd !in h.clients
    ensures (forall k :: Replay(joins, h.history, Replay(joins, Part(Connect(h, fd), fd, k), map[]))
                      == Replay(joins, h.history, map[]))
       <==> Orderly(h.history)
  {
    var log := h.history;
    CatchUp(joins, log);
    assert forall k: nat :: k <= |log| ==> Part(Connect(h, fd), fd, k) == log[..k];
    assert log[..|log|] == log;
  }
}
