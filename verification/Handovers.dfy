/** What a spoke that has reconnected hands over to a new hub. */
module Handovers {
  import opened Messages
  import opened Topology
  import opened Pruning
  import opened Wiping
  import opened Hub
  import opened HubRuns
  import opened Streams
  import opened Spokes
  import opened Reconnecting
  import opened Repeats

  /** Everything that arrived in those visits. */
  ghost function AllParts(rule: PruneRule, h: State, visits: seq<Visit>): seq<Msg>
    decreases |visits|
  {
    if visits == [] then []
    else
      var h' := Run(rule, h, visits[0].es);
      Part(h', visits[0].fd, visits[0].k) + AllParts(rule, h', visits[1..])
  }

  lemma PartThenRest(rule: PruneRule, h: State, visits: seq<Visit>, v: Visit, rest: seq<Visit>)
    requires visits == [v] + rest
    ensures var h' := Run(rule, h, v.es);
            AllParts(rule, h, visits) == Part(h', v.fd, v.k) + AllParts(rule, h', rest)
  {
    assert visits[1..] == rest;
  }

  lemma EventsThenRest(rule: PruneRule, h: State, visits: seq<Visit>, v: Visit, rest: seq<Visit>)
    requires visits == [v] + rest
    ensures Run(rule, h, AllEvents(visits)) == Run(rule, Run(rule, h, v.es), AllEvents(rest))
  {
    assert visits[1..] == rest;
    RunConcat(rule, h, v.es, AllEvents(rest));
  }

  lemma {:induction false} PartsConcat(rule: PruneRule, h: State, a: seq<Visit>, b: seq<Visit>)
    ensures AllParts(rule, h, a + b) == AllParts(rule, h, a) + AllParts(rule, Run(rule, h, AllEvents(a)), b)
    decreases |a|
  {
    if a == [] {
      assert a + b == b;
    } else {
      var v, rest := a[0], a[1..];
      var h1 := Run(rule, h, v.es);
      assert a == [v] + rest && a + b == [v] + (rest + b);
      PartThenRest(rule, h, a, v, rest);
      PartThenRest(rule, h, a + b, v, rest + b);
      EventsThenRest(rule, h, a, v, rest);
      PartsConcat(rule, h1, rest, b);
      Reassociate(Part(h1, v.fd, v.k), AllParts(rule, h1, rest), AllParts(rule, Run(rule, h1, AllEvents(rest)), b));
    }
  }

  /** One more visit brings what has been written to its connection by then, up to `k` messages of it. */
  lemma OneMorePart(rule: PruneRule, h: State, visits: seq<Visit>, v: Visit)
    ensures var h' := Run(rule, h, AllEvents(visits) + v.es);
            var sent := if v.fd in h'.clients then h'.clients[v.fd].sent else [];
            AllParts(rule, h, visits + [v]) == AllParts(rule, h, visits) + if v.k <= |sent| then sent[..v.k] else sent
  {
    PartsConcat(rule, h, visits, [v]);
    RunConcat(rule, h, AllEvents(visits), v.es);
    PartThenRest(rule, Run(rule, h, AllEvents(visits)), [v], v, []);
  }

  lemma PartIsTold(rule: PruneRule, h: State, fd: Fd, k: nat, rest: seq<Event>, m: Msg)
    requires Good(rule, h) && Settled(rule, h) && m in Part(h, fd, k)
    ensures var end := Run(rule, h, rest);
            m in end.journal && (Compacted(rule, end) || m in end.history)
  {
    var end := Run(rule, h, rest);
    RunExtends(rule, h, rest);
    assert ClientGood(rule, h, h.clients[fd]) && m in h.clients[fd].sent;
    assert m in h.journal;
    var i :| 0 <= i < |h.journal| && h.journal[i] == m;
    assert end.journal[i] == m;
    RunSettled(rule, h, rest);
  }

  /** Whatever arrived at any time is in the observer's stream; and in the log, unless that has been compacted. */
  lemma {:induction false} PartsAreTold(rule: PruneRule, h: State, visits: seq<Visit>, more: seq<Event>, m: Msg)
    requires Good(rule, h) && Settled(rule, h) && m in AllParts(rule, h, visits)
    ensures var end := Run(rule, h, AllEvents(visits) + more);
            m in end.journal && (Compacted(rule, end) || m in end.history)
    decreases |visits|
  {
    var v := visits[0];
    var h', rest := Run(rule, h, v.es), AllEvents(visits[1..]) + more;
    assert AllEvents(visits) + more == v.es + rest;
    RunConcat(rule, h, v.es, rest);
    RunSettled(rule, h, v.es);
    if m in Part(h', v.fd, v.k) {
      PartIsTold(rule, h', v.fd, v.k, rest, m);
    } else {
      PartsAreTold(rule, h', visits[1..], more, m);
    }
  }

  /** What lies between a stream in step and the observer's stream is in step. */
  lemma BetweenIsInStep(rule: PruneRule, history: seq<Msg>, stream: seq<Msg>, log: seq<Msg>, journal: seq<Msg>)
    requires InStep(rule, history, stream) && InStep(rule, history, journal) && Sorted(log)
    requires forall m :: m in stream ==> m in log
    requires forall m :: m in log ==> m in journal
    ensures InStep(rule, history, log)
  {
    SortedSameIsOne(log);
    SortedSameIsOne(journal);
    PartIsLeaveFinal(rule, log, journal);
    SortedBelowLast(journal);
    SortedBelowLast(log);
    assert LastSeq(log) == LastSeq(history) by {
      assert stream != [] ==> stream[|stream| - 1] in log;
      assert log != [] ==> log[|log| - 1] in journal;
    }
    InStepLeft(rule, history, stream);
    InStepLeft(rule, history, journal);
    assert Left(log) == Left(history);
    KeepSorted(rule, Left(log), log);
    KeepSorted(rule, Left(stream), stream);
    SortedUnique(Keep(rule, Left(log), log), Keep(rule, Left(stream), stream));
  }

  lemma FiledOnce(rule: PruneRule, received: seq<Msg>, journal: seq<Msg>)
    requires Sorted(journal) && LeaveFinal(rule, journal) && forall m :: m in received ==> m in journal
    ensures var log := FileAll([], received);
            Digest(rule, log) && Sorted(Once(log)) && forall m :: m in Once(log) <==> m in received
  {
    var log := FileAll([], received);
    FiledIsSortedPermutation([], received);
    assert forall m :: m in log <==> m in multiset(log);
    assert forall m :: m in received <==> m in multiset(received);
    SortedSameIsOne(journal);
    assert RepeatsOnly(log) by {
      forall i, j | 0 <= i < j < |log| ensures log[i] == log[j] || log[i].serial < log[j].serial {
        assert log[i] in log && log[j] in log;
      }
    }
    PartIsLeaveFinal(rule, log, journal);
    DigestIff(rule, log);
    OnceKeepsAll(log);
    OnceIsSorted(log);
  }

  /** The first compaction of a log with repeats leaves the compacted log of the hub it is in step with. */
  lemma CompactedHandover(rule: PruneRule, joins: JoinRule, history: seq<Msg>, log: seq<Msg>)
    requires RepeatsOnly(log) && InStep(rule, history, Once(log))
    requires Prune(rule, history) == history || Once(log) == history
    ensures Once(Prune(rule, log)) == Prune(rule, history)
    ensures Listing(joins, Prune(rule, log)) == Listing(joins, history)
       <==> Prune(rule, history) == history || Spares(rule, Once(log))
  {
    SameLeft(log);
    KeepOnce(rule, Left(log), log);
    OnceMeansTheSame(joins, Prune(rule, log), map[]);
    if Prune(rule, history) != history {
      PruneMeansSameIffSpares(rule, joins, history);
    }
  }

  /** Any handover but a spoke's first. The log filed over any number of broken connections and one that was delivered
      whole may repeat entries, but a hub opened with it behaves, but for repeats, like one opened with each entry once;
      that is a seed in step with the old hub's log, and means the old topology under the condition for agreement. */
  lemma LaterHandover(
      rule: PruneRule, joins: JoinRule, digest: seq<Msg>, visits: seq<Visit>, more: seq<Event>, fd: Fd, es: seq<Event>)
    requires Seed(rule, digest)
    requires fd in Run(rule, Open(digest), AllEvents(visits) + more).clients
    ensures var before := Run(rule, Open(digest), AllEvents(visits) + more);
            var log := FileAll([], AllParts(rule, Open(digest), visits) + before.clients[fd].sent);
            && Digest(rule, log) && InStep(rule, before.history, Once(log))
            && Collapse(Run(rule, Open(log), es)) == Run(rule, Open(Once(log)), es)
            && (Listing(joins, log) == Listing(joins, before.history)
                <==> Spares(rule, Once(log)) || Once(log) == before.history)
            && Once(Prune(rule, log)) == Prune(rule, before.history)
            && (Listing(joins, Prune(rule, log)) == Listing(joins, before.history)
                <==> Compacted(rule, before) || Spares(rule, Once(log)))
  {
    var before := Run(rule, Open(digest), AllEvents(visits) + more);
    var sent, parts := before.clients[fd].sent, AllParts(rule, Open(digest), visits);
    var log := FileAll([], parts + sent);
    OpenGood(rule, digest);
    RunSettled(rule, Open(digest), AllEvents(visits) + more);
    assert ClientGood(rule, before, before.clients[fd]);
    forall m | m in parts ensures m in before.journal && (Compacted(rule, before) || m in before.history) {
      PartsAreTold(rule, Open(digest), visits, more, m);
    }
    FiledOnce(rule, parts + sent, before.journal);
    BetweenIsInStep(rule, before.history, sent, Once(log), before.journal);
    if !Compacted(rule, before) {
      SortedUnique(Once(log), before.history);
    }
    StreamAgrees(rule, joins, before.history, Once(log));
    DigestIff(rule, log);
    OnceMeansTheSame(joins, log, map[]);
    CompactedHandover(rule, joins, before.history, log);
    RepeatsDoNotMatter(rule, joins, log, es);
  }
}
