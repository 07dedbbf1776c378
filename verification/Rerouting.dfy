/** What a node's routing table becomes when its spoke has lost its connection any number of times and is sent the
    whole log again. */
module Rerouting {
  import opened Messages
  import opened Topology
  import opened LogReading
  import opened CatchingUp
  import opened Naming
  import opened Spokes
  import opened IPCNodes
  import opened Pruning
  import opened Hub
  import opened HubRuns
  import opened Streams
  import opened Reconnecting
  import opened Handovers

  // ----- Names that earlier deliveries have left ---------------------------------------------------------------

  predicate JoinedAs(m: Msg, id: nat, said: Label) {
    IsJoin(m) && m.body.id == id && Label(m.body.name, m.body.address) == said
  }

  /** The names are those that deliveries of parts of the log can have left: its first, and one it says. */
  ghost predicate StaleNames(log: seq<Msg>, id: nat, names: Option<Names>) {
    names.Some? ==>
      && Joins(log, id) && JoinedAs(log[FirstJoin(log, id)], id, names.value.first)
      && exists m :: m in log && JoinedAs(m, id, names.value.told)
  }

  lemma {:induction false} NamesConcat(a: seq<Msg>, b: seq<Msg>, id: nat, names: Option<Names>)
    ensures NamesIn(a + b, id, names) == NamesIn(b, id, NamesIn(a, id, names))
  {
    if a == [] {
      assert a + b == b;
    } else {
      assert (a + b)[1..] == a[1..] + b;
      NamesConcat(a[1..], b, id, Hear(names, a[0], id));
    }
  }

  lemma {:induction false} NamesUntouched(log: seq<Msg>, id: nat, names: Option<Names>)
    requires !Joins(log, id) && !Leaves(log, id)
    ensures NamesIn(log, id, names) == names
  {
    if log != [] {
      TailMentions(log, id);
      NamesUntouched(log[1..], id, names);
    }
  }

  lemma TailMentions(log: seq<Msg>, id: nat)
    requires log != []
    ensures Joins(log, id) <==> Joins(log[1..], id) || (IsJoin(log[0]) && log[0].body.id == id)
    ensures Leaves(log, id) <==> Leaves(log[1..], id) || LeavesAs(log[0], id)
  {
    MembersOfTail(log);
    assert log[0] in log;
  }

  /** While a node stays joined its first name stays, and what was told last is what was told before or said since. */
  lemma {:induction false} NamesOnward(log: seq<Msg>, id: nat, names: Names)
    requires !Leaves(log, id)
    ensures var r := NamesIn(log, id, Some(names));
            && r.Some? && r.value.first == names.first
            && (r.value.told == names.told || exists m :: m in log && JoinedAs(m, id, r.value.told))
  {
    if log != [] {
      TailMentions(log, id);
      MembersOfTail(log);
      var next := Hear(Some(names), log[0], id).value;
      NamesOnward(log[1..], id, next);
      assert next.told == names.told || JoinedAs(log[0], id, next.told);
    }
  }

  /** Two histories of one node forget their difference at the next renaming. */
  lemma {:induction false} NamesConverge(log: seq<Msg>, id: nat, a: Names, b: Names)
    requires !Leaves(log, id) && a.first == b.first && a.latest == b.latest
    requires a.told == b.told || exists m, said :: m in log && JoinedAs(m, id, said) && said != a.first
    ensures NamesIn(log, id, Some(a)) == NamesIn(log, id, Some(b))
  {
    if a != b {
      TailMentions(log, id);
      MembersOfTail(log);
      NamesConverge(log[1..], id, Hear(Some(a), log[0], id).value, Hear(Some(b), log[0], id).value);
    }
  }

  /** The whole log over stale names is the whole log over none. */
  lemma NamesCatchUp(log: seq<Msg>, id: nat, names: Option<Names>)
    requires !Leaves(log, id) && StaleNames(log, id, names)
    ensures NamesIn(log, id, names) == NamesIn(log, id, None)
  {
    if names.Some? {
      var pre, join, post := Split(KeepFirst, log, id);
      var n, f := names.value, names.value.first;
      SplitNames(pre, join, post, id, names);
      SplitNames(pre, join, post, id, None);
      var m :| m in log && JoinedAs(m, id, n.told);
      assert m in pre || m == join || m in post;
      assert m !in pre;
      NamesConverge(post, id, Names(f, n.told, f), Names(f, f, f));
    }
  }

  lemma SplitNames(pre: seq<Msg>, join: Msg, post: seq<Msg>, id: nat, names: Option<Names>)
    requires !Joins(pre, id) && !Leaves(pre, id)
    ensures NamesIn(pre + [join] + post, id, names) == NamesIn(post, id, Hear(names, join, id))
  {
    NamesConcat(pre + [join], post, id, names);
    NamesConcat(pre, [join], id, names);
    NamesUntouched(pre, id, names);
    assert [join][1..] == [];
  }

  /** One more delivery, cut off anywhere, leaves names that the log has. */
  lemma NamesStayStale(log: seq<Msg>, id: nat, names: Option<Names>, k: nat)
    requires k <= |log| && !Leaves(log, id) && StaleNames(log, id, names)
    ensures StaleNames(log, id, NamesIn(log[..k], id, names))
  {
    var part := log[..k];
    PrefixMentions(log, k, id);
    assert forall m :: m in part ==> m in log;
    if names.Some? {
      NamesOnward(part, id, names.value);
    } else if Joins(part, id) {
      var pre, join, post := Split(KeepFirst, part, id);
      FirstJoinOfPrefix(log, k, id);
      SplitNames(pre, join, post, id, None);
      var said := Label(join.body.name, join.body.address);
      NamesOnward(post, id, Names(said, said, said));
      assert join in log && JoinedAs(join, id, said);
    } else {
      NamesUntouched(part, id, None);
    }
  }

  // ----- Over a run -------------------------------------------------------------------------------------------------

  lemma VisitNames(rule: PruneRule, h: State, fd: Fd, k: nat, rest: seq<Event>, names: Option<Names>, id: nat)
    requires Good(rule, h) && Settled(rule, h)
    requires var now := Run(rule, h, rest).history; id !in Left(now) && StaleNames(now, id, names)
    ensures var now := Run(rule, h, rest).history; StaleNames(now, id, NamesIn(Part(h, fd, k), id, names))
  {
    var now := Run(rule, h, rest).history;
    var n := PartStartsLog(rule, h, fd, k, rest);
    NamesStayStale(now, id, names, n);
    KeepNames(rule, Left(now), Part(h, fd, k), id, names);
  }

  lemma {:induction false} VisitsNames(
      rule: PruneRule, h: State, visits: seq<Visit>, more: seq<Event>, names: Option<Names>, id: nat)
    requires Good(rule, h) && Settled(rule, h)
    requires var now := Run(rule, h, AllEvents(visits) + more).history; id !in Left(now) && StaleNames(now, id, names)
    ensures var now := Run(rule, h, AllEvents(visits) + more).history;
            StaleNames(now, id, NamesIn(AllParts(rule, h, visits), id, names))
    decreases |visits|
  {
    if visits != [] {
      var v := visits[0];
      var h', rest := Run(rule, h, v.es), AllEvents(visits[1..]) + more;
      assert AllEvents(visits) + more == v.es + rest;
      RunConcat(rule, h, v.es, rest);
      RunSettled(rule, h, v.es);
      VisitNames(rule, h', v.fd, v.k, rest, names, id);
      var part := Part(h', v.fd, v.k);
      VisitsNames(rule, h', visits[1..], more, NamesIn(part, id, names), id);
      NamesConcat(part, AllParts(rule, h', visits[1..]), id, names);
    }
  }

  /** What arrived in all visits makes the stale table. */
  lemma {:induction false} PartsMakeTable(
      rule: PruneRule, joins: JoinRule, h: State, visits: seq<Visit>, table: Nodes)
    ensures TableAfter(rule, joins, h, visits, table) == Replay(joins, AllParts(rule, h, visits), table)
    decreases |visits|
  {
    if visits != [] {
      var h' := Run(rule, h, visits[0].es);
      var part := Part(h', visits[0].fd, visits[0].k);
      PartsMakeTable(rule, joins, h', visits[1..], Replay(joins, part, table));
      ReplayConcat(joins, part, AllParts(rule, h', visits[1..]), table);
    }
  }

  // ----- Routing ------------------------------------------------------------------------------------------------

  /** Starting with more subscriptions never ends with fewer. */
  lemma {:induction false} MoreStaysMore(rule: JoinRule, log: seq<Msg>, a: Nodes, b: Nodes, id: nat)
    requires id in a ==> id in b && a[id].subscriptions <= b[id].subscriptions
    ensures var a', b' := Replay(rule, log, a), Replay(rule, log, b);
            id in a' ==> id in b' && a'[id].subscriptions <= b'[id].subscriptions
    decreases |log|
  {
    if log != [] {
      MoreStaysMore(rule, log[1..], Apply(rule, a, log[0]), Apply(rule, b, log[0]), id);
    }
  }

  lemma SubscribedAgain(before: seq<Msg>, now: seq<Msg>, id: nat, topic: string)
    requires SaysSubscribed(now, id, topic)
    ensures SaysSubscribed(before + now, id, topic)
  {
    ReplaySubscribed(KeepFirst, now, id, topic);
    ReplaySubscribed(KeepFirst, before + now, id, topic);
    ReplayConcat(KeepFirst, before, now, map[]);
    MoreStaysMore(KeepFirst, now, map[], Replay(KeepFirst, before, map[]), id);
  }

  lemma SubscriberIsPresent(rule: PruneRule, before: seq<Msg>, now: seq<Msg>, id: nat, topic: string)
    requires LeaveFinal(rule, now) && SaysSubscribed(before + now, id, topic)
    ensures id !in Left(now)
  {
    ReplaySubscribed(KeepFirst, before + now, id, topic);
    ReplayConcat(KeepFirst, before, now, map[]);
    if id in Left(now) {
      LeftIsGone(rule, KeepFirst, now, Replay(KeepFirst, before, map[]), id);
    }
  }

  /** A subscriber under the names the log gives it. */
  lemma RoutesUnderNames(joins: JoinRule, received: seq<Msg>, now: seq<Msg>, id: nat, topic: string)
    requires NamesIn(received, id, None) == NamesIn(now, id, None)
    requires SaysSubscribed(now, id, topic) ==> SaysSubscribed(received, id, topic)
    ensures var names := NamesIn(now, id, None);
            && (SaysSubscribed(received, id, topic) ==> names.Some?)
            && (Routes(TableOf(joins, received), Replay(TakeLatest, now, map[]), id, topic)
                <==> || !SaysSubscribed(received, id, topic)
                     || if SaysSubscribed(now, id, topic) then joins == TakeLatest || !Misled(now, id)
                        else Counts(joins, names.value).address == "")
  {
    RoutingByLog(joins, received, topic, id);
    RoutingByLog(joins, now, topic, id);
    RoutingCorrect(joins, now, topic, id);
    ReplaySubscribed(TakeLatest, now, id, topic);
    ReplaySubscribed(TakeLatest, received, id, topic);
    ReplayJoined(TakeLatest, received, id);
    NamesAreSaid(received, id, "", "");
  }

  /** Routing of a node whose spoke's connections broke anywhere, any number of times, and that has been sent the whole
      log again: each topic goes to exactly the nodes the hub's log has as joined, subscribed and reachable, under the
      latest addresses there. The exceptions are exactly those of a first connection: as written, a subscriber
      readdressed and then given its first name and address back; and one the stale table lists as subscribed that the
      log does not, unless it has no address. */
  lemma RoutingAfterReconnect(
      rule: PruneRule, joins: JoinRule, digest: seq<Msg>, visits: seq<Visit>, more: seq<Event>, topic: string, id: nat)
    requires Seed(rule, digest)
    ensures var now := Run(rule, Open(digest), AllEvents(visits) + more).history;
            var received := AllParts(rule, Open(digest), visits) + now;
            var names := NamesIn(now, id, None);
            && (SaysSubscribed(received, id, topic) ==> names.Some?)
            && (Routes(TableOf(joins, received), Replay(TakeLatest, now, map[]), id, topic)
                <==> || !SaysSubscribed(received, id, topic)
                     || if SaysSubscribed(now, id, topic) then joins == TakeLatest || !Misled(now, id)
                        else Counts(joins, names.value).address == "")
  {
    var now := Run(rule, Open(digest), AllEvents(visits) + more).history;
    var before := AllParts(rule, Open(digest), visits);
    OpenGood(rule, digest);
    RunSettled(rule, Open(digest), AllEvents(visits) + more);
    if SaysSubscribed(now, id, topic) {
      SubscribedAgain(before, now, id, topic);
    }
    if SaysSubscribed(before + now, id, topic) {
      SubscriberIsPresent(rule, before, now, id, topic);
      VisitsNames(rule, Open(digest), visits, more, None, id);
      NamesCatchUp(now, id, NamesIn(before, id, None));
      NamesConcat(before, now, id, None);
      RoutesUnderNames(joins, before + now, now, id, topic);
    } else {
      RoutingByLog(joins, before + now, topic, id);
      ReplaySubscribed(TakeLatest, now, id, topic);
    }
  }
}
