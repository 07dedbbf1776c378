/** A spoke that comes back with a stale table and is sent the whole log again: exactly when it catches up. */
module CatchingUp {
  import opened Messages
  import opened Topology
  import opened LogReading

  datatype Kind = Subscribing | Publishing

  /** The entry decides whether `id` has the topic. */
  predicate Speaks(m: Msg, id: nat, kind: Kind, topic: string) {
    && m.body.TopicChange? && m.body.topic == topic
    && if kind == Subscribing then SubscriptionOf(m, id) else PublicationOf(m, id)
  }

  /** And decides that it has. */
  predicate Starts(m: Msg, id: nat, kind: Kind, topic: string) {
    Speaks(m, id, kind, topic) && (m.body.verb == Subscribe || m.body.verb == Announce)
  }

  predicate Lists(info: NodeInfo, kind: Kind, topic: string) {
    if kind == Subscribing then topic in info.subscriptions else topic in info.publications
  }

  /** The topics of this kind that the log speaks of. */
  function Topics(log: seq<Msg>, id: nat, kind: Kind): set<string> {
    if kind == Subscribing then Subscribed(log, id) else Published(log, id)
  }

  predicate Joins(log: seq<Msg>, id: nat) {
    exists m :: m in log && IsJoin(m) && m.body.id == id
  }

  predicate Leaves(log: seq<Msg>, id: nat) {
    exists m :: m in log && LeavesAs(m, id)
  }

  /** The last word on the topic starts it, and was said before the node's first JOIN. Replayed from nothing it is
      dropped, replayed over a table that lists the node it takes effect. */
  ghost predicate Premature(log: seq<Msg>, id: nat, kind: Kind, topic: string) {
    Standing(log, (before, m) => Starts(m, id, kind, topic) && !Joins(before, id), m => Speaks(m, id, kind, topic))
  }

  ghost predicate OrderlyAt(log: seq<Msg>, id: nat) {
    Joins(log, id) && !Leaves(log, id) ==> forall kind, topic :: !Premature(log, id, kind, topic)
  }

  /** No node that joins and stays has a premature last word. */
  ghost predicate Orderly(log: seq<Msg>) {
    forall id :: OrderlyAt(log, id)
  }

  /** What earlier deliveries of parts of `log` can have left in a table for a node the log never lets leave. */
  ghost predicate StaleAt(rule: JoinRule, log: seq<Msg>, a: Nodes, id: nat) {
    id in a ==>
      && Joins(log, id)
      && (forall kind, topic :: Lists(a[id], kind, topic) ==> topic in Topics(log, id, kind))
      && (rule == KeepFirst ==>
            var join := log[FirstJoin(log, id)]; a[id].name == join.body.name && a[id].address == join.body.address)
  }

  function FirstJoin(log: seq<Msg>, id: nat): (at: nat)
    requires Joins(log, id)
    ensures at < |log| && IsJoin(log[at]) && log[at].body.id == id
    ensures !Joins(log[..at], id)
  {
    MembersOfTail(log);
    if IsJoin(log[0]) && log[0].body.id == id then 0
    else
      var at := 1 + FirstJoin(log[1..], id);
      assert log[..at] == [log[0]] + log[1..][..at - 1];
      at
  }

  // ----- Last words -------------------------------------------------------------------------------------

  lemma ListedNext(rule: JoinRule, nodes: Nodes, m: Msg, id: nat, kind: Kind, topic: string)
    requires id in nodes && !LeavesAs(m, id)
    ensures id in Apply(rule, nodes, m)
    ensures Lists(Apply(rule, nodes, m)[id], kind, topic)
       <==> Starts(m, id, kind, topic) || (Lists(nodes[id], kind, topic) && !Speaks(m, id, kind, topic))
  {
    ChangeIsApply(rule, nodes, m, id);
  }

  lemma Appended(front: seq<Msg>, m: Msg, id: nat, kind: Kind, topic: string)
    ensures Leaves(front + [m], id) <==> Leaves(front, id) || LeavesAs(m, id)
    ensures topic in Topics(front + [m], id, kind) <==> topic in Topics(front, id, kind) || Speaks(m, id, kind, topic)
  {
    var log := front + [m];
    assert forall x :: x in log <==> x in front || x == m;
    assert LeavesAs(m, id) ==> Leaves(log, id);
  }

  /** What a node lists after a replay during which it stays joined: what some last word started, and what it
      listed before and nobody spoke of. */
  lemma {:induction false} ListedAfter(
      rule: JoinRule, log: seq<Msg>, a: Nodes, id: nat, kind: Kind, topic: string)
    requires id in a && !Leaves(log, id)
    ensures id in Replay(rule, log, a)
    ensures Lists(Replay(rule, log, a)[id], kind, topic) == (
              || Standing(log, (_, m) => Starts(m, id, kind, topic), m => Speaks(m, id, kind, topic))
              || (Lists(a[id], kind, topic) && topic !in Topics(log, id, kind)))
  {
    if log != [] {
      var n := |log| - 1;
      assert log == log[..n] + [log[n]];
      Appended(log[..n], log[n], id, kind, topic);
      ListedAfter(rule, log[..n], a, id, kind, topic);
      ReplayAppend(rule, log[..n], log[n], a);
      ListedNext(rule, Replay(rule, log[..n], a), log[n], id, kind, topic);
      StandingAppend(log[..n], log[n], (_, m) => Starts(m, id, kind, topic), m => Speaks(m, id, kind, topic));
    }
  }

  /** The log around a node's first JOIN, which is the first time anything happens to the node. */
  lemma Split(rule: JoinRule, log: seq<Msg>, id: nat)
      returns (pre: seq<Msg>, join: Msg, post: seq<Msg>)
    requires Joins(log, id) && !Leaves(log, id)
    ensures pre == log[..FirstJoin(log, id)] && join == log[FirstJoin(log, id)]
    ensures log == pre + [join] + post && IsJoin(join) && join.body.id == id
    ensures !Joins(pre, id) && !Leaves(pre, id) && !Leaves(post, id)
    ensures forall kind, topic ::
              topic in Topics(log, id, kind) <==> topic in Topics(pre, id, kind) || topic in Topics(post, id, kind)
    ensures Lookup(Replay(rule, log, map[]), id)
         == Lookup(Replay(rule, post, map[id := Newcomer(join.body.name, join.body.address)]), id)
  {
    var at := FirstJoin(log, id);
    pre, join, post := log[..at], log[at], log[at + 1..];
    assert forall m :: m in log <==> m in pre || m == join || m in post;
    var before := Replay(rule, pre, map[]);
    StaysGone(rule, pre, map[], id);
    ReplayConcat(rule, pre + [join], post, map[]);
    ReplayAppend(rule, pre, join, map[]);
    ReplayIsLocal(rule, post, Apply(rule, before, join), map[id := Newcomer(join.body.name, join.body.address)], id);
  }

  /** No word on the topic after the JOIN, and a start as the last word before it: that is premature. */
  lemma StandsPremature(pre: seq<Msg>, join: Msg, post: seq<Msg>, id: nat, kind: Kind, topic: string)
    requires IsJoin(join) && !Joins(pre, id)
    requires Standing(pre, (_, m) => Starts(m, id, kind, topic), m => Speaks(m, id, kind, topic))
    requires topic !in Topics(post, id, kind)
    ensures Premature(pre + [join] + post, id, kind, topic)
  {
    var log := pre + [join] + post;
    var i :| 0 <= i < |pre| && Starts(pre[i], id, kind, topic)
          && forall k :: i < k < |pre| ==> !Speaks(pre[k], id, kind, topic);
    assert log[..i] == pre[..i] && log[i] == pre[i];
    assert forall m :: m in pre[..i] ==> m in pre;
    forall k | i < k < |log| ensures !Speaks(log[k], id, kind, topic) {
      if |pre| < k {
        assert log[k] == post[k - |pre| - 1] && log[k] in post;
      }
    }
  }

  // ----- Catching up, node by node --------------------------------------------------------------------------

  /** Whatever is left of earlier deliveries, replaying an orderly log over it overwrites all of it. */
  lemma CatchUpAt(rule: JoinRule, log: seq<Msg>, a: Nodes, id: nat)
    requires OrderlyAt(log, id)
    requires !Leaves(log, id) ==> StaleAt(rule, log, a, id)
    ensures Lookup(Replay(rule, log, a), id) == Lookup(Replay(rule, log, map[]), id)
  {
    if leave :| leave in log && LeavesAs(leave, id) {
      LeaveResets(rule, log, leave, a, map[]);
    } else if id in a {
      var pre, join, post := Split(rule, log, id);
      var b := Replay(rule, pre, a);
      var c := Apply(rule, b, join);
      Reached(rule, pre, a, id);
      ReplayConcat(rule, pre + [join], post, a);
      ReplayAppend(rule, pre, join, a);
      var once: Nodes := map[id := Newcomer(join.body.name, join.body.address)];
      forall kind, topic | Lists(c[id], kind, topic) ensures topic in Topics(post, id, kind) {
        ListedAfter(rule, pre, a, id, kind, topic);
        if topic !in Topics(post, id, kind) {
          if Standing(pre, (_, m) => Starts(m, id, kind, topic), m => Speaks(m, id, kind, topic)) {
            StandsPremature(pre, join, post, id, kind, topic);
          }
        }
      }
      NothingElseListed(c[id], once[id], post, id);
      Converge(rule, post, c, once, id);
    } else {
      ReplayIsLocal(rule, log, a, map[], id);
    }
  }

  lemma NothingElseListed(info: NodeInfo, newcomer: NodeInfo, post: seq<Msg>, id: nat)
    requires newcomer == Newcomer(info.name, info.address)
    requires forall kind, topic :: Lists(info, kind, topic) ==> topic in Topics(post, id, kind)
    ensures AgreeUpTo(info, newcomer, post, id)
  {
    forall t | t in info.subscriptions ensures t in Subscribed(post, id) {
      assert Lists(info, Subscribing, t);
    }
    forall t | t in info.publications ensures t in Published(post, id) {
      assert Lists(info, Publishing, t);
    }
    assert info.subscriptions - Subscribed(post, id) == {} == newcomer.subscriptions - Subscribed(post, id);
    assert info.publications - Published(post, id) == map[] == newcomer.publications - Published(post, id);
  }

  lemma JoinInFront(log: seq<Msg>, at: nat, i: nat, id: nat)
    requires at < |log| && i <= |log| && IsJoin(log[at]) && log[at].body.id == id
    ensures at < i ==> Joins(log[..i], id)
  {
    if at < i {
      assert log[..i][at] == log[at];
    }
  }

  lemma PrematureIsEarly(pre: seq<Msg>, join: Msg, post: seq<Msg>, id: nat, kind: Kind, topic: string)
    requires IsJoin(join) && join.body.id == id
    requires Premature(pre + [join] + post, id, kind, topic)
    ensures topic !in Topics(post, id, kind)
  {
    var log := pre + [join] + post;
    var i :| 0 <= i < |log| && Starts(log[i], id, kind, topic) && !Joins(log[..i], id)
          && forall k :: i < k < |log| ==> !Speaks(log[k], id, kind, topic);
    assert log[|pre|] == join;
    JoinInFront(log, |pre|, i, id);
    forall m | m in post ensures !Speaks(m, id, kind, topic) {
      var j :| 0 <= j < |post| && post[j] == m;
      assert log[|pre| + 1 + j] == m;
    }
  }

  /** A premature last word shows when the log is replayed over any table that lists the node. */
  lemma PrematureShows(rule: JoinRule, log: seq<Msg>, a: Nodes, id: nat)
    requires !OrderlyAt(log, id) && id in a
    ensures Lookup(Replay(rule, log, a), id) != Lookup(Replay(rule, log, map[]), id)
  {
    var kind, topic :| Premature(log, id, kind, topic);
    var pre, join, post := Split(rule, log, id);
    PrematureIsEarly(pre, join, post, id, kind, topic);
    ListedAfter(rule, post, map[id := Newcomer(join.body.name, join.body.address)], id, kind, topic);
    ListedAfter(rule, log, a, id, kind, topic);
    assert Standing(log, (_, m) => Starts(m, id, kind, topic), m => Speaks(m, id, kind, topic));
    assert !Standing(post, (_, m) => Starts(m, id, kind, topic), m => Speaks(m, id, kind, topic));
  }

  lemma JoinedStays(rule: JoinRule, log: seq<Msg>, id: nat)
    requires Joins(log, id) && !Leaves(log, id)
    ensures id in Replay(rule, log, map[])
  {
    var pre, join, post := Split(rule, log, id);
    Reached(rule, post, map[id := Newcomer(join.body.name, join.body.address)], id);
  }

  lemma FirstJoinOfPrefix(log: seq<Msg>, k: nat, id: nat)
    requires k <= |log| && Joins(log[..k], id)
    ensures Joins(log, id) && FirstJoin(log[..k], id) == FirstJoin(log, id)
  {
    var i := FirstJoin(log[..k], id);
    assert log[i] in log;
    var j := FirstJoin(log, id);
    JoinInFront(log, i, j, id);
    JoinInFront(log[..k], j, i, id);
  }

  lemma PrefixMentions(log: seq<Msg>, k: nat, id: nat)
    requires k <= |log|
    ensures Leaves(log[..k], id) ==> Leaves(log, id)
    ensures forall kind, topic :: topic in Topics(log[..k], id, kind) ==> topic in Topics(log, id, kind)
  {
    assert forall m :: m in log[..k] ==> m in log;
  }

  /** One more delivery, cut off anywhere, leaves nothing behind that the log does not mention. */
  lemma StaleStays(rule: JoinRule, log: seq<Msg>, a: Nodes, id: nat, k: nat)
    requires k <= |log| && !Leaves(log, id) && StaleAt(rule, log, a, id)
    ensures StaleAt(rule, log, Replay(rule, log[..k], a), id)
  {
    var part := log[..k];
    PrefixMentions(log, k, id);
    if id in a {
      Reached(rule, part, a, id);
    } else if Joins(part, id) {
      var pre, join, post := Split(rule, part, id);
      FirstJoinOfPrefix(log, k, id);
      ReplayIsLocal(rule, part, a, map[], id);
      Reached(rule, post, map[id := Newcomer(join.body.name, join.body.address)], id);
    } else {
      StaysGone(rule, part, a, id);
    }
  }

  // ----- Catching up ------------------------------------------------------------------------------------------

  /** The table after deliveries of `log` that broke off after so many messages each. */
  function AfterCuts(rule: JoinRule, log: seq<Msg>, cuts: seq<nat>): Nodes
    requires forall i :: 0 <= i < |cuts| ==> cuts[i] <= |log|
  {
    if cuts == [] then map[]
    else
      var n := |cuts| - 1;
      Replay(rule, log[..cuts[n]], AfterCuts(rule, log, cuts[..n]))
  }

  lemma {:induction false} CutsAreStale(rule: JoinRule, log: seq<Msg>, cuts: seq<nat>, id: nat)
    requires forall i :: 0 <= i < |cuts| ==> cuts[i] <= |log|
    requires !Leaves(log, id)
    ensures StaleAt(rule, log, AfterCuts(rule, log, cuts), id)
  {
    if cuts != [] {
      var n := |cuts| - 1;
      CutsAreStale(rule, log, cuts[..n], id);
      StaleStays(rule, log, AfterCuts(rule, log, cuts[..n]), id, cuts[n]);
    }
  }

  /** After any number of cut-off deliveries the log, delivered whole, leads where it leads from nothing, if and only
      if it is orderly about the nodes listed by then. */
  lemma CatchUpRepeated(rule: JoinRule, log: seq<Msg>, cuts: seq<nat>)
    requires forall i :: 0 <= i < |cuts| ==> cuts[i] <= |log|
    ensures var stale := AfterCuts(rule, log, cuts);
            Replay(rule, log, stale) == Replay(rule, log, map[]) <==> forall id :: id in stale ==> OrderlyAt(log, id)
  {
    var stale := AfterCuts(rule, log, cuts);
    forall id
      ensures Lookup(Replay(rule, log, stale), id) == Lookup(Replay(rule, log, map[]), id)
         <==> (id in stale ==> OrderlyAt(log, id))
    {
      if !Leaves(log, id) {
        CutsAreStale(rule, log, cuts, id);
      }
      CaughtUpIff(rule, log, stale, id);
    }
    SameIff(Replay(rule, log, stale), Replay(rule, log, map[]));
  }

  lemma SameIff(a: Nodes, b: Nodes)
    ensures a == b <==> forall id :: Lookup(a, id) == Lookup(b, id)
  {
    if forall id :: Lookup(a, id) == Lookup(b, id) {
      SameEverywhere(a, b);
    }
  }

  lemma CaughtUpIff(rule: JoinRule, log: seq<Msg>, stale: Nodes, id: nat)
    requires !Leaves(log, id) ==> StaleAt(rule, log, stale, id)
    ensures Lookup(Replay(rule, log, stale), id) == Lookup(Replay(rule, log, map[]), id)
       <==> (id in stale ==> OrderlyAt(log, id))
  {
    if id !in stale {
      ReplayIsLocal(rule, log, stale, map[], id);
    } else if OrderlyAt(log, id) {
      CatchUpAt(rule, log, stale, id);
    } else {
      PrematureShows(rule, log, stale, id);
    }
  }

  /** Exactly the orderly logs bring a spoke that was cut off anywhere, and is sent the whole log again, to where a
      spoke that starts from nothing ends. */
  lemma CatchUp(rule: JoinRule, log: seq<Msg>)
    ensures (forall k :: 0 <= k <= |log| ==>
               Replay(rule, log, Replay(rule, log[..k], map[])) == Replay(rule, log, map[]))
       <==> Orderly(log)
  {
    if Orderly(log) {
      forall k | 0 <= k <= |log|
        ensures Replay(rule, log, Replay(rule, log[..k], map[])) == Replay(rule, log, map[])
      {
        CatchUpRepeated(rule, log, [k]);
        assert [k][..0] == [];
      }
    } else {
      var id :| !OrderlyAt(log, id);
      JoinedStays(rule, log, id);
      PrematureShows(rule, log, Replay(rule, log, map[]), id);
      assert log[..|log|] == log;
    }
  }

  /** A SUBSCRIBE in front of its JOIN, with nothing said about the topic later: dropped the first time, effective
      the second time. */
  lemma PrematureSubscribe(rule: JoinRule)
    ensures var log := [Msg(1, 1, TopicChange("t", "", 7, Subscribe, "")), Msg(2, 2, NodeChange(7, Join, "n", "a"))];
            && !Orderly(log)
            && Replay(rule, log, Replay(rule, log, map[])) != Replay(rule, log, map[])
  {
    var sub, join := Msg(1, 1, TopicChange("t", "", 7, Subscribe, "")), Msg(2, 2, NodeChange(7, Join, "n", "a"));
    var log := [sub] + [join] + [];
    assert log == [sub, join] && join in log;
    assert Standing([sub], (_, m) => Starts(m, 7, Subscribing, "t"), m => Speaks(m, 7, Subscribing, "t")) by {
      assert Starts([sub][0], 7, Subscribing, "t");
    }
    StandsPremature([sub], join, [], 7, Subscribing, "t");
    assert !OrderlyAt(log, 7);
    JoinedStays(rule, log, 7);
    PrematureShows(rule, log, Replay(rule, log, map[]), 7);
  }
}
