/** A spoke's side of the protocol on values: filing what it receives, the callbacks it fires, and how it
    introduces itself to a hub. `TopologyManager` (the class) is proved against these functions. */
module Spokes {
  import opened Messages
  import opened Topology

  // ----- Filing received messages ------------------------------------------------------------------

  /** Insert in front of the first entry that is not older. */
  function File(log: seq<Msg>, m: Msg): seq<Msg> {
    if log == [] || log[0].serial >= m.serial then [m] + log else [log[0]] + File(log[1..], m)
  }

  function FileAll(log: seq<Msg>, received: seq<Msg>): seq<Msg>
    decreases |received|
  {
    if received == [] then log else FileAll(File(log, received[0]), received[1..])
  }

  lemma {:induction false} FileAt(log: seq<Msg>, m: Msg, at: nat)
    requires at <= |log|
    requires forall i :: 0 <= i < at ==> log[i].serial < m.serial
    requires at < |log| ==> m.serial <= log[at].serial
    ensures File(log, m) == log[..at] + [m] + log[at..]
  {
    if at > 0 {
      FileAt(log[1..], m, at - 1);
      assert log[..at] == [log[0]] + log[1..][..at - 1] && log[at..] == log[1..][at - 1..];
    }
  }

  lemma {:induction false} FileKeepsAll(log: seq<Msg>, m: Msg)
    ensures multiset(File(log, m)) == multiset(log) + multiset{m}
  {
    if log != [] {
      assert log == [log[0]] + log[1..];
      if log[0].serial < m.serial {
        FileKeepsAll(log[1..], m);
      }
    }
  }

  lemma {:induction false} FileKeepsOrder(log: seq<Msg>, m: Msg)
    requires WeaklySorted(log)
    ensures WeaklySorted(File(log, m))
  {
    if log != [] && log[0].serial < m.serial {
      FileKeepsOrder(log[1..], m);
      FileKeepsAll(log[1..], m);
      var rest := File(log[1..], m);
      forall i | 0 <= i < |rest| ensures log[0].serial <= rest[i].serial {
        assert rest[i] in multiset(rest);
        assert rest[i] == m || rest[i] in log[1..];
      }
    }
  }

  /** In whatever order messages arrive, the filed log is ordered and holds exactly what arrived. */
  lemma {:induction false} FiledIsSortedPermutation(log: seq<Msg>, received: seq<Msg>)
    requires WeaklySorted(log)
    ensures WeaklySorted(FileAll(log, received))
    ensures multiset(FileAll(log, received)) == multiset(log) + multiset(received)
    decreases |received|
  {
    if received != [] {
      FileKeepsOrder(log, received[0]);
      FileKeepsAll(log, received[0]);
      FiledIsSortedPermutation(File(log, received[0]), received[1..]);
      assert received == [received[0]] + received[1..];
      assert multiset(received) == multiset([received[0]]) + multiset(received[1..]);
    }
  }

  lemma FileNewest(log: seq<Msg>, m: Msg)
    requires AllBelow(log, m.serial)
    ensures File(log, m) == log + [m]
  {
    FileAt(log, m, |log|);
  }

  /** A strictly increasing stream is filed as it came. */
  lemma {:induction false} FiledInOrder(log: seq<Msg>, received: seq<Msg>)
    requires Sorted(log + received)
    ensures FileAll(log, received) == log + received
    decreases |received|
  {
    if received == [] {
      assert log + received == log;
    } else {
      var m := received[0];
      assert m == (log + received)[|log|];
      assert forall i :: 0 <= i < |log| ==> log[i] == (log + received)[i];
      FileNewest(log, m);
      assert (log + [m]) + received[1..] == log + received;
      FiledInOrder(log + [m], received[1..]);
    }
  }

  function Times(log: seq<Msg>, serial: nat): nat {
    if log == [] then 0 else (if log[0].serial == serial then 1 else 0) + Times(log[1..], serial)
  }

  lemma {:induction false} FileCounts(log: seq<Msg>, m: Msg, serial: nat)
    ensures Times(File(log, m), serial) == Times(log, serial) + if m.serial == serial then 1 else 0
  {
    if log != [] && log[0].serial < m.serial {
      FileCounts(log[1..], m, serial);
    }
  }

  lemma {:induction false} FileAllCounts(log: seq<Msg>, received: seq<Msg>, serial: nat)
    ensures Times(FileAll(log, received), serial) == Times(log, serial) + Times(received, serial)
    decreases |received|
  {
    if received != [] {
      FileCounts(log, received[0], serial);
      FileAllCounts(File(log, received[0]), received[1..], serial);
    }
  }

  lemma {:induction false} CountsZero(log: seq<Msg>, serial: nat)
    ensures Times(log, serial) == 0 <==> forall m :: m in log ==> m.serial != serial
  {
    if log != [] {
      MembersOfTail(log);
      CountsZero(log[1..], serial);
    }
  }

  ghost predicate Unrepeated(log: seq<Msg>) {
    forall serial :: Times(log, serial) <= 1
  }

  lemma {:induction false} StrictCountsOnce(log: seq<Msg>, serial: nat)
    requires Sorted(log)
    ensures Times(log, serial) <= 1
  {
    if log != [] {
      StrictCountsOnce(log[1..], serial);
      CountsZero(log[1..], serial);
      forall m | m in log[1..] ensures log[0].serial < m.serial {
        var i :| 0 <= i < |log[1..]| && log[1..][i] == m;
      }
    }
  }

  lemma {:induction false} RepeatCountsTwice(log: seq<Msg>, i: nat, j: nat)
    requires i < j < |log| && log[i].serial == log[j].serial
    ensures Times(log, log[i].serial) >= 2
  {
    if i > 0 {
      RepeatCountsTwice(log[1..], i - 1, j - 1);
    } else {
      CountsZero(log[1..], log[0].serial);
      assert log[1..][j - 1] in log[1..];
    }
  }

  /** A spoke's log is strictly increasing, as a new hub's digest should be, exactly when no number reached it
      twice: on its first connection yes, after being sent the whole log again no. */
  lemma FiledStrictlyIffUnrepeated(received: seq<Msg>)
    ensures Sorted(FileAll([], received)) <==> Unrepeated(received)
  {
    var filed := FileAll([], received);
    FiledIsSortedPermutation([], received);
    forall serial ensures Times(filed, serial) == Times(received, serial) {
      FileAllCounts([], received, serial);
    }
    if Sorted(filed) {
      forall serial ensures Times(received, serial) <= 1 {
        StrictCountsOnce(filed, serial);
      }
    } else {
      var i, j :| 0 <= i < j < |filed| && !(filed[i].serial < filed[j].serial);
      RepeatCountsTwice(filed, i, j);
    }
  }

  // ----- Callbacks --------------------------------------------------------------------------------------

  datatype Callback =
    | OnJoin(id: nat, name: string, address: string)
    | OnLeave(id: nat)
    | OnAnnounce(id: nat, topic: string, mime: string)
    | OnRetract(id: nat, topic: string)
    | OnSubscribe(id: nat, topic: string)
    | OnUnsubscribe(id: nat, topic: string)

  /** The callbacks one update fires: only for what it changes. */
  function Fire(nodes: Nodes, m: Msg): seq<Callback> {
    match m.body
    case NoBody => []
    case NodeChange(id, op, name, address) => (
      match op
      case Join =>
        if id !in nodes || nodes[id].name != name || nodes[id].address != address
        then [OnJoin(id, name, address)] else []
      case Leave => if id in nodes then [OnLeave(id)] else []
      case OtherNodeOp(_) => [])
    case TopicChange(topic, mime, id, verb, _) =>
      if id !in nodes then []
      else
        match verb
        case Announce =>
          if topic !in nodes[id].publications || nodes[id].publications[topic] != mime
          then [OnAnnounce(id, topic, mime)] else []
        case Retract => if topic in nodes[id].publications then [OnRetract(id, topic)] else []
        case Subscribe => if topic !in nodes[id].subscriptions then [OnSubscribe(id, topic)] else []
        case Unsubscribe => if topic in nodes[id].subscriptions then [OnUnsubscribe(id, topic)] else []
        case OtherTopicOp(_) => []
  }

  function FireAll(rule: JoinRule, log: seq<Msg>, nodes: Nodes): seq<Callback> {
    if log == [] then [] else Fire(nodes, log[0]) + FireAll(rule, log[1..], Apply(rule, nodes, log[0]))
  }

  // ----- The protocol of callbacks ---------------------------------------------------------------------

  /** Judging by the callbacks alone, has the node joined and not left? */
  predicate JoinedIn(trace: seq<Callback>, id: nat) {
    trace != [] &&
    var last := trace[|trace| - 1];
    if last.OnJoin? && last.id == id then true
    else if last == OnLeave(id) then false
    else JoinedIn(trace[..|trace| - 1], id)
  }

  predicate SubscribedIn(trace: seq<Callback>, id: nat, topic: string) {
    trace != [] &&
    var last := trace[|trace| - 1];
    if last == OnSubscribe(id, topic) then true
    else if last == OnUnsubscribe(id, topic) || last == OnLeave(id) then false
    else SubscribedIn(trace[..|trace| - 1], id, topic)
  }

  /** The mime type last announced and neither retracted nor ended by a leave. */
  function AnnouncedIn(trace: seq<Callback>, id: nat, topic: string): Option<string> {
    if trace == [] then None
    else
      var last := trace[|trace| - 1];
      if last.OnAnnounce? && last.id == id && last.topic == topic then Some(last.mime)
      else if last == OnRetract(id, topic) || last == OnLeave(id) then None
      else AnnouncedIn(trace[..|trace| - 1], id, topic)
  }

  /** What may be reported next, given all that was reported before. */
  predicate Permitted(before: seq<Callback>, cb: Callback) {
    match cb
    case OnJoin(_, _, _) => true
    case OnLeave(id) => JoinedIn(before, id)
    case OnAnnounce(id, topic, mime) => JoinedIn(before, id) && AnnouncedIn(before, id, topic) != Some(mime)
    case OnRetract(id, topic) => JoinedIn(before, id) && AnnouncedIn(before, id, topic).Some?
    case OnSubscribe(id, topic) => JoinedIn(before, id) && !SubscribedIn(before, id, topic)
    case OnUnsubscribe(id, topic) => JoinedIn(before, id) && SubscribedIn(before, id, topic)
  }

  ghost predicate FollowsProtocol(trace: seq<Callback>) {
    forall j :: 0 <= j < |trace| ==> Permitted(trace[..j], trace[j])
  }

  predicate SubscribedTo(nodes: Nodes, id: nat, topic: string) {
    id in nodes && topic in nodes[id].subscriptions
  }

  function PublishedAs(nodes: Nodes, id: nat, topic: string): Option<string> {
    if id in nodes && topic in nodes[id].publications then Some(nodes[id].publications[topic]) else None
  }

  /** The callbacks so far tell exactly what the node table holds. */
  ghost predicate Mirrors(trace: seq<Callback>, nodes: Nodes) {
    && (forall id :: JoinedIn(trace, id) <==> id in nodes)
    && (forall id, topic :: SubscribedIn(trace, id, topic) <==> SubscribedTo(nodes, id, topic))
    && (forall id, topic :: AnnouncedIn(trace, id, topic) == PublishedAs(nodes, id, topic))
  }

  lemma FirePermitted(trace: seq<Callback>, nodes: Nodes, m: Msg)
    requires Mirrors(trace, nodes)
    ensures |Fire(nodes, m)| <= 1
    ensures Fire(nodes, m) != [] ==> Permitted(trace, Fire(nodes, m)[0])
  {
    var id := Subject(m);
    assert JoinedIn(trace, id) <==> id in nodes;
    if m.body.TopicChange? {
      assert AnnouncedIn(trace, id, m.body.topic) == PublishedAs(nodes, id, m.body.topic);
      assert SubscribedIn(trace, id, m.body.topic) <==> SubscribedTo(nodes, id, m.body.topic);
    }
  }

  lemma Appended(trace: seq<Callback>, cb: Callback, id: nat, topic: string)
    ensures JoinedIn(trace + [cb], id)
       <==> (cb.OnJoin? && cb.id == id) || (cb != OnLeave(id) && JoinedIn(trace, id))
    ensures SubscribedIn(trace + [cb], id, topic) == (
              || cb == OnSubscribe(id, topic)
              || (cb != OnUnsubscribe(id, topic) && cb != OnLeave(id) && SubscribedIn(trace, id, topic)))
    ensures AnnouncedIn(trace + [cb], id, topic)
         == if cb.OnAnnounce? && cb.id == id && cb.topic == topic then Some(cb.mime)
            else if cb == OnRetract(id, topic) || cb == OnLeave(id) then None
            else AnnouncedIn(trace, id, topic)
  {
    assert (trace + [cb])[..|trace + [cb]| - 1] == trace;
  }

  /** A silent update changes nothing that callbacks can tell. */
  lemma SilentUpdate(rule: JoinRule, nodes: Nodes, m: Msg, id: nat, topic: string)
    requires Fire(nodes, m) == []
    ensures var nodes' := Apply(rule, nodes, m);
            && (id in nodes' <==> id in nodes)
            && (SubscribedTo(nodes', id, topic) <==> SubscribedTo(nodes, id, topic))
            && PublishedAs(nodes', id, topic) == PublishedAs(nodes, id, topic)
  {
  }

  /** A reported update changes just what its callback tells. */
  lemma ReportedUpdate(rule: JoinRule, nodes: Nodes, m: Msg, cb: Callback, id: nat, topic: string)
    requires Fire(nodes, m) == [cb]
    ensures var nodes' := Apply(rule, nodes, m);
            && (id in nodes' <==> (cb.OnJoin? && cb.id == id) || (cb != OnLeave(id) && id in nodes))
            && SubscribedTo(nodes', id, topic) == (
                 || cb == OnSubscribe(id, topic)
                 || (cb != OnUnsubscribe(id, topic) && cb != OnLeave(id) && SubscribedTo(nodes, id, topic)))
            && PublishedAs(nodes', id, topic)
               == if cb.OnAnnounce? && cb.id == id && cb.topic == topic then Some(cb.mime)
                  else if cb == OnRetract(id, topic) || cb == OnLeave(id) then None
                  else PublishedAs(nodes, id, topic)
  {
  }

  lemma FireMirrorsAt(rule: JoinRule, trace: seq<Callback>, nodes: Nodes, m: Msg, id: nat, topic: string)
    requires |Fire(nodes, m)| <= 1
    requires JoinedIn(trace, id) <==> id in nodes
    requires SubscribedIn(trace, id, topic) <==> SubscribedTo(nodes, id, topic)
    requires AnnouncedIn(trace, id, topic) == PublishedAs(nodes, id, topic)
    ensures var trace', nodes' := trace + Fire(nodes, m), Apply(rule, nodes, m);
            && (JoinedIn(trace', id) <==> id in nodes')
            && (SubscribedIn(trace', id, topic) <==> SubscribedTo(nodes', id, topic))
            && AnnouncedIn(trace', id, topic) == PublishedAs(nodes', id, topic)
  {
    var news := Fire(nodes, m);
    if news == [] {
      assert trace + news == trace;
      SilentUpdate(rule, nodes, m, id, topic);
    } else {
      assert news == [news[0]];
      Appended(trace, news[0], id, topic);
      ReportedUpdate(rule, nodes, m, news[0], id, topic);
    }
  }

  lemma FireMirrors(rule: JoinRule, trace: seq<Callback>, nodes: Nodes, m: Msg)
    requires Mirrors(trace, nodes)
    ensures Mirrors(trace + Fire(nodes, m), Apply(rule, nodes, m))
  {
    var trace', nodes' := trace + Fire(nodes, m), Apply(rule, nodes, m);
    FirePermitted(trace, nodes, m);
    forall id ensures JoinedIn(trace', id) <==> id in nodes' {
      FireMirrorsAt(rule, trace, nodes, m, id, "");
    }
    forall id, topic ensures SubscribedIn(trace', id, topic) <==> SubscribedTo(nodes', id, topic) {
      FireMirrorsAt(rule, trace, nodes, m, id, topic);
    }
    forall id, topic ensures AnnouncedIn(trace', id, topic) == PublishedAs(nodes', id, topic) {
      FireMirrorsAt(rule, trace, nodes, m, id, topic);
    }
  }

  lemma PermittedNext(trace: seq<Callback>, news: seq<Callback>)
    requires FollowsProtocol(trace) && |news| <= 1
    requires news != [] ==> Permitted(trace, news[0])
    ensures FollowsProtocol(trace + news)
  {
    var longer := trace + news;
    forall j | 0 <= j < |longer| ensures Permitted(longer[..j], longer[j]) {
      assert longer[..j] == if j < |trace| then trace[..j] else trace;
    }
  }

  ghost predicate Faithful(trace: seq<Callback>, nodes: Nodes) {
    FollowsProtocol(trace) && Mirrors(trace, nodes)
  }

  lemma FireFaithful(rule: JoinRule, trace: seq<Callback>, nodes: Nodes, m: Msg)
    requires Faithful(trace, nodes)
    ensures Faithful(trace + Fire(nodes, m), Apply(rule, nodes, m))
  {
    FireMirrors(rule, trace, nodes, m);
    FirePermitted(trace, nodes, m);
    PermittedNext(trace, Fire(nodes, m));
  }

  lemma {:induction false} FireAllFaithful(rule: JoinRule, trace: seq<Callback>, log: seq<Msg>, nodes: Nodes)
    requires Faithful(trace, nodes)
    ensures Faithful(trace + FireAll(rule, log, nodes), Replay(rule, log, nodes))
    decreases |log|
  {
    if log == [] {
      assert trace + [] == trace;
    } else {
      var news, nodes' := Fire(nodes, log[0]), Apply(rule, nodes, log[0]);
      FireFaithful(rule, trace, nodes, log[0]);
      FireAllFaithful(rule, trace + news, log[1..], nodes');
      assert trace + (news + FireAll(rule, log[1..], nodes')) == (trace + news) + FireAll(rule, log[1..], nodes');
    }
  }

  /** Whatever is received, in whatever order: a leave is reported only for a joined node, no topic is
      reported for a node that has not joined, and subscriptions and publications start before they end and
      are never started twice. And the reports add up to the node table. */
  lemma CallbacksFollowProtocol(rule: JoinRule, log: seq<Msg>)
    ensures FollowsProtocol(FireAll(rule, log, map[]))
    ensures Mirrors(FireAll(rule, log, map[]), Replay(rule, log, map[]))
  {
    FireAllFaithful(rule, [], log, map[]);
    assert [] + FireAll(rule, log, map[]) == FireAll(rule, log, map[]);
  }

  /** Nothing between `i` and `j` ends the subscription, so it still stands at `j`. */
  lemma {:induction false} SubscriptionStands(trace: seq<Callback>, i: nat, j: nat, id: nat, topic: string)
    requires i < j <= |trace| && trace[i] == OnSubscribe(id, topic)
    requires forall k :: i < k < j ==> trace[k] != OnUnsubscribe(id, topic) && trace[k] != OnLeave(id)
    ensures SubscribedIn(trace[..j], id, topic)
  {
    assert trace[..j][..j - 1] == trace[..j - 1];
    if i + 1 < j {
      SubscriptionStands(trace, i, j - 1, id, topic);
    }
  }

  /** Two reports of the same subscription are always separated by its end. */
  lemma SubscriptionsAlternate(rule: JoinRule, log: seq<Msg>, i: nat, j: nat, id: nat, topic: string)
    requires var trace := FireAll(rule, log, map[]);
             i < j < |trace| && trace[i] == trace[j] == OnSubscribe(id, topic)
    ensures var trace := FireAll(rule, log, map[]);
            exists k :: i < k < j && (trace[k] == OnUnsubscribe(id, topic) || trace[k] == OnLeave(id))
  {
    var trace := FireAll(rule, log, map[]);
    CallbacksFollowProtocol(rule, log);
    if forall k :: i < k < j ==> trace[k] != OnUnsubscribe(id, topic) && trace[k] != OnLeave(id) {
      SubscriptionStands(trace, i, j, id, topic);
      assert false;
    }
  }

  // ----- Introducing oneself ------------------------------------------------------------------------------

  function SelfJoin(id: nat, name: string, address: string): Msg {
    Msg(0, 0, NodeChange(id, Join, name, address))
  }

  function SelfAnnounce(id: nat, topic: string, mime: string): Msg {
    Msg(0, 0, TopicChange(topic, mime, id, Announce, ""))
  }

  function SelfSubscribe(id: nat, topic: string, mime: string): Msg {
    Msg(0, 0, TopicChange(topic, mime, id, Subscribe, ""))
  }

  function Announcements(id: nat, pubs: map<string, string>, topics: seq<string>): seq<Msg>
    requires forall t :: t in topics ==> t in pubs
  {
    if topics == [] then []
    else
      var n := |topics| - 1;
      Announcements(id, pubs, topics[..n]) + [SelfAnnounce(id, topics[n], pubs[topics[n]])]
  }

  /** One message object is refilled throughout, so a SUBSCRIBE carries the mime type of the ANNOUNCE before. */
  function Subscriptions(id: nat, mime: string, topics: seq<string>): seq<Msg> {
    if topics == [] then []
    else
      var n := |topics| - 1;
      Subscriptions(id, mime, topics[..n]) + [SelfSubscribe(id, topics[n], mime)]
  }

  function LeftoverMime(pubs: map<string, string>, topics: seq<string>): string
    requires forall t :: t in topics ==> t in pubs
  {
    if topics == [] then "" else pubs[topics[|topics| - 1]]
  }

  /** What a spoke says about itself: JOIN, then an ANNOUNCE and a SUBSCRIBE for all it stands for. */
  function Introduction(
      id: nat, name: string, address: string, own: Option<NodeInfo>, pubs: seq<string>, subs: seq<string>): seq<Msg>
    requires own.Some? ==> forall t :: t in pubs ==> t in own.value.publications
  {
    [SelfJoin(id, name, address)] +
    match own
    case None => []
    case Some(info) =>
      Announcements(id, info.publications, pubs)
      + Subscriptions(id, LeftoverMime(info.publications, pubs), subs)
  }

  lemma {:induction false} AnnouncementsReplay(
      rule: JoinRule, id: nat, pubs: map<string, string>, topics: seq<string>, nodes: Nodes)
    requires forall t :: t in topics ==> t in pubs
    requires id in nodes && nodes[id].publications == map[]
    ensures Replay(rule, Announcements(id, pubs, topics), nodes)
         == nodes[id := nodes[id].(publications := map t | t in topics :: pubs[t])]
  {
    if topics == [] {
      assert (map t | t in topics :: pubs[t]) == map[];
    } else {
      var n := |topics| - 1;
      var before := Announcements(id, pubs, topics[..n]);
      assert topics == topics[..n] + [topics[n]];
      AnnouncementsReplay(rule, id, pubs, topics[..n], nodes);
      ReplayAppend(rule, before, SelfAnnounce(id, topics[n], pubs[topics[n]]), nodes);
      assert (map t | t in topics[..n] :: pubs[t])[topics[n] := pubs[topics[n]]] == map t | t in topics :: pubs[t];
    }
  }

  lemma {:induction false} SubscriptionsReplay(
      rule: JoinRule, id: nat, mime: string, topics: seq<string>, nodes: Nodes)
    requires id in nodes
    ensures Replay(rule, Subscriptions(id, mime, topics), nodes)
         == nodes[id := nodes[id].(subscriptions := nodes[id].subscriptions + set t | t in topics)]
  {
    if topics == [] {
      assert nodes[id].subscriptions + (set t | t in topics) == nodes[id].subscriptions;
    } else {
      var n := |topics| - 1;
      assert topics == topics[..n] + [topics[n]];
      SubscriptionsReplay(rule, id, mime, topics[..n], nodes);
      ReplayAppend(rule, Subscriptions(id, mime, topics[..n]), SelfSubscribe(id, topics[n], mime), nodes);
      assert nodes[id].subscriptions + (set t | t in topics[..n]) + {topics[n]}
          == nodes[id].subscriptions + set t | t in topics;
    }
  }

  /** Round trip: wherever the spoke is unknown, replaying its introduction restores exactly the entry it holds
      for itself, under its own name and address, and touches no one else. */
  lemma IntroductionRestores(
      rule: JoinRule, id: nat, name: string, address: string, own: NodeInfo,
      pubs: seq<string>, subs: seq<string>, nodes: Nodes)
    requires Enumerates(pubs, own.publications.Keys) && Enumerates(subs, own.subscriptions)
    requires id !in nodes
    ensures Replay(rule, Introduction(id, name, address, Some(own), pubs, subs), nodes)
         == nodes[id := own.(name := name, address := address)]
  {
    var mime := LeftoverMime(own.publications, pubs);
    var join := SelfJoin(id, name, address);
    var announce, subscribe := Announcements(id, own.publications, pubs), Subscriptions(id, mime, subs);
    var joined := Apply(rule, nodes, join);
    ReplayConcat(rule, [join], announce + subscribe, nodes);
    ReplayAppend(rule, [], join, nodes);
    assert [] + [join] == [join];
    ReplayConcat(rule, announce, subscribe, joined);
    AnnouncementsReplay(rule, id, own.publications, pubs, joined);
    assert (map t | t in pubs :: own.publications[t]) == own.publications;
    SubscriptionsReplay(rule, id, mime, subs, Replay(rule, announce, joined));
    assert {} + (set t | t in subs) == own.subscriptions;
  }

  lemma {:induction false} AnnouncementsSay(id: nat, pubs: map<string, string>, topics: seq<string>)
    requires forall t :: t in topics ==> t in pubs
    ensures Announcements(id, pubs, topics) == seq(|topics|, i requires 0 <= i < |topics| =>
              Msg(0, 0, TopicChange(topics[i], pubs[topics[i]], id, Announce, "")))
  {
    if topics != [] {
      AnnouncementsSay(id, pubs, topics[..|topics| - 1]);
    }
  }

  lemma {:induction false} SubscriptionsSay(id: nat, mime: string, topics: seq<string>)
    ensures Subscriptions(id, mime, topics) == seq(|topics|, i requires 0 <= i < |topics| =>
              Msg(0, 0, TopicChange(topics[i], mime, id, Subscribe, "")))
  {
    if topics != [] {
      SubscriptionsSay(id, mime, topics[..|topics| - 1]);
    }
  }

  /** An introduction message by message, all fresh and about the spoke itself. First comes the JOIN, whether the spoke
      lists itself or not; if it does not, nothing else. Otherwise one ANNOUNCE for each of its publications and one
      SUBSCRIBE for each of its subscriptions, which carries the mime type announced last. */
  lemma IntroductionSays(
      id: nat, name: string, address: string, own: Option<NodeInfo>, pubs: seq<string>, subs: seq<string>)
    requires own.Some? ==> forall t :: t in pubs ==> t in own.value.publications
    ensures var out, join := Introduction(id, name, address, own, pubs, subs),
                             Msg(0, 0, NodeChange(id, Join, name, address));
            match own
            case None => out == [join]
            case Some(info) =>
              var mime := if pubs == [] then "" else info.publications[pubs[|pubs| - 1]];
              out == [join] + (
                seq(|pubs|, i requires 0 <= i < |pubs| =>
                  Msg(0, 0, TopicChange(pubs[i], info.publications[pubs[i]], id, Announce, "")))
                + seq(|subs|, i requires 0 <= i < |subs| =>
                  Msg(0, 0, TopicChange(subs[i], mime, id, Subscribe, ""))))
  {
    match own
    case None => assert [SelfJoin(id, name, address)] + [] == [SelfJoin(id, name, address)];
    case Some(info) =>
      AnnouncementsSay(id, info.publications, pubs);
      SubscriptionsSay(id, LeftoverMime(info.publications, pubs), subs);
  }

  /** So the hub takes every message of it as new, and as being about the spoke. */
  lemma IntroductionIsFresh(
      id: nat, name: string, address: string, own: Option<NodeInfo>, pubs: seq<string>, subs: seq<string>, m: Msg)
    requires own.Some? ==> forall t :: t in pubs ==> t in own.value.publications
    requires m in Introduction(id, name, address, own, pubs, subs)
    ensures m.serial == 0 && m.body != NoBody && Subject(m) == id
  {
    IntroductionSays(id, name, address, own, pubs, subs);
  }

  /** Where the spoke is unknown and does not list itself, its introduction lists it as a newcomer. */
  lemma IntroductionJoins(
      rule: JoinRule, id: nat, name: string, address: string, pubs: seq<string>, subs: seq<string>, nodes: Nodes)
    requires id !in nodes
    ensures Replay(rule, Introduction(id, name, address, None, pubs, subs), nodes)
         == nodes[id := NodeInfo(name, address, map[], {})]
  {
    var join := SelfJoin(id, name, address);
    ReplayAppend(rule, [], join, nodes);
    assert Introduction(id, name, address, None, pubs, subs) == [] + [join];
  }
}
