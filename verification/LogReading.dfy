/** What a log says about a node, read off the log itself: the last relevant entries decide. An independent
    account of the topology that replaying the log builds. */
module LogReading {
  import opened Messages
  import opened Topology
  import opened Spokes

  /** Some entry starts something, given what was logged before it, and no later entry ends it. */
  ghost predicate Standing(log: seq<Msg>, starts: (seq<Msg>, Msg) -> bool, ends: Msg -> bool) {
    exists i :: 0 <= i < |log| && starts(log[..i], log[i]) && forall k :: i < k < |log| ==> !ends(log[k])
  }

  lemma StandingAppend(log: seq<Msg>, m: Msg, starts: (seq<Msg>, Msg) -> bool, ends: Msg -> bool)
    ensures Standing(log + [m], starts, ends) <==> starts(log, m) || (Standing(log, starts, ends) && !ends(m))
  {
    var longer := log + [m];
    assert longer[..|log|] == log;
    if starts(log, m) {
      assert starts(longer[..|log|], longer[|log|]);
    }
    if Standing(log, starts, ends) && !ends(m) {
      var i :| 0 <= i < |log| && starts(log[..i], log[i]) && forall k :: i < k < |log| ==> !ends(log[k]);
      assert longer[..i] == log[..i] && longer[i] == log[i];
    }
    if Standing(longer, starts, ends) && !starts(log, m) {
      var i :| 0 <= i < |longer| && starts(longer[..i], longer[i]) && forall k :: i < k < |longer| ==> !ends(longer[k]);
      assert longer[..i] == log[..i] && longer[i] == log[i];
      assert longer[|log|] == m;
      assert forall k :: i < k < |log| ==> longer[k] == log[k];
    }
  }

  predicate LeavesAs(m: Msg, id: nat) {
    IsLeave(m) && m.body.id == id
  }

  /** A JOIN of `id` with no LEAVE after it. */
  ghost predicate SaysJoined(log: seq<Msg>, id: nat) {
    Standing(log, (_, m: Msg) => IsJoin(m) && m.body.id == id, m => LeavesAs(m, id))
  }

  predicate Asks(m: Msg, id: nat, verb: TopicOp, topic: string) {
    m.body.TopicChange? && m.body.nodeId == id && m.body.verb == verb && m.body.topic == topic
  }

  lemma {:induction false} ReplayJoined(rule: JoinRule, log: seq<Msg>, id: nat)
    ensures id in Replay(rule, log, map[]) <==> SaysJoined(log, id)
  {
    if log != [] {
      var n := |log| - 1;
      assert log == log[..n] + [log[n]];
      ReplayJoined(rule, log[..n], id);
      ReplayAppend(rule, log[..n], log[n], map[]);
      StandingAppend(log[..n], log[n], (_, m: Msg) => IsJoin(m) && m.body.id == id, m => LeavesAs(m, id));
    }
  }

  /** A SUBSCRIBE by a node joined at that point, followed by neither an UNSUBSCRIBE nor the node's LEAVE. */
  ghost predicate SaysSubscribed(log: seq<Msg>, id: nat, topic: string) {
    Standing(log,
      (before, m) => Asks(m, id, Subscribe, topic) && SaysJoined(before, id),
      m => Asks(m, id, Unsubscribe, topic) || LeavesAs(m, id))
  }

  lemma {:induction false} ReplaySubscribed(rule: JoinRule, log: seq<Msg>, id: nat, topic: string)
    ensures SubscribedTo(Replay(rule, log, map[]), id, topic) <==> SaysSubscribed(log, id, topic)
  {
    if log != [] {
      var n := |log| - 1;
      assert log == log[..n] + [log[n]];
      ReplayJoined(rule, log[..n], id);
      ReplaySubscribed(rule, log[..n], id, topic);
      ReplayAppend(rule, log[..n], log[n], map[]);
      StandingAppend(log[..n], log[n],
        (before, m) => Asks(m, id, Subscribe, topic) && SaysJoined(before, id),
        m => Asks(m, id, Unsubscribe, topic) || LeavesAs(m, id));
    }
  }

  /** An ANNOUNCE of this mime type by a node joined at that point, followed by no other mime type for the topic,
      no RETRACT and no LEAVE. */
  ghost predicate SaysPublished(log: seq<Msg>, id: nat, topic: string, mime: string) {
    Standing(log,
      (before, m) => Asks(m, id, Announce, topic) && m.body.mime == mime && SaysJoined(before, id),
      m => (Asks(m, id, Announce, topic) && m.body.mime != mime) || Asks(m, id, Retract, topic) || LeavesAs(m, id))
  }

  lemma PublishedNext(rule: JoinRule, nodes: Nodes, m: Msg, id: nat, topic: string, mime: string)
    ensures PublishedAs(Apply(rule, nodes, m), id, topic) == Some(mime) <==> (
              || (Asks(m, id, Announce, topic) && m.body.mime == mime && id in nodes)
              || (PublishedAs(nodes, id, topic) == Some(mime)
                  && !(Asks(m, id, Announce, topic) && m.body.mime != mime)
                  && !Asks(m, id, Retract, topic) && !LeavesAs(m, id)))
  {
    ApplyIsLocal(rule, nodes, nodes, m, id);
    if id in nodes && !LeavesAs(m, id) {
      ChangeIsApply(rule, nodes, m, id);
    }
  }

  lemma {:induction false} ReplayPublished(rule: JoinRule, log: seq<Msg>, id: nat, topic: string, mime: string)
    ensures PublishedAs(Replay(rule, log, map[]), id, topic) == Some(mime) <==> SaysPublished(log, id, topic, mime)
  {
    if log != [] {
      var n := |log| - 1;
      assert log == log[..n] + [log[n]];
      ReplayJoined(rule, log[..n], id);
      ReplayPublished(rule, log[..n], id, topic, mime);
      ReplayAppend(rule, log[..n], log[n], map[]);
      PublishedNext(rule, Replay(rule, log[..n], map[]), log[n], id, topic, mime);
      StandingAppend(log[..n], log[n],
        (before, m) => Asks(m, id, Announce, topic) && m.body.mime == mime && SaysJoined(before, id),
        m => (Asks(m, id, Announce, topic) && m.body.mime != mime) || Asks(m, id, Retract, topic) || LeavesAs(m, id));
    }
  }

  predicate JoinsUnder(m: Msg, id: nat, name: string, address: string) {
    IsJoin(m) && m.body.id == id && m.body.name == name && m.body.address == address
  }

  /** A JOIN under this name and address with no LEAVE after it. It must not be followed by a JOIN under others if
      the latest counts, and not be preceded by a standing JOIN if the first counts. */
  ghost predicate SaysReachable(rule: JoinRule, log: seq<Msg>, id: nat, name: string, address: string) {
    Standing(log,
      (before, m) => JoinsUnder(m, id, name, address) && (rule == TakeLatest || !SaysJoined(before, id)),
      m => LeavesAs(m, id)
        || (rule == TakeLatest && IsJoin(m) && m.body.id == id && !JoinsUnder(m, id, name, address)))
  }

  predicate ListedUnder(nodes: Nodes, id: nat, name: string, address: string) {
    id in nodes && nodes[id].name == name && nodes[id].address == address
  }

  lemma {:induction false} ReplayReachable(rule: JoinRule, log: seq<Msg>, id: nat, name: string, address: string)
    ensures ListedUnder(Replay(rule, log, map[]), id, name, address) <==> SaysReachable(rule, log, id, name, address)
  {
    if log != [] {
      var n := |log| - 1;
      assert log == log[..n] + [log[n]];
      ReplayJoined(rule, log[..n], id);
      ReplayReachable(rule, log[..n], id, name, address);
      ReplayAppend(rule, log[..n], log[n], map[]);
      StandingAppend(log[..n], log[n],
        (before, m) => JoinsUnder(m, id, name, address) && (rule == TakeLatest || !SaysJoined(before, id)),
        m => LeavesAs(m, id)
          || (rule == TakeLatest && IsJoin(m) && m.body.id == id && !JoinsUnder(m, id, name, address)));
    }
  }
}
