/** Concrete runs that show where the program falls short of its evident intent. */
module Scenarios {
  import opened Messages
  import opened Topology
  import opened Pruning
  import opened Hub
  import opened HubRuns

  /** A node that has joined under id 7, and one that has left under id 1. */
  function Lopsided(): seq<Msg> {
    [Msg(1, 1, NodeChange(7, Join, "n", "a")), Msg(2, 2, TopicChange("t", "", 7, Subscribe, "")), LeaveOf(3, 1)]
  }

  lemma KeepHead(rule: PruneRule, left: set<nat>, m: Msg, rest: seq<Msg>)
    requires Kept(rule, left, m)
    ensures Keep(rule, left, [m] + rest) == [m] + Keep(rule, left, rest)
  {
    assert ([m] + rest)[1..] == rest;
  }

  lemma DropHead(rule: PruneRule, left: set<nat>, m: Msg, rest: seq<Msg>)
    requires !Kept(rule, left, m)
    ensures Keep(rule, left, [m] + rest) == Keep(rule, left, rest)
  {
    assert ([m] + rest)[1..] == rest;
  }

  lemma KeepOne(rule: PruneRule, left: set<nat>, m: Msg)
    requires Kept(rule, left, m)
    ensures Keep(rule, left, [m]) == [m]
  {
    KeepHead(rule, left, m, []);
    assert [m] + [] == [m];
  }

  lemma KeepSecond(rule: PruneRule, left: set<nat>, b: Msg, c: Msg, two: seq<Msg>)
    requires two == [b, c] && !Kept(rule, left, b) && Kept(rule, left, c)
    ensures Keep(rule, left, two) == [c]
  {
    KeepOne(rule, left, c);
    DropHead(rule, left, b, [c]);
    assert two == [b] + [c];
  }

  lemma KeepThree(rule: PruneRule, left: set<nat>, a: Msg, b: Msg, c: Msg, three: seq<Msg>)
    requires three == [a, b, c] && Kept(rule, left, a) && !Kept(rule, left, b) && Kept(rule, left, c)
    ensures Keep(rule, left, three) == [a, c]
  {
    KeepSecond(rule, left, b, c, [b, c]);
    KeepHead(rule, left, a, [b, c]);
    assert three == [a] + [b, c] && [a, c] == [a] + [c];
  }

  lemma KeepFour(rule: PruneRule, left: set<nat>, log: seq<Msg>, a: Msg, b: Msg, c: Msg, d: Msg)
    requires log == [a, b, c]
    requires Kept(rule, left, a) && !Kept(rule, left, b) && Kept(rule, left, c) && Kept(rule, left, d)
    ensures Keep(rule, left, log + [d]) == [a, c] + [d]
  {
    KeepThree(rule, left, a, b, c, log);
    KeepOne(rule, left, d);
    KeepConcat(rule, left, log, [d]);
  }

  lemma ReplayThree(joins: JoinRule, a: Msg, b: Msg, c: Msg, nodes: Nodes)
    ensures Replay(joins, [a, b, c], nodes) == Apply(joins, Apply(joins, Apply(joins, nodes, a), b), c)
  {
    assert [a, b, c] == ([] + [a] + [b]) + [c];
    ReplayAppend(joins, [] + [a] + [b], c, nodes);
    ReplayAppend(joins, [] + [a], b, nodes);
    ReplayAppend(joins, [], a, nodes);
  }

  lemma LopsidedPruned()
    ensures var log, gone := Lopsided(), LeaveOf(4, 0);
            && Prune(AsWritten, log + [gone]) == [log[0], log[2], gone]
            && Surviving(AsWritten, log, [gone]) == [gone]
  {
    var a, b, c, d := Lopsided()[0], Lopsided()[1], Lopsided()[2], LeaveOf(4, 0);
    var log := [a, b, c] + [d];
    assert Lopsided() == [a, b, c];
    assert log[2] in log && 1 in Left(log);
    assert 7 !in Left(log);
    KeepFour(AsWritten, Left(log), [a, b, c], a, b, c, d);
    assert [a, c] + [d] == [a, c, d];
    KeepAll(AsWritten, Left(log), [d]);
  }

  lemma LopsidedMeans(joins: JoinRule)
    ensures var log, gone := Lopsided(), LeaveOf(4, 0);
            Replay(joins, log + [gone], map[]) != Replay(joins, [log[0], log[2], gone], map[])
  {
    var a, b, c, d := Lopsided()[0], Lopsided()[1], Lopsided()[2], LeaveOf(4, 0);
    ReplayThree(joins, a, b, c, map[]);
    ReplayAppend(joins, [a, b, c], d, map[]);
    ReplayThree(joins, a, c, d, map[]);
    var full, short := Replay(joins, [a, b, c] + [d], map[]), Replay(joins, [a, c, d], map[]);
    assert Lopsided() == [a, b, c];
    assert 7 in full && "t" in full[7].subscriptions;
    assert 7 in short && "t" !in short[7].subscriptions;
  }

  lemma RunFour(rule: PruneRule, h: State, a: Event, b: Event, c: Event, d: Event)
    ensures Run(rule, h, [a, b, c, d]) == Next(rule, Next(rule, Next(rule, Next(rule, h, a), b), c), d)
  {
    assert [a, b, c, d][1..] == [b, c, d];
    RunThree(rule, Next(rule, h, a), b, c, d);
  }

  lemma StrangerLeaves(rule: PruneRule, h: State, digest: seq<Msg>)
    requires Good(rule, h) && 3 in h.clients && 4 in h.clients && h.clients[4].nodeId == 0
    requires h.history == digest && h.clients[3].sent == digest
    ensures var h', gone := Next(rule, h, Disconnected(4)), LeaveOf(h.next, 0);
            && 3 in h'.clients && (5 in h'.clients <==> 5 in h.clients)
            && h'.history == Prune(rule, digest + [gone])
            && h'.clients[3].sent == digest + Surviving(rule, digest, [gone])
  {
    StepEffect(rule, h, Disconnected(4));
  }

  lemma TwoConnect(rule: PruneRule, digest: seq<Msg>) returns (h: State)
    requires Seed(rule, digest)
    ensures h == Next(rule, Next(rule, Open(digest), Connected(3)), Connected(4))
    ensures Good(rule, h) && h.next == Open(digest).next && h.history == digest && h.clients.Keys == {3, 4}
    ensures h.clients[3].sent == digest && h.clients[4].nodeId == 0
  {
    var h1 := Connect(Open(digest), 3);
    OpenGood(rule, digest);
    ConnectGood(rule, Open(digest), 3);
    ConnectGood(rule, h1, 4);
    h := Connect(h1, 4);
  }

  /** A stranger connects and leaves: who was there before is sent its LEAVE, who comes later the compacted log. */
  lemma StrangerPasses(rule: PruneRule, digest: seq<Msg>)
    requires Seed(rule, digest)
    ensures var h := Run(rule, Open(digest), [Connected(3), Connected(4), Disconnected(4), Connected(5)]);
            var gone := LeaveOf(Open(digest).next, 0);
            && 3 in h.clients && h.clients[3].sent == digest + Surviving(rule, digest, [gone])
            && 5 in h.clients && h.clients[5].sent == Prune(rule, digest + [gone])
  {
    var h2 := TwoConnect(rule, digest);
    StrangerLeaves(rule, h2, digest);
    RunFour(rule, Open(digest), Connected(3), Connected(4), Disconnected(4), Connected(5));
  }

  lemma LopsidedDiverges(joins: JoinRule)
    ensures var log, gone := Lopsided(), LeaveOf(4, 0);
            Replay(joins, log + Surviving(AsWritten, log, [gone]), map[])
            != Replay(joins, Prune(AsWritten, log + [gone]), map[])
  {
    LopsidedPruned();
    LopsidedMeans(joins);
  }

  lemma LopsidedIsSeed()
    ensures Seed(AsWritten, Lopsided()) && Open(Lopsided()).next == 4
  {
  }

  /** With compaction as written, a LEAVE for id 1 strikes out every node's topics: a client that connected
      before and one that connects after are sent logs that mean different topologies. */
  lemma AsWrittenDiverges(joins: JoinRule)
    ensures Seed(AsWritten, Lopsided())
    ensures var h := Run(AsWritten, Open(Lopsided()), [Connected(3), Connected(4), Disconnected(4), Connected(5)]);
            && 3 in h.clients && 5 in h.clients
            && Replay(joins, h.clients[3].sent, map[]) != Replay(joins, h.clients[5].sent, map[])
  {
    LopsidedIsSeed();
    LopsidedDiverges(joins);
    StrangerPasses(AsWritten, Lopsided());
  }

  /** A log that holds just the LEAVE of node 7. */
  function Departed(): seq<Msg> {
    [LeaveOf(2, 7)]
  }

  lemma DepartedStays(rule: PruneRule, m: Msg)
    requires IsJoin(m) && m.body.id == 7
    ensures Prune(rule, Departed() + [m]) == Departed()
  {
    assert Left(Departed() + [m]) == {7} by {
      assert (Departed() + [m])[0] in Departed() + [m];
    }
    KeepConcat(rule, {7}, Departed(), [m]);
    assert Keep(rule, {7}, [m]) == [] && Keep(rule, {7}, Departed()) == Departed();
  }

  /** A JOIN for a departed node takes a number and is struck out at once. */
  lemma JoinAfterLeave(rule: PruneRule, h: State, fd: Fd, m: Msg, uid: nat)
    requires Good(rule, h) && fd in h.clients && h.history == Departed()
    requires IsJoin(m) && m.body.id == 7 && m.serial == 0 && !Redundant(m, h.clients[fd].offered)
    ensures var h' := Next(rule, h, Received(fd, m, uid));
            && Good(rule, h') && fd in h'.clients && h'.history == Departed() && h'.next == h.next + 1
            && h'.clients[fd].offered == h.clients[fd].offered + [m.(serial := h.next, uid := uid)]
  {
    DataGood(rule, h, fd, m, uid);
    DepartedStays(rule, m.(serial := h.next, uid := uid));
  }

  /** The counter can go backwards: two numbers taken by JOINs that were struck out are free again once an old
      message just above the log is accepted. */
  lemma CounterDrops(rule: PruneRule)
    ensures var one, two := Msg(0, 0, NodeChange(7, Join, "n", "a")), Msg(0, 0, NodeChange(7, Join, "m", "a"));
            var es := [Connected(4), Received(4, one, 1), Received(4, two, 2)];
            var h := Run(rule, Open(Departed()), es);
            var e := Received(4, Msg(3, 9, NodeChange(8, Join, "o", "b")), 0);
            && Seed(rule, Departed()) && Enabled(h, e)
            && h.next == 5 && Step(rule, h, e).next == 4
  {
    var one, two := Msg(0, 0, NodeChange(7, Join, "n", "a")), Msg(0, 0, NodeChange(7, Join, "m", "a"));
    assert one.body != two.body by {
      assert "n"[0] != "m"[0];
    }
    TwoStruckJoins(rule, one, two);
  }

  lemma TwoStruckJoins(rule: PruneRule, one: Msg, two: Msg)
    requires IsJoin(one) && one.body.id == 7 && one.serial == 0
    requires IsJoin(two) && two.body.id == 7 && two.serial == 0 && one.body != two.body
    ensures Seed(rule, Departed())
    ensures var h := Run(rule, Open(Departed()), [Connected(4), Received(4, one, 1), Received(4, two, 2)]);
            && 4 in h.clients && h.history == Departed() && h.next == 5
  {
    var h0 := Open(Departed());
    var h1 := Connect(h0, 4);
    OpenGood(rule, Departed());
    ConnectGood(rule, h0, 4);
    RunThree(rule, h0, Connected(4), Received(4, one, 1), Received(4, two, 2));
    TwoJoinsAfterLeave(rule, h1, 4, one, two);
  }

  lemma TwoJoinsAfterLeave(rule: PruneRule, h: State, fd: Fd, one: Msg, two: Msg)
    requires Good(rule, h) && fd in h.clients && h.history == Departed() && h.clients[fd].offered == []
    requires IsJoin(one) && one.body.id == 7 && one.serial == 0
    requires IsJoin(two) && two.body.id == 7 && two.serial == 0 && one.body != two.body
    ensures var h' := Next(rule, Next(rule, h, Received(fd, one, 1)), Received(fd, two, 2));
            fd in h'.clients && h'.history == Departed() && h'.next == h.next + 2
  {
    JoinAfterLeave(rule, h, fd, one, 1);
    SecondJoin(rule, h, Next(rule, h, Received(fd, one, 1)), fd, one, two);
  }

  lemma SecondJoin(rule: PruneRule, h: State, mid: State, fd: Fd, one: Msg, two: Msg)
    requires Good(rule, mid) && fd in mid.clients && mid.history == Departed() && mid.next == h.next + 1
    requires mid.clients[fd].offered == [one.(serial := h.next, uid := 1)]
    requires IsJoin(two) && two.body.id == 7 && two.serial == 0 && one.body != two.body
    ensures var h' := Next(rule, mid, Received(fd, two, 2));
            fd in h'.clients && h'.history == Departed() && h'.next == h.next + 2
  {
    JoinAfterLeave(rule, mid, fd, two, 2);
  }
}
