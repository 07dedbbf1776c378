/** What every run of the hub guarantees, whatever its clients send. */
module HubRuns {
  import opened Messages
  import opened Topology
  import opened Pruning
  import opened Hub

  // ----- What one step does --------------------------------------------------------------------------

  function News(rule: PruneRule, h: State, a: Admission): seq<Msg> {
    Surviving(rule, h.history, a.added)
  }

  /** A step either leaves the log alone or compacts it with its additions; every stream grows by the news. */
  ghost predicate Effect(rule: PruneRule, h: State, a: Admission, h': State) {
    var news := News(rule, h, a);
    && (h'.history == Prune(rule, h.history + a.added) || (h'.history == h.history && a.added == []))
    && h'.next == a.next
    && h'.journal == h.journal + news
    && forall fd :: fd in h.clients && fd in h'.clients ==>
         && h'.clients[fd].sent == h.clients[fd].sent + news
         && h.clients[fd].offered <= h'.clients[fd].offered
  }

  lemma AdvanceEffect(rule: PruneRule, h: State, a: Admission, before: State)
    requires Good(rule, h) && FitsOn(h.history, a)
    requires h.history == before.history && h.journal == before.journal
    requires forall fd :: fd in before.clients && fd in h.clients ==>
               && h.clients[fd].sent == before.clients[fd].sent
               && before.clients[fd].offered <= h.clients[fd].offered
    ensures Effect(rule, before, a, Advance(rule, h, a.added, a.next))
  {
    LogAdvances(rule, h.history, a.added);
    var h' := Advance(rule, h, a.added, a.next);
    forall fd | fd in before.clients && fd in h'.clients
      ensures h'.clients[fd].sent == before.clients[fd].sent + News(rule, before, a)
    {
      assert ClientGood(rule, h, h.clients[fd]);
    }
  }

  lemma NothingEffect(rule: PruneRule, h: State, h': State)
    requires h'.history == h.history && h'.next == h.next && h'.journal == h.journal
    requires forall fd :: fd in h.clients ==> fd in h'.clients && h'.clients[fd] == h.clients[fd]
    ensures Effect(rule, h, Admission([], h.next), h')
  {
    assert forall x: seq<Msg> :: x + [] == x;
  }

  lemma ReceivedEffect(rule: PruneRule, h: State, fd: Fd, m: Msg, uid: nat)
    requires Good(rule, h) && fd in h.clients && Subject(m) != 0
    ensures Effect(rule, h, Adds(h, Received(fd, m, uid)), Data(rule, h, fd, m, uid))
  {
    AddsNewer(rule, h, Received(fd, m, uid));
    var c := h.clients[fd].(nodeId := Subject(m));
    var a := Admit(h, c, m, uid);
    var h1 := h.(clients := h.clients[fd := c.(offered := c.offered + a.added)]);
    OfferedGood(rule, h, fd, c.(offered := c.offered + a.added));
    AdvanceEffect(rule, h1, a, h);
  }

  /** The invariant does not look at what a client has offered or claims to be. */
  lemma OfferedGood(rule: PruneRule, h: State, fd: Fd, c: Client)
    requires Good(rule, h) && fd in h.clients
    requires c.sent == h.clients[fd].sent && c.serial == h.clients[fd].serial
    ensures Good(rule, h.(clients := h.clients[fd := c]))
  {
    var h1 := h.(clients := h.clients[fd := c]);
    forall f | f in h1.clients ensures ClientGood(rule, h1, h1.clients[f]) {
      assert ClientGood(rule, h, h.clients[f]);
    }
  }

  lemma StepEffect(rule: PruneRule, h: State, e: Event)
    requires Good(rule, h) && Enabled(h, e)
    ensures Effect(rule, h, Adds(h, e), Step(rule, h, e))
  {
    match e
    case Connected(fd) => NothingEffect(rule, h, Connect(h, fd));
    case Received(fd, m, uid) =>
      if Subject(m) == 0 {
        NothingEffect(rule, h, h);
      } else {
        ReceivedEffect(rule, h, fd, m, uid);
      }
    case Disconnected(fd) =>
      AddsNewer(rule, h, e);
      AdvanceEffect(rule, h.(clients := h.clients - {fd}), Adds(h, e), h);
    case PurgeDue(order) =>
      AddsNewer(rule, h, e);
      AdvanceEffect(rule, h, Adds(h, e), h);
  }

  /** The log after any step: some of the old entries in their order, then entries newer than all of
      them, every one below the counter. So nothing is ever filled into a hole. */
  lemma LogDiscipline(rule: PruneRule, h: State, e: Event) returns (stay: seq<Msg>, news: seq<Msg>)
    requires Good(rule, h) && Enabled(h, e)
    ensures Step(rule, h, e).history == stay + news
    ensures IsSubsequence(stay, h.history)
    ensures Newer(h.history, news)
    ensures AllBelow(stay + news, Step(rule, h, e).next)
    ensures LastSeq(h.history) <= LastSeq(stay + news)
  {
    StepGood(rule, h, e);
    StepEffect(rule, h, e);
    AddsNewer(rule, h, e);
    var added := Adds(h, e).added;
    if Step(rule, h, e).history == Prune(rule, h.history + added) {
      LogAdvances(rule, h.history, added);
      stay, news := Keep(rule, Left(h.history + added), h.history), Surviving(rule, h.history, added);
      KeepIsSubsequence(rule, Left(h.history + added), h.history);
      assert news != [] ==> news[|news| - 1] in news;
    } else {
      stay, news := h.history, [];
      WholeIsSubsequence(h.history);
      assert stay + news == stay;
    }
  }

  /** The counter goes backwards exactly when a numbered message newer than the whole log is accepted whose number has
      been passed already: given to something that was struck out, or skipped. */
  lemma CounterDropsIff(rule: PruneRule, h: State, e: Event)
    requires Enabled(h, e)
    ensures Step(rule, h, e).next < h.next
       <==> e.Received? && Subject(e.m) != 0 && 0 < e.m.serial
            && AllBelow(h.history, e.m.serial) && e.m.serial + 1 < h.next
  {
  }

  lemma AdmitIs(h: State, c: Client, m: Msg, uid: nat)
    requires Subject(m) != 0
    ensures var a, known := Admit(h, c, m, uid), exists o :: o in c.offered && o.body == m.body;
            && a.added == (if m.serial == 0 then if known then [] else [Msg(h.next, uid, m.body)]
                           else if forall o :: o in h.history ==> o.serial < m.serial then [m] else [])
            && a.next == if a.added == [] then h.next else a.added[0].serial + 1
  {
  }

  /** What the log is before compaction, and what the counter and the sender's record are after it, message by message.
      A fresh message with a new payload is numbered and given the uid drawn for it, and nothing else in it changes; one
      with a known payload adds nothing; a numbered one is taken as it is if it is newer than the whole log. */
  lemma DataAppends(rule: PruneRule, h: State, fd: Fd, m: Msg, uid: nat)
    requires fd in h.clients
    requires (m.body.NodeChange? && m.body.id != 0) || (m.body.TopicChange? && m.body.nodeId != 0)
    ensures var h', known := Data(rule, h, fd, m, uid), exists o :: o in h.clients[fd].offered && o.body == m.body;
            var newer := forall o :: o in h.history ==> o.serial < m.serial;
            var added := if m.serial == 0 then if known then [] else [Msg(h.next, uid, m.body)]
                         else if newer then [m] else [];
            && h'.history == Prune(rule, h.history + added)
            && h'.next == (if added == [] then h.next else added[0].serial + 1)
            && h'.clients.Keys == h.clients.Keys
            && h'.clients[fd].nodeId == (if m.body.NodeChange? then m.body.id else m.body.nodeId)
            && h'.clients[fd].offered == h.clients[fd].offered + added
            && forall f :: f in h.clients && f != fd ==>
                 h'.clients[f].nodeId == h.clients[f].nodeId && h'.clients[f].offered == h.clients[f].offered
  {
    var c := h.clients[fd].(nodeId := Subject(m));
    AdmitIs(h, c, m, uid);
    assert c.offered + [] == c.offered;
  }

  /** A message without a node id changes nothing at all. */
  lemma DataIgnores(rule: PruneRule, h: State, fd: Fd, m: Msg, uid: nat)
    requires fd in h.clients
    requires m.body.NoBody? || (m.body.NodeChange? && m.body.id == 0) || (m.body.TopicChange? && m.body.nodeId == 0)
    ensures Data(rule, h, fd, m, uid) == h
  {
  }

  lemma DisconnectAppends(rule: PruneRule, h: State, fd: Fd)
    requires fd in h.clients
    ensures var h' := Disconnect(rule, h, fd);
            && h'.history
               == Prune(rule, h.history + [Msg(h.next, 0, NodeChange(h.clients[fd].nodeId, Leave, "", ""))])
            && h'.next == h.next + 1 && h'.clients.Keys == h.clients.Keys - {fd}
            && forall f :: f in h'.clients ==>
                 h'.clients[f].nodeId == h.clients[f].nodeId && h'.clients[f].offered == h.clients[f].offered
  {
  }

  /** A purge appends one LEAVE for each node that is listed and that no connection claims, numbered on from the
      counter, and compacts even if there is none. */
  lemma PurgeAppends(rule: PruneRule, h: State, order: seq<nat>) returns (gone: seq<nat>)
    requires Enumerates(order, Active(h.history))
    ensures forall i, j :: 0 <= i < j < |gone| ==> gone[i] != gone[j]
    ensures forall id :: id in gone <==>
              id in Replay(KeepFirst, h.history, map[]) && forall fd :: fd in h.clients ==> h.clients[fd].nodeId != id
    ensures var added := seq(|gone|, i requires 0 <= i < |gone| =>
                           Msg(h.next + i, 0, NodeChange(gone[i], Leave, "", "")));
            && Purge(rule, h, order).history == Prune(rule, h.history + added)
            && Purge(rule, h, order).next == h.next + |gone|
            && Purge(rule, h, order).clients.Keys == h.clients.Keys
  {
    gone := EvictionsAre(order, Identified(h.clients), h.next);
    assert forall id :: id in Identified(h.clients) <==> exists fd :: fd in h.clients && h.clients[fd].nodeId == id;
  }

  lemma OneMoreLeave(gone: seq<nat>, id: nat, next: nat)
    ensures var longer := gone + [id];
            seq(|longer|, i requires 0 <= i < |longer| => Msg(next + i, 0, NodeChange(longer[i], Leave, "", "")))
            == seq(|gone|, i requires 0 <= i < |gone| => Msg(next + i, 0, NodeChange(gone[i], Leave, "", "")))
               + [LeaveOf(next + |gone|, id)]
  {
  }

  lemma {:induction false} EvictionsAre(ids: seq<nat>, connected: set<nat>, next: nat) returns (gone: seq<nat>)
    requires forall i, j :: 0 <= i < j < |ids| ==> ids[i] != ids[j]
    ensures forall i, j :: 0 <= i < j < |gone| ==> gone[i] != gone[j]
    ensures forall id :: id in gone <==> id in ids && id !in connected
    ensures Evictions(ids, connected, next)
         == seq(|gone|, i requires 0 <= i < |gone| => Msg(next + i, 0, NodeChange(gone[i], Leave, "", "")))
  {
    if ids == [] {
      gone := [];
    } else {
      var n := |ids| - 1;
      assert ids == ids[..n] + [ids[n]] && ids[n] !in ids[..n];
      gone := EvictionsAre(ids[..n], connected, next);
      if ids[n] !in connected {
        OneMoreLeave(gone, ids[n], next);
        gone := gone + [ids[n]];
      }
    }
  }

  /** A hub numbers from one past its digest, from 1 if that is empty. */
  lemma FirstNumber(rule: PruneRule, digest: seq<Msg>, fd: Fd, m: Msg, uid: nat)
    requires m.serial == 0
    requires (m.body.NodeChange? && m.body.id != 0) || (m.body.TopicChange? && m.body.nodeId != 0)
    ensures var h := Data(rule, Connect(Open(digest), fd), fd, m, uid);
            var first := if digest == [] then 1 else digest[|digest| - 1].serial + 1;
            && h.history == Prune(rule, digest + [Msg(first, uid, m.body)])
            && h.clients.Keys == {fd} && h.clients[fd].offered == [Msg(first, uid, m.body)]
  {
    DataAppends(rule, Connect(Open(digest), fd), fd, m, uid);
  }

  lemma {:induction false} WholeIsSubsequence(log: seq<Msg>)
    ensures IsSubsequence(log, log)
  {
    if log != [] {
      WholeIsSubsequence(log[1..]);
    }
  }

  // ----- What a run does -------------------------------------------------------------------------------

  ghost predicate Extends(h: State, h': State) {
    && h.journal <= h'.journal
    && LastSeq(h.history) <= LastSeq(h'.history)
    && Left(h.history) <= Left(h'.history)
  }

  lemma NextExtends(rule: PruneRule, h: State, e: Event)
    requires Good(rule, h)
    ensures Extends(h, Next(rule, h, e))
  {
    if Enabled(h, e) {
      var stay, news := LogDiscipline(rule, h, e);
      StepEffect(rule, h, e);
      var added := Adds(h, e).added;
      LeftOfKeep(rule, Left(h.history + added), h.history + added);
      LeftConcat(h.history, added);
    }
  }

  /** The newest sequence number never decreases, no LEAVE is forgotten, and the observer's stream only
      grows. */
  lemma {:induction false} RunExtends(rule: PruneRule, h: State, es: seq<Event>)
    requires Good(rule, h)
    ensures Good(rule, Run(rule, h, es))
    ensures Extends(h, Run(rule, h, es))
    decreases |es|
  {
    if es != [] {
      NextGood(rule, h, es[0]);
      NextExtends(rule, h, es[0]);
      RunExtends(rule, Next(rule, h, es[0]), es[1..]);
    }
  }

  lemma {:induction false} RunConcat(rule: PruneRule, h: State, a: seq<Event>, b: seq<Event>)
    ensures Run(rule, h, a + b) == Run(rule, Run(rule, h, a), b)
    decreases |a|
  {
    if a == [] {
      assert a + b == b;
    } else {
      assert (a + b)[1..] == a[1..] + b;
      RunConcat(rule, Next(rule, h, a[0]), a[1..], b);
    }
  }

  lemma RunAppend(rule: PruneRule, h: State, es: seq<Event>, e: Event)
    ensures Run(rule, h, es + [e]) == Next(rule, Run(rule, h, es), e)
  {
    RunConcat(rule, h, es, [e]);
    assert [e][1..] == [];
    assert Run(rule, Next(rule, Run(rule, h, es), e), []) == Next(rule, Run(rule, h, es), e);
  }

  lemma RunThree(rule: PruneRule, h: State, a: Event, b: Event, c: Event)
    ensures Run(rule, h, [a, b, c]) == Next(rule, Next(rule, Next(rule, h, a), b), c)
  {
    assert [a, b, c] == [a] + ([b] + [c]);
    RunConcat(rule, h, [a], [b] + [c]);
    RunConcat(rule, Next(rule, h, a), [b], [c]);
  }

  lemma SortedCountsOnce(log: seq<Msg>, m: Msg)
    requires Sorted(log) && m in log
    ensures multiset(log)[m] == 1
  {
    var i :| 0 <= i < |log| && log[i] == m;
    var a, b := log[..i], log[i + 1..];
    assert log == a + [m] + b;
    assert m !in a && m !in b;
    assert multiset(log) == multiset(a) + multiset([m]) + multiset(b);
  }

  /** Between steps every cursor is exact, every log entry has been sent exactly once on each connection,
      and every stream is strictly increasing and leave-final. */
  lemma ExactlyOnce(rule: PruneRule, digest: seq<Msg>, es: seq<Event>, fd: Fd)
    requires Seed(rule, digest)
    requires fd in Run(rule, Open(digest), es).clients
    ensures var h := Run(rule, Open(digest), es);
            var c := h.clients[fd];
            && c.serial == LastSeq(h.history) == LastSeq(c.sent)
            && Sorted(c.sent) && LeaveFinal(rule, c.sent)
            && forall m :: m in h.history ==> multiset(c.sent)[m] == 1
  {
    OpenGood(rule, digest);
    RunGood(rule, Open(digest), es);
    var h := Run(rule, Open(digest), es);
    assert ClientGood(rule, h, h.clients[fd]);
    forall m | m in h.history ensures multiset(h.clients[fd].sent)[m] == 1 {
      SortedCountsOnce(h.clients[fd].sent, m);
    }
  }

  /** No sequence number ever names two different sent messages, on whichever connections and however far
      apart they were sent, although the counter may have been lowered in between. */
  lemma NoSerialReused(
      rule: PruneRule, digest: seq<Msg>, es: seq<Event>, more: seq<Event>, fd: Fd, fd': Fd, m: Msg, m': Msg)
    requires Seed(rule, digest)
    requires var h := Run(rule, Open(digest), es); fd in h.clients && m in h.clients[fd].sent
    requires var h' := Run(rule, Run(rule, Open(digest), es), more);
             fd' in h'.clients && m' in h'.clients[fd'].sent
    requires m.serial == m'.serial
    ensures m == m'
  {
    OpenGood(rule, digest);
    RunGood(rule, Open(digest), es);
    SentTwice(rule, Run(rule, Open(digest), es), more, fd, fd', m, m');
  }

  lemma SentTwice(rule: PruneRule, h: State, es: seq<Event>, fd: Fd, fd': Fd, m: Msg, m': Msg)
    requires Good(rule, h)
    requires fd in h.clients && m in h.clients[fd].sent
    requires fd' in Run(rule, h, es).clients && m' in Run(rule, h, es).clients[fd'].sent
    requires m.serial == m'.serial
    ensures m == m'
  {
    var h' := Run(rule, h, es);
    RunExtends(rule, h, es);
    assert ClientGood(rule, h, h.clients[fd]);
    assert ClientGood(rule, h', h'.clients[fd']);
    var i :| 0 <= i < |h.journal| && h.journal[i] == m;
    var j :| 0 <= j < |h'.journal| && h'.journal[j] == m';
    assert h'.journal[i] == m;
  }

  // ----- Compacted logs ---------------------------------------------------------------------------------

  /** The hub has compacted its log since it was opened. */
  predicate Compacted(rule: PruneRule, h: State) {
    Prune(rule, h.history) == h.history
  }

  lemma CompactedStaysOne(rule: PruneRule, h: State, e: Event)
    requires Good(rule, h) && Compacted(rule, h)
    ensures Compacted(rule, Next(rule, h, e))
  {
    if Enabled(h, e) {
      StepEffect(rule, h, e);
      PruneIdempotent(rule, h.history + Adds(h, e).added);
    }
  }

  // ----- Agreement -------------------------------------------------------------------------------------

  /** No LEAVE for node 1 in the log: all that compaction as written needs. */
  predicate Sound(rule: PruneRule, log: seq<Msg>) {
    rule == Intended || 1 !in Left(log)
  }

  lemma InStepLeft(rule: PruneRule, history: seq<Msg>, stream: seq<Msg>)
    requires InStep(rule, history, stream)
    ensures Left(stream) == Left(history)
  {
    LeftOfKeep(rule, Left(stream), stream);
    LeftOfKeep(rule, Left(history), history);
  }

  /** Whoever replays a stream that is in step, from any table, ends where the hub's own log ends. */
  lemma StreamMeansHistory(rule: PruneRule, joins: JoinRule, history: seq<Msg>, stream: seq<Msg>)
    requires Seed(rule, history) && InStep(rule, history, stream) && Sound(rule, history)
    ensures MeansTheSame(joins, stream, history)
  {
    InStepLeft(rule, history, stream);
    forall nodes ensures Replay(joins, stream, nodes) == Replay(joins, history, nodes) {
      PruneMeansSameFrom(rule, joins, stream, nodes);
      PruneMeansSameFrom(rule, joins, history, nodes);
    }
  }

  /** Exactly when: once the hub has compacted, a connection's stream and the log mean the same from every
      table if and only if compaction struck out only what left nodes had said. */
  lemma StreamMeansHistoryExactly(rule: PruneRule, joins: JoinRule, history: seq<Msg>, stream: seq<Msg>)
    requires InStep(rule, history, stream) && Prune(rule, history) == history
    ensures MeansTheSame(joins, history, stream) <==> StrikesOnlyLeft(rule, stream)
  {
    PruneMeaning(rule, joins, stream);
  }
}
