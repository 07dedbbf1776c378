/** What the hub's connections are told, from nothing: exactly when a stream means what the compacted log means, and
    when two streams mean the same, over every run and under both rules. */
module Streams {
  import opened Messages
  import opened Topology
  import opened Pruning
  import opened Wiping
  import opened Hub
  import opened HubRuns

  /** The topology a log means to somebody who knows nothing yet. */
  function Listing(joins: JoinRule, log: seq<Msg>): Nodes {
    Replay(joins, log, map[])
  }

  /** The hub has compacted its log, or has not touched it and sent everybody just that. */
  ghost predicate Settled(rule: PruneRule, h: State) {
    Compacted(rule, h) || forall fd :: fd in h.clients ==> h.clients[fd].sent == h.history
  }

  /** A compacted log means what a stream in step with it means, wiped. */
  lemma StreamWiped(rule: PruneRule, joins: JoinRule, history: seq<Msg>, stream: seq<Msg>)
    requires InStep(rule, history, stream) && Prune(rule, history) == history
    ensures Listing(joins, history) == Wipe(rule, Left(history), Listing(joins, stream))
  {
    PruneWipes(rule, joins, stream);
    InStepLeft(rule, history, stream);
  }

  lemma StreamAgrees(rule: PruneRule, joins: JoinRule, history: seq<Msg>, stream: seq<Msg>)
    requires InStep(rule, history, stream)
    requires Prune(rule, history) == history || stream == history
    ensures Listing(joins, stream) == Listing(joins, history) <==> Spares(rule, stream) || stream == history
  {
    if Prune(rule, history) == history {
      PruneMeansSameIffSpares(rule, joins, stream);
    }
  }

  /** The hub as a run leaves it: with the log compacted by its first change. */
  lemma NextSettled(rule: PruneRule, h: State, e: Event)
    requires Good(rule, h) && Settled(rule, h)
    ensures Settled(rule, Next(rule, h, e))
    ensures Compacted(rule, Next(rule, h, e)) || Next(rule, h, e).history == h.history
  {
    if Enabled(h, e) {
      StepEffect(rule, h, e);
      PruneIdempotent(rule, h.history + Adds(h, e).added);
      var h' := Step(rule, h, e);
      if !Compacted(rule, h') {
        assert h'.history == h.history && Adds(h, e).added == [];
        forall fd | fd in h'.clients ensures h'.clients[fd].sent == h'.history {
          if fd in h.clients {
            assert h.clients[fd].sent + [] == h.clients[fd].sent;
          }
        }
      }
    }
  }

  // ----- Two streams ------------------------------------------------------------------------------------------

  /** The stream has told of a topic of some node other than 0. */
  predicate Briefed(log: seq<Msg>) {
    exists m :: m in log && m.body.TopicChange? && m.body.nodeId > 0
  }

  ghost predicate SameIfAlikeBriefed(joins: JoinRule, a: seq<Msg>, b: seq<Msg>) {
    (Briefed(a) <==> Briefed(b)) ==> Listing(joins, a) == Listing(joins, b)
  }

  /** Connections that have both, or neither, been told of topics have been told the same topology. */
  ghost predicate Uniform(joins: JoinRule, h: State) {
    forall fd, fd' :: fd in h.clients && fd' in h.clients ==>
                        SameIfAlikeBriefed(joins, h.clients[fd].sent, h.clients[fd'].sent)
  }

  /** Who has not been told of a topic has nothing that could be wiped. */
  lemma UnbriefedSpares(rule: PruneRule, log: seq<Msg>)
    requires LeaveFinal(rule, log) && !Briefed(log)
    ensures Spares(rule, log)
  {
    SparesWhen(rule, log);
    forall id | id > 0 ensures !HasTopics(log, id) {
      ListsNone(log, id);
    }
  }

  lemma ListsNone(log: seq<Msg>, id: nat)
    requires forall m :: m in log ==> !(m.body.TopicChange? && m.body.nodeId == id)
    ensures !HasTopics(log, id)
  {
  }

  /** After node 1 has left, nobody is told of a topic any more. */
  lemma NewsUnbriefed(rule: PruneRule, history: seq<Msg>, added: seq<Msg>)
    requires rule == AsWritten && 1 in Left(history)
    ensures !Briefed(Surviving(rule, history, added))
  {
    LeftConcat(history, added);
  }

  lemma CompactedUnbriefed(rule: PruneRule, log: seq<Msg>)
    requires rule == AsWritten && 1 in Left(log) && Prune(rule, log) == log
    ensures !Briefed(log)
  {
  }

  /** Both connections were there before the step. */
  lemma OldPair(
      rule: PruneRule, joins: JoinRule, history: seq<Msg>, a: seq<Msg>, b: seq<Msg>, added: seq<Msg>)
    requires InStep(rule, history, a) && InStep(rule, history, b)
    requires Prune(rule, history) == history || (a == history && b == history)
    requires SameIfAlikeBriefed(joins, a, b)
    ensures var news := Surviving(rule, history, added); SameIfAlikeBriefed(joins, a + news, b + news)
  {
    var news := Surviving(rule, history, added);
    ReplayConcat(joins, a, news, map[]);
    ReplayConcat(joins, b, news, map[]);
    if rule == AsWritten && 1 in Left(history) {
      NewsUnbriefed(rule, history, added);
      AppendUnbriefed(a, news);
      AppendUnbriefed(b, news);
    } else {
      SoundStreamAgrees(rule, joins, history, a);
      SoundStreamAgrees(rule, joins, history, b);
    }
  }

  lemma AppendUnbriefed(log: seq<Msg>, news: seq<Msg>)
    requires !Briefed(news)
    ensures Briefed(log + news) <==> Briefed(log)
  {
    assert forall m :: m in log + news <==> m in log || m in news;
  }

  lemma SoundStreamAgrees(rule: PruneRule, joins: JoinRule, history: seq<Msg>, stream: seq<Msg>)
    requires InStep(rule, history, stream) && Sound(rule, history)
    requires Prune(rule, history) == history || stream == history
    ensures Listing(joins, stream) == Listing(joins, history)
  {
    InStepLeft(rule, history, stream);
    SparesWhen(rule, stream);
    StreamAgrees(rule, joins, history, stream);
  }

  /** One connection has just been sent the log. */
  lemma NewPair(rule: PruneRule, joins: JoinRule, history: seq<Msg>, stream: seq<Msg>)
    requires InStep(rule, history, stream)
    requires Prune(rule, history) == history || stream == history
    ensures SameIfAlikeBriefed(joins, stream, history) && SameIfAlikeBriefed(joins, history, stream)
  {
    StreamAgrees(rule, joins, history, stream);
    InStepLeft(rule, history, stream);
    SparesWhen(rule, stream);
    if !Spares(rule, stream) && stream != history {
      CompactedUnbriefed(rule, history);
      if !Briefed(stream) {
        UnbriefedSpares(rule, stream);
      }
    }
  }

  lemma PairNext(rule: PruneRule, joins: JoinRule, h: State, a: Admission, h': State, fd: Fd, fd': Fd)
    requires Good(rule, h) && Settled(rule, h) && Uniform(joins, h) && Effect(rule, h, a, h')
    requires fd in h.clients && fd in h'.clients && fd' in h'.clients
    requires fd' in h.clients || (h'.clients[fd'].sent == h.history && h'.clients[fd].sent == h.clients[fd].sent)
    ensures SameIfAlikeBriefed(joins, h'.clients[fd].sent, h'.clients[fd'].sent)
    ensures SameIfAlikeBriefed(joins, h'.clients[fd'].sent, h'.clients[fd].sent)
  {
    assert ClientGood(rule, h, h.clients[fd]);
    if fd' in h.clients {
      assert ClientGood(rule, h, h.clients[fd']);
      assert SameIfAlikeBriefed(joins, h.clients[fd].sent, h.clients[fd'].sent);
      OldPair(rule, joins, h.history, h.clients[fd].sent, h.clients[fd'].sent, a.added);
    } else {
      NewPair(rule, joins, h.history, h.clients[fd].sent);
    }
  }

  lemma WhoIsNew(rule: PruneRule, h: State, e: Event, fd: Fd)
    requires Enabled(h, e) && fd in Step(rule, h, e).clients && fd !in h.clients
    ensures e == Connected(fd) && Step(rule, h, e).clients[fd].sent == h.history
    ensures forall f :: f in h.clients ==>
                          f in Step(rule, h, e).clients && Step(rule, h, e).clients[f].sent == h.clients[f].sent
  {
  }

  lemma NextUniform(rule: PruneRule, joins: JoinRule, h: State, e: Event)
    requires Good(rule, h) && Settled(rule, h) && Uniform(joins, h)
    ensures Uniform(joins, Next(rule, h, e))
  {
    if Enabled(h, e) {
      var h', a := Step(rule, h, e), Adds(h, e);
      StepEffect(rule, h, e);
      forall fd, fd' | fd in h'.clients && fd' in h'.clients
        ensures SameIfAlikeBriefed(joins, h'.clients[fd].sent, h'.clients[fd'].sent)
      {
        if fd in h.clients {
          if fd' !in h.clients {
            WhoIsNew(rule, h, e, fd');
          }
          PairNext(rule, joins, h, a, h', fd, fd');
        } else {
          WhoIsNew(rule, h, e, fd);
          if fd' in h.clients {
            PairNext(rule, joins, h, a, h', fd', fd);
          } else {
            WhoIsNew(rule, h, e, fd');
          }
        }
      }
    }
  }

  lemma {:induction false} RunUniform(rule: PruneRule, joins: JoinRule, h: State, es: seq<Event>)
    requires Good(rule, h) && Settled(rule, h) && Uniform(joins, h)
    ensures Good(rule, Run(rule, h, es)) && Settled(rule, Run(rule, h, es)) && Uniform(joins, Run(rule, h, es))
    decreases |es|
  {
    if es != [] {
      NextGood(rule, h, es[0]);
      NextSettled(rule, h, es[0]);
      NextUniform(rule, joins, h, es[0]);
      RunUniform(rule, joins, Next(rule, h, es[0]), es[1..]);
    }
  }

  // ----- Over every run -----------------------------------------------------------------------------------------

  /** In every reachable state a connection has been told the topology that the hub's log means, if and only if no
      topic it was told of and that still stands is one the hub has struck out; or it was told the log itself. */
  lemma ToldWhatHubMeans(rule: PruneRule, joins: JoinRule, digest: seq<Msg>, es: seq<Event>, fd: Fd)
    requires Seed(rule, digest) && fd in Run(rule, Open(digest), es).clients
    ensures var h := Run(rule, Open(digest), es);
            var sent := h.clients[fd].sent;
            Listing(joins, sent) == Listing(joins, h.history) <==> Spares(rule, sent) || sent == h.history
  {
    var h := Run(rule, Open(digest), es);
    OpenGood(rule, digest);
    RunUniform(rule, joins, Open(digest), es);
    assert ClientGood(rule, h, h.clients[fd]);
    StreamAgrees(rule, joins, h.history, h.clients[fd].sent);
  }

  /** And two connections have been told the same, if and only if both or neither were told of topics, or no standing
      topic of either has been struck out. */
  lemma ToldAlike(rule: PruneRule, joins: JoinRule, digest: seq<Msg>, es: seq<Event>, fd: Fd, fd': Fd)
    requires Seed(rule, digest)
    requires var h := Run(rule, Open(digest), es); fd in h.clients && fd' in h.clients
    ensures var h := Run(rule, Open(digest), es);
            var a, b := h.clients[fd].sent, h.clients[fd'].sent;
            Listing(joins, a) == Listing(joins, b)
            <==> (Briefed(a) <==> Briefed(b)) || (Spares(rule, a) && Spares(rule, b))
  {
    var h := Run(rule, Open(digest), es);
    var a, b := h.clients[fd].sent, h.clients[fd'].sent;
    OpenGood(rule, digest);
    RunUniform(rule, joins, Open(digest), es);
    assert ClientGood(rule, h, h.clients[fd]) && ClientGood(rule, h, h.clients[fd']);
    assert SameIfAlikeBriefed(joins, a, b);
    InStepLeft(rule, h.history, a);
    InStepLeft(rule, h.history, b);
    if !Briefed(a) && Briefed(b) {
      UnlikeBriefed(rule, joins, h.history, a, b);
    } else if Briefed(a) && !Briefed(b) {
      UnlikeBriefed(rule, joins, h.history, b, a);
    }
  }

  lemma UnlikeBriefed(rule: PruneRule, joins: JoinRule, history: seq<Msg>, a: seq<Msg>, b: seq<Msg>)
    requires InStep(rule, history, a) && InStep(rule, history, b)
    requires !Briefed(a) && Briefed(b)
    requires Prune(rule, history) == history || (a == history && b == history)
    ensures Spares(rule, a)
    ensures Listing(joins, a) == Listing(joins, b) <==> Spares(rule, b)
  {
    UnbriefedSpares(rule, a);
    StreamAgrees(rule, joins, history, a);
    StreamAgrees(rule, joins, history, b);
  }
}
