/** The hub as a state machine: what one connect, data, disconnect or purge does to log, counter and clients,
    and what every run keeps. `TopologyServer` (the class) is proved against these functions. */
module Hub {
  import opened Messages
  import opened Topology
  import opened Pruning

  /** One connection. `serial` is the cursor, `offered` the contribution list that the redundancy test
      consults, and `sent` everything written to the socket so far. */
  datatype Client = Client(serial: nat, nodeId: nat, offered: seq<Msg>, sent: seq<Msg>)

  /** `journal` is bookkeeping only: what an observer connected from the start would have been sent. */
  datatype State = State(history: seq<Msg>, next: nat, clients: map<Fd, Client>, journal: seq<Msg>)

  // ----- Steps ----------------------------------------------------------------------------------

  /** What a client whose cursor is `cursor` is sent when `log` is broadcast. */
  function Deliver(log: seq<Msg>, cursor: nat): seq<Msg> {
    if log == [] then []
    else if log[0].serial > cursor then [log[0]] + Deliver(log[1..], log[0].serial)
    else Deliver(log[1..], cursor)
  }

  function CursorAfter(log: seq<Msg>, cursor: nat): nat {
    if log == [] then cursor
    else CursorAfter(log[1..], if log[0].serial > cursor then log[0].serial else cursor)
  }

  function Served(c: Client, log: seq<Msg>): Client {
    c.(serial := CursorAfter(log, c.serial), sent := c.sent + Deliver(log, c.serial))
  }

  function Broadcast(h: State): State {
    h.(clients := map fd | fd in h.clients :: Served(h.clients[fd], h.history),
       journal := h.journal + Deliver(h.history, LastSeq(h.journal)))
  }

  /** Append, compact, broadcast: the common tail of every step but connect. */
  function Advance(rule: PruneRule, h: State, added: seq<Msg>, next: nat): State {
    Broadcast(h.(history := Prune(rule, h.history + added), next := next))
  }

  function Open(digest: seq<Msg>): State {
    State(digest, if digest == [] then 1 else LastSeq(digest) + 1, map[], digest)
  }

  function Connect(h: State, fd: Fd): State {
    h.(clients := h.clients[fd := Client(LastSeq(h.history), 0, [], h.history)])
  }

  function Disconnect(rule: PruneRule, h: State, fd: Fd): State
    requires fd in h.clients
  {
    Advance(rule, h.(clients := h.clients - {fd}), [LeaveOf(h.next, h.clients[fd].nodeId)], h.next + 1)
  }

  /** The payload has been offered on this connection before. Sequence number and uid do not matter. */
  predicate Redundant(m: Msg, offered: seq<Msg>) {
    m.body != NoBody && exists o :: o in offered && o.body == m.body
  }

  /** What a client's message adds to the log, to the client's contributions and to the counter. */
  datatype Admission = Admission(added: seq<Msg>, next: nat)

  function AdmitNovel(h: State, c: Client, m: Msg, uid: nat): Admission {
    if Redundant(m, c.offered) then Admission([], h.next)
    else Admission([m.(serial := h.next, uid := uid)], h.next + 1)
  }

  function AdmitOld(h: State, m: Msg): Admission {
    if AllBelow(h.history, m.serial) then Admission([m], m.serial + 1) else Admission([], h.next)
  }

  function Admit(h: State, c: Client, m: Msg, uid: nat): Admission {
    if m.serial == 0 then AdmitNovel(h, c, m, uid) else AdmitOld(h, m)
  }

  function Data(rule: PruneRule, h: State, fd: Fd, m: Msg, uid: nat): State
    requires fd in h.clients
  {
    if Subject(m) == 0 then h
    else
      var c := h.clients[fd].(nodeId := Subject(m));
      var a := Admit(h, c, m, uid);
      Advance(rule, h.(clients := h.clients[fd := c.(offered := c.offered + a.added)]), a.added, a.next)
  }

  /** The nodes the log says have joined and not left. */
  function Active(log: seq<Msg>): set<nat> {
    Replay(KeepFirst, log, map[]).Keys
  }

  function Identified(clients: map<Fd, Client>): set<nat> {
    set fd | fd in clients :: clients[fd].nodeId
  }

  /** The LEAVEs minted for those of `ids`, taken in that order, that nobody connected claims to be. */
  function Evictions(ids: seq<nat>, connected: set<nat>, next: nat): (out: seq<Msg>)
    ensures forall i :: 0 <= i < |out| ==> IsLeave(out[i]) && out[i].serial == next + i
  {
    if ids == [] then []
    else
      var n := |ids| - 1;
      var before := Evictions(ids[..n], connected, next);
      before + if ids[n] in connected then [] else [LeaveOf(next + |before|, ids[n])]
  }

  function Purge(rule: PruneRule, h: State, order: seq<nat>): State {
    var added := Evictions(order, Identified(h.clients), h.next);
    Advance(rule, h, added, h.next + |added|)
  }

  datatype Event =
    | Connected(fd: Fd)
    | Received(fd: Fd, m: Msg, uid: nat)
    | Disconnected(fd: Fd)
    | PurgeDue(order: seq<nat>)

  ghost predicate Enabled(h: State, e: Event) {
    match e
    case Connected(fd) => fd !in h.clients
    case Received(fd, _, _) => fd in h.clients
    case Disconnected(fd) => fd in h.clients
    case PurgeDue(order) => Enumerates(order, Active(h.history))
  }

  ghost function Step(rule: PruneRule, h: State, e: Event): State
    requires Enabled(h, e)
  {
    match e
    case Connected(fd) => Connect(h, fd)
    case Received(fd, m, uid) => Data(rule, h, fd, m, uid)
    case Disconnected(fd) => Disconnect(rule, h, fd)
    case PurgeDue(order) => Purge(rule, h, order)
  }

  /** A run. Events the socket layer cannot deliver in the current state do not happen. */
  ghost function Run(rule: PruneRule, h: State, es: seq<Event>): State
    decreases |es|
  {
    if es == [] then h else Run(rule, Next(rule, h, es[0]), es[1..])
  }

  ghost function Next(rule: PruneRule, h: State, e: Event): State {
    if Enabled(h, e) then Step(rule, h, e) else h
  }

  // ----- Delivery ---------------------------------------------------------------------------------

  lemma {:induction false} DeliverSkipsOld(stale: seq<Msg>, news: seq<Msg>, cursor: nat)
    requires forall m :: m in stale ==> m.serial <= cursor
    ensures Deliver(stale + news, cursor) == Deliver(news, cursor)
    ensures CursorAfter(stale + news, cursor) == CursorAfter(news, cursor)
  {
    if stale == [] {
      assert stale + news == news;
    } else {
      assert stale[0] in stale;
      assert (stale + news)[1..] == stale[1..] + news;
      DeliverSkipsOld(stale[1..], news, cursor);
    }
  }

  lemma {:induction false} DeliverNews(news: seq<Msg>, cursor: nat)
    requires Sorted(news)
    requires forall m :: m in news ==> cursor < m.serial
    ensures Deliver(news, cursor) == news
    ensures CursorAfter(news, cursor) == if news == [] then cursor else LastSeq(news)
  {
    if news != [] {
      assert news[0] in news;
      forall m | m in news[1..] ensures news[0].serial < m.serial {
        var i :| 0 <= i < |news[1..]| && news[1..][i] == m;
      }
      DeliverNews(news[1..], news[0].serial);
      assert news == [news[0]] + news[1..];
    }
  }

  lemma {:induction false} DeliverAppend(log: seq<Msg>, m: Msg, cursor: nat)
    ensures Deliver(log + [m], cursor)
         == Deliver(log, cursor) + if m.serial > CursorAfter(log, cursor) then [m] else []
    ensures CursorAfter(log + [m], cursor)
         == if m.serial > CursorAfter(log, cursor) then m.serial else CursorAfter(log, cursor)
  {
    if log == [] {
      assert log + [m] == [m] && [m][1..] == [];
    } else {
      assert (log + [m])[1..] == log[1..] + [m];
      DeliverAppend(log[1..], m, if log[0].serial > cursor then log[0].serial else cursor);
    }
  }

  lemma SortedBelowLast(log: seq<Msg>)
    requires Sorted(log)
    ensures forall m :: m in log ==> m.serial <= LastSeq(log)
  {
    forall m | m in log ensures m.serial <= LastSeq(log) {
      var i :| 0 <= i < |log| && log[i] == m;
    }
  }

  // ----- The hub invariant ------------------------------------------------------------------------

  /** `stream` tells the same story as `history`: they differ only in what compaction strikes out. */
  ghost predicate InStep(rule: PruneRule, history: seq<Msg>, stream: seq<Msg>) {
    && Sorted(stream)
    && LeaveFinal(rule, stream)
    && LastSeq(stream) == LastSeq(history)
    && Prune(rule, stream) == Prune(rule, history)
    && forall m :: m in history ==> m in stream
  }

  ghost predicate ClientGood(rule: PruneRule, h: State, c: Client) {
    && c.serial == LastSeq(h.history)
    && InStep(rule, h.history, c.sent)
    && forall m :: m in c.sent ==> m in h.journal
  }

  ghost predicate Good(rule: PruneRule, h: State) {
    && Sorted(h.history)
    && LeaveFinal(rule, h.history)
    && 1 <= h.next
    && AllBelow(h.history, h.next)
    && InStep(rule, h.history, h.journal)
    && forall fd :: fd in h.clients ==> ClientGood(rule, h, h.clients[fd])
  }

  /** A digest any hub may be opened with. */
  ghost predicate Seed(rule: PruneRule, digest: seq<Msg>) {
    Sorted(digest) && LeaveFinal(rule, digest)
  }

  lemma OpenGood(rule: PruneRule, digest: seq<Msg>)
    requires Seed(rule, digest)
    ensures Good(rule, Open(digest))
  {
    SortedBelowLast(digest);
  }

  /** The part of `added` that outlives the compaction following it. */
  function Surviving(rule: PruneRule, history: seq<Msg>, added: seq<Msg>): seq<Msg> {
    Keep(rule, Left(history + added), added)
  }

  /** Entries newer than the whole log. */
  ghost predicate Newer(history: seq<Msg>, added: seq<Msg>) {
    Sorted(added) && forall m :: m in added ==> LastSeq(history) < m.serial
  }

  /** One step of the log: the old entries that stay, then the new ones that stay. */
  lemma LogAdvances(rule: PruneRule, history: seq<Msg>, added: seq<Msg>)
    requires Seed(rule, history) && Newer(history, added)
    ensures var now, news := Prune(rule, history + added), Surviving(rule, history, added);
            && now == Keep(rule, Left(history + added), history) + news
            && Newer(history, news)
            && Seed(rule, now)
            && LastSeq(now) == (if news == [] then LastSeq(history) else LastSeq(news))
            && Deliver(now, LastSeq(history)) == news
            && CursorAfter(now, LastSeq(history)) == LastSeq(now)
  {
    var left, now, news := Left(history + added), Prune(rule, history + added), Surviving(rule, history, added);
    var stay := Keep(rule, left, history);
    KeepConcat(rule, left, history, added);
    KeepSorted(rule, left, history);
    KeepSorted(rule, left, added);
    PrunedIsLeaveFinal(rule, history + added);
    SortedBelowLast(history);
    DeliverSkipsOld(stay, news, LastSeq(history));
    DeliverNews(news, LastSeq(history));
    if news == [] {
      NoNewsNoLoss(rule, history, added);
      assert now == stay;
    }
    SortedBelowLast(stay);
    SortedConcat(stay, news);
  }

  /** If nothing new survives, nothing new was a LEAVE, and the newest old entry is still there. */
  lemma NoNewsNoLoss(rule: PruneRule, history: seq<Msg>, added: seq<Msg>)
    requires Seed(rule, history) && Surviving(rule, history, added) == []
    ensures Left(history + added) == Left(history)
    ensures LastSeq(Keep(rule, Left(history + added), history)) == LastSeq(history)
    ensures history == [] <==> Keep(rule, Left(history + added), history) == []
  {
    LeftConcat(history, added);
    assert forall m :: m in added && IsLeave(m) ==> m in Surviving(rule, history, added);
    if history != [] {
      NewestSurvives(rule, history);
    }
  }

  lemma SurvivorsLeave(rule: PruneRule, history: seq<Msg>, stream: seq<Msg>, added: seq<Msg>)
    requires Prune(rule, stream) == Prune(rule, history)
    ensures Left(stream + Surviving(rule, history, added)) == Left(history + added)
  {
    LeftConcat(history, added);
    LeftConcat(stream, Surviving(rule, history, added));
    LeftOfKeep(rule, Left(history + added), added);
    LeftOfKeep(rule, Left(stream), stream);
    LeftOfKeep(rule, Left(history), history);
  }

  lemma SurvivorsPrune(rule: PruneRule, history: seq<Msg>, stream: seq<Msg>, added: seq<Msg>)
    requires Prune(rule, stream) == Prune(rule, history)
    ensures Prune(rule, stream + Surviving(rule, history, added)) == Prune(rule, history + added)
  {
    var left, news := Left(history + added), Surviving(rule, history, added);
    SurvivorsLeave(rule, history, stream, added);
    LeftConcat(history, added);
    LeftConcat(stream, news);
    KeepConcat(rule, left, stream, news);
    KeepConcat(rule, left, history, added);
    KeepTwice(rule, left, left, added);
    KeepTwice(rule, Left(stream), left, stream);
    KeepTwice(rule, Left(history), left, history);
  }

  lemma AppendNewer(stream: seq<Msg>, news: seq<Msg>)
    requires Sorted(stream) && Newer(stream, news)
    ensures Sorted(stream + news)
    ensures LastSeq(stream + news) == if news == [] then LastSeq(stream) else LastSeq(news)
  {
    SortedConcat(stream, news);
    assert news == [] ==> stream + news == stream;
  }

  lemma SurvivorsAreNewer(rule: PruneRule, history: seq<Msg>, added: seq<Msg>)
    requires Seed(rule, history) && Newer(history, added)
    ensures var now, news := Prune(rule, history + added), Surviving(rule, history, added);
            && Newer(history, news)
            && LastSeq(now) == if news == [] then LastSeq(history) else LastSeq(news)
  {
    LogAdvances(rule, history, added);
  }

  lemma StreamStaysOrdered(rule: PruneRule, history: seq<Msg>, stream: seq<Msg>, added: seq<Msg>)
    requires Seed(rule, history) && Newer(history, added)
    requires Sorted(stream) && LastSeq(stream) == LastSeq(history)
    ensures var longer := stream + Surviving(rule, history, added);
            Sorted(longer) && LastSeq(longer) == LastSeq(Prune(rule, history + added))
  {
    SurvivorsAreNewer(rule, history, added);
    AppendNewer(stream, Surviving(rule, history, added));
  }

  lemma StreamKeepsUp(rule: PruneRule, history: seq<Msg>, stream: seq<Msg>, added: seq<Msg>)
    requires forall m :: m in history ==> m in stream
    ensures forall m :: m in Prune(rule, history + added) ==> m in stream + Surviving(rule, history, added)
  {
    KeepConcat(rule, Left(history + added), history, added);
  }

  /** A stream in step with the log stays in step when it is sent the survivors. */
  lemma StreamAdvances(rule: PruneRule, history: seq<Msg>, stream: seq<Msg>, added: seq<Msg>)
    requires Seed(rule, history) && Newer(history, added) && InStep(rule, history, stream)
    ensures InStep(rule, Prune(rule, history + added), stream + Surviving(rule, history, added))
  {
    StreamStaysOrdered(rule, history, stream, added);
    StreamKeepsUp(rule, history, stream, added);
    SurvivorsLeave(rule, history, stream, added);
    SurvivorsPrune(rule, history, stream, added);
    PruneIdempotent(rule, history + added);
    StreamStaysFinal(rule, stream, Surviving(rule, history, added));
  }

  lemma StreamStaysFinal(rule: PruneRule, stream: seq<Msg>, news: seq<Msg>)
    requires LeaveFinal(rule, stream)
    requires forall m :: m in news ==> Kept(rule, Left(stream + news), m)
    ensures LeaveFinal(rule, stream + news)
  {
    var all := stream + news;
    forall i, j | 0 <= i < j < |all| && IsLeave(all[i]) ensures Kept(rule, {all[i].body.id}, all[j]) {
      if |stream| <= j {
        assert all[j] in news && all[i] in all;
        KeptByAll(rule, Left(all), all[j]);
      }
    }
  }

  lemma AdvanceGood(rule: PruneRule, h: State, added: seq<Msg>, next: nat)
    requires Good(rule, h) && Newer(h.history, added)
    requires 1 <= next && AllBelow(h.history + added, next)
    ensures Good(rule, Advance(rule, h, added, next))
  {
    var now, news := Prune(rule, h.history + added), Surviving(rule, h.history, added);
    var h' := Advance(rule, h, added, next);
    LogAdvances(rule, h.history, added);
    StreamAdvances(rule, h.history, h.journal, added);
    assert h'.journal == h.journal + news;
    forall fd | fd in h'.clients ensures ClientGood(rule, h', h'.clients[fd]) {
      assert ClientGood(rule, h, h.clients[fd]);
      StreamAdvances(rule, h.history, h.clients[fd].sent, added);
      assert h'.clients[fd].sent == h.clients[fd].sent + news;
    }
  }

  // ----- Every step is an Advance -------------------------------------------------------------------

  lemma EvictionsAreNewer(h: State, ids: seq<nat>)
    requires LastSeq(h.history) < h.next
    ensures var added := Evictions(ids, Identified(h.clients), h.next);
            Newer(h.history, added) && AllBelow(added, h.next + |added|)
  {
    var added := Evictions(ids, Identified(h.clients), h.next);
    forall m | m in added ensures h.next <= m.serial < h.next + |added| {
      var i :| 0 <= i < |added| && added[i] == m;
    }
  }

  /** What a step appends before compacting, and the counter it leaves. */
  ghost function Adds(h: State, e: Event): Admission
    requires Enabled(h, e)
  {
    match e
    case Connected(fd) => Admission([], h.next)
    case Received(fd, m, uid) =>
      if Subject(m) == 0 then Admission([], h.next) else Admit(h, h.clients[fd].(nodeId := Subject(m)), m, uid)
    case Disconnected(fd) => Admission([LeaveOf(h.next, h.clients[fd].nodeId)], h.next + 1)
    case PurgeDue(order) =>
      var added := Evictions(order, Identified(h.clients), h.next);
      Admission(added, h.next + |added|)
  }

  ghost predicate FitsOn(history: seq<Msg>, a: Admission) {
    Newer(history, a.added) && 1 <= a.next && AllBelow(history + a.added, a.next)
  }

  lemma FitsOne(history: seq<Msg>, a: Admission)
    requires |a.added| <= 1 && LastSeq(history) < a.next && AllBelow(history, a.next)
    requires forall m :: m in a.added ==> LastSeq(history) < m.serial < a.next
    ensures FitsOn(history, a)
  {
  }

  lemma AdmitFits(h: State, c: Client, m: Msg, uid: nat)
    requires LastSeq(h.history) < h.next && AllBelow(h.history, h.next)
    ensures FitsOn(h.history, Admit(h, c, m, uid))
  {
    FitsOne(h.history, Admit(h, c, m, uid));
  }

  lemma AddsNewer(rule: PruneRule, h: State, e: Event)
    requires Good(rule, h) && Enabled(h, e)
    ensures FitsOn(h.history, Adds(h, e))
  {
    assert LastSeq(h.history) < h.next;
    var a := Adds(h, e);
    match e
    case PurgeDue(order) => EvictionsAreNewer(h, order);
    case Received(fd, m, uid) =>
      if Subject(m) == 0 {
        FitsOne(h.history, a);
      } else {
        AdmitFits(h, h.clients[fd].(nodeId := Subject(m)), m, uid);
      }
    case Connected(_) => FitsOne(h.history, a);
    case Disconnected(_) => FitsOne(h.history, a);
  }

  lemma ConnectGood(rule: PruneRule, h: State, fd: Fd)
    requires Good(rule, h)
    ensures Good(rule, Connect(h, fd))
  {
    var h' := Connect(h, fd);
    forall f | f in h'.clients ensures ClientGood(rule, h', h'.clients[f]) {
      assert f != fd ==> ClientGood(rule, h, h.clients[f]);
    }
  }

  lemma DataGood(rule: PruneRule, h: State, fd: Fd, m: Msg, uid: nat)
    requires Good(rule, h) && fd in h.clients
    ensures Good(rule, Data(rule, h, fd, m, uid))
  {
    if Subject(m) != 0 {
      AddsNewer(rule, h, Received(fd, m, uid));
      var c := h.clients[fd].(nodeId := Subject(m));
      var a := Admit(h, c, m, uid);
      var h1 := h.(clients := h.clients[fd := c.(offered := c.offered + a.added)]);
      forall f | f in h1.clients ensures ClientGood(rule, h1, h1.clients[f]) {
        assert ClientGood(rule, h, h.clients[f]);
      }
      AdvanceGood(rule, h1, a.added, a.next);
    }
  }

  lemma DisconnectGood(rule: PruneRule, h: State, fd: Fd)
    requires Good(rule, h) && fd in h.clients
    ensures Good(rule, Disconnect(rule, h, fd))
  {
    AddsNewer(rule, h, Disconnected(fd));
    var h1 := h.(clients := h.clients - {fd});
    forall f | f in h1.clients ensures ClientGood(rule, h1, h1.clients[f]) {
      assert ClientGood(rule, h, h.clients[f]);
    }
    AdvanceGood(rule, h1, [LeaveOf(h.next, h.clients[fd].nodeId)], h.next + 1);
  }

  lemma PurgeGood(rule: PruneRule, h: State, order: seq<nat>)
    requires Good(rule, h) && Enumerates(order, Active(h.history))
    ensures Good(rule, Purge(rule, h, order))
  {
    AddsNewer(rule, h, PurgeDue(order));
    var added := Evictions(order, Identified(h.clients), h.next);
    AdvanceGood(rule, h, added, h.next + |added|);
  }

  lemma StepGood(rule: PruneRule, h: State, e: Event)
    requires Good(rule, h) && Enabled(h, e)
    ensures Good(rule, Step(rule, h, e))
  {
    match e
    case Connected(fd) => ConnectGood(rule, h, fd);
    case Received(fd, m, uid) => DataGood(rule, h, fd, m, uid);
    case Disconnected(fd) => DisconnectGood(rule, h, fd);
    case PurgeDue(order) => PurgeGood(rule, h, order);
  }

  lemma NextGood(rule: PruneRule, h: State, e: Event)
    requires Good(rule, h)
    ensures Good(rule, Next(rule, h, e))
  {
    if Enabled(h, e) {
      StepGood(rule, h, e);
    }
  }

  /** From a digest that is strictly increasing and leave-final, every reachable hub is good. */
  lemma {:induction false} RunGood(rule: PruneRule, h: State, es: seq<Event>)
    requires Good(rule, h)
    ensures Good(rule, Run(rule, h, es))
    decreases |es|
  {
    if es != [] {
      NextGood(rule, h, es[0]);
      RunGood(rule, Next(rule, h, es[0]), es[1..]);
    }
  }
}
