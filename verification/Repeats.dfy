/** A hub opened with the log of a spoke that has reconnected. Such a log holds some entries several times; the hub
    behaves like one opened with each entry once. */
module Repeats {
  import opened Messages
  import opened Topology
  import opened Pruning
  import opened Hub
  import opened HubRuns

  /** Ordered, and entries with one number are one message. */
  ghost predicate RepeatsOnly(log: seq<Msg>) {
    forall i, j :: 0 <= i < j < |log| ==> log[i] == log[j] || log[i].serial < log[j].serial
  }

  /** Each number once. */
  function Once(log: seq<Msg>): seq<Msg> {
    if |log| <= 1 then log
    else if log[0].serial == log[1].serial then Once(log[1..])
    else [log[0]] + Once(log[1..])
  }

  lemma TailRepeatsOnly(log: seq<Msg>)
    requires RepeatsOnly(log) && log != []
    ensures RepeatsOnly(log[1..])
    ensures forall m :: m in log[1..] ==> log[0].serial <= m.serial
    ensures |log| > 1 && log[0].serial == log[1].serial ==> log[0] == log[1]
  {
    assert |log| > 1 ==> log[1] in log;
  }

  lemma {:induction false} OnceKeepsAll(log: seq<Msg>)
    requires RepeatsOnly(log)
    ensures forall m :: m in Once(log) <==> m in log
    ensures LastSeq(Once(log)) == LastSeq(log)
  {
    OnceKeepsLast(log);
    if |log| > 1 {
      MembersOfTail(log);
      TailRepeatsOnly(log);
      OnceKeepsAll(log[1..]);
    }
  }

  lemma {:induction false} OnceKeepsLast(log: seq<Msg>)
    ensures log != [] ==> Once(log) != []
    ensures LastSeq(Once(log)) == LastSeq(log)
  {
    if |log| > 1 {
      OnceKeepsLast(log[1..]);
    }
  }

  lemma {:induction false} OnceIsSorted(log: seq<Msg>)
    requires RepeatsOnly(log)
    ensures Sorted(Once(log))
  {
    if |log| > 1 {
      TailRepeatsOnly(log);
      OnceIsSorted(log[1..]);
      if log[0].serial < log[1].serial {
        LaterIsNewer(log);
        OnceKeepsAll(log[1..]);
        SortedCons(log[0], Once(log[1..]));
      }
    }
  }

  lemma LaterIsNewer(log: seq<Msg>)
    requires WeaklySorted(log) && |log| > 1 && log[0].serial < log[1].serial
    ensures forall m :: m in log[1..] ==> log[0].serial < m.serial
  {
    forall m | m in log[1..] ensures log[0].serial < m.serial {
      var i :| 0 <= i < |log[1..]| && log[1..][i] == m;
      assert log[i + 1] == m;
    }
  }

  lemma SortedCons(m: Msg, log: seq<Msg>)
    requires Sorted(log) && forall r :: r in log ==> m.serial < r.serial
    ensures Sorted([m] + log)
  {
  }

  lemma {:induction false} SortedUnique(a: seq<Msg>, b: seq<Msg>)
    requires Sorted(a) && Sorted(b) && forall m :: m in a <==> m in b
    ensures a == b
  {
    assert (a != [] ==> a[0] in b) && (b != [] ==> b[0] in a);
    if a != [] {
      SortedHeadIsLeast(a);
      SortedHeadIsLeast(b);
      assert a[0] in b && b[0] in a;
      MembersOfTail(a);
      MembersOfTail(b);
      SortedUnique(a[1..], b[1..]);
      assert a == [a[0]] + a[1..] && b == [b[0]] + b[1..];
    }
  }

  lemma SortedHeadIsLeast(log: seq<Msg>)
    requires Sorted(log) && log != []
    ensures forall m :: m in log[1..] ==> log[0].serial < m.serial
  {
    forall m | m in log[1..] ensures log[0].serial < m.serial {
      var i :| 0 <= i < |log[1..]| && log[1..][i] == m;
    }
  }

  lemma OnceAppend(log: seq<Msg>, news: seq<Msg>)
    requires RepeatsOnly(log) && Newer(log, news)
    ensures RepeatsOnly(log + news)
    ensures Once(log + news) == Once(log) + news
  {
    AppendRepeatsOnly(log, news);
    OnceIsSorted(log);
    OnceKeepsAll(log);
    OnceIsSorted(log + news);
    OnceKeepsAll(log + news);
    SortedConcat(Once(log), news);
    SortedUnique(Once(log + news), Once(log) + news);
  }

  lemma BelowLast(log: seq<Msg>)
    requires WeaklySorted(log)
    ensures forall m :: m in log ==> m.serial <= LastSeq(log)
  {
    forall m | m in log ensures m.serial <= LastSeq(log) {
      var i :| 0 <= i < |log| && log[i] == m;
    }
  }

  lemma AppendRepeatsOnly(log: seq<Msg>, news: seq<Msg>)
    requires RepeatsOnly(log) && Newer(log, news)
    ensures RepeatsOnly(log + news)
  {
    var all := log + news;
    BelowLast(log);
    SortedSameIsOne(news);
    forall i, j | 0 <= i < j < |all| ensures all[i].serial <= all[j].serial {
      if i < |log| <= j {
        assert all[j] in news && all[i] in log;
      }
    }
  }

  lemma SortedSameIsOne(log: seq<Msg>)
    requires Sorted(log)
    ensures RepeatsOnly(log)
    ensures forall m, m' :: m in log && m' in log && m.serial == m'.serial ==> m == m'
  {
  }

  lemma RepeatsOnlyCons(m: Msg, log: seq<Msg>)
    ensures RepeatsOnly([m] + log) <==> RepeatsOnly(log) && forall r :: r in log ==> m == r || m.serial < r.serial
  {
    var all := [m] + log;
    assert all[0] == m && forall i :: 0 <= i < |log| ==> all[i + 1] == log[i];
    if RepeatsOnly(all) {
      forall i, j | 0 <= i < j < |log| ensures log[i] == log[j] || log[i].serial < log[j].serial {
        assert all[i + 1] == log[i] && all[j + 1] == log[j];
      }
    }
  }

  lemma {:induction false} KeepRepeatsOnly(rule: PruneRule, left: set<nat>, log: seq<Msg>)
    requires RepeatsOnly(log)
    ensures RepeatsOnly(Keep(rule, left, log))
  {
    if log != [] {
      assert log == [log[0]] + log[1..];
      RepeatsOnlyCons(log[0], log[1..]);
      KeepRepeatsOnly(rule, left, log[1..]);
      RepeatsOnlyCons(log[0], Keep(rule, left, log[1..]));
    }
  }

  /** Compacting and dropping repeats commute. */
  lemma KeepOnce(rule: PruneRule, left: set<nat>, log: seq<Msg>)
    requires RepeatsOnly(log)
    ensures RepeatsOnly(Keep(rule, left, log))
    ensures Once(Keep(rule, left, log)) == Keep(rule, left, Once(log))
  {
    KeepRepeatsOnly(rule, left, log);
    OnceIsSorted(log);
    OnceKeepsAll(log);
    OnceIsSorted(Keep(rule, left, log));
    OnceKeepsAll(Keep(rule, left, log));
    KeepSorted(rule, left, Once(log));
    SortedUnique(Once(Keep(rule, left, log)), Keep(rule, left, Once(log)));
  }

  lemma RetopicTwice(info: NodeInfo, verb: TopicOp, topic: string, mime: string)
    ensures Retopic(Retopic(info, verb, topic, mime), verb, topic, mime) == Retopic(info, verb, topic, mime)
  {
  }

  /** Saying it twice in a row says it once. */
  lemma ApplyTwice(joins: JoinRule, nodes: Nodes, m: Msg)
    ensures Apply(joins, Apply(joins, nodes, m), m) == Apply(joins, nodes, m)
  {
    if m.body.TopicChange? && m.body.nodeId in nodes {
      RetopicTwice(nodes[m.body.nodeId], m.body.verb, m.body.topic, m.body.mime);
    }
  }

  lemma {:induction false} OnceMeansTheSame(joins: JoinRule, log: seq<Msg>, nodes: Nodes)
    requires RepeatsOnly(log)
    ensures Replay(joins, Once(log), nodes) == Replay(joins, log, nodes)
  {
    if |log| > 1 {
      TailRepeatsOnly(log);
      if log[0].serial == log[1].serial {
        OnceMeansTheSame(joins, log[1..], nodes);
        ApplyTwice(joins, nodes, log[0]);
      } else {
        OnceMeansTheSame(joins, log[1..], Apply(joins, nodes, log[0]));
        assert ([log[0]] + Once(log[1..]))[1..] == Once(log[1..]);
      }
    }
  }

  // ----- Digests ----------------------------------------------------------------------------------------------------

  /** A log any hub may be opened with, entry by entry: a seed, but for repeats. */
  predicate Digest(rule: PruneRule, digest: seq<Msg>) {
    digest == [] ||
    var n := |digest| - 1;
    && Digest(rule, digest[..n])
    && Kept(rule, Left(digest[..n]), digest[n])
    && (n > 0 ==> digest[n - 1] == digest[n] || digest[n - 1].serial < digest[n].serial)
  }

  lemma {:induction false} DigestIff(rule: PruneRule, digest: seq<Msg>)
    ensures Digest(rule, digest) <==> RepeatsOnly(digest) && LeaveFinal(rule, digest)
  {
    if digest != [] {
      var n := |digest| - 1;
      assert digest == digest[..n] + [digest[n]];
      DigestIff(rule, digest[..n]);
      LeaveFinalAppend(rule, digest[..n], digest[n]);
      RepeatsOnlyAppend(digest[..n], digest[n]);
    }
  }

  lemma LeaveFinalAppend(rule: PruneRule, log: seq<Msg>, m: Msg)
    ensures LeaveFinal(rule, log + [m]) <==> LeaveFinal(rule, log) && Kept(rule, Left(log), m)
  {
    var all := log + [m];
    KeptByAll(rule, Left(log), m);
    if LeaveFinal(rule, all) {
      forall i, j | 0 <= i < j < |log| && IsLeave(log[i]) ensures Kept(rule, {log[i].body.id}, log[j]) {
        assert all[i] == log[i] && all[j] == log[j];
      }
      forall x | x in Left(log) ensures Kept(rule, {x}, m) {
        var l :| l in log && IsLeave(l) && l.body.id == x;
        var i :| 0 <= i < |log| && log[i] == l;
        assert all[i] == l && all[|log|] == m;
      }
    }
    if LeaveFinal(rule, log) && Kept(rule, Left(log), m) {
      forall i, j | 0 <= i < j < |all| && IsLeave(all[i]) ensures Kept(rule, {all[i].body.id}, all[j]) {
        if j == |log| {
          assert log[i] in log;
        }
      }
    }
  }

  lemma RepeatsOnlyAppend(log: seq<Msg>, m: Msg)
    ensures RepeatsOnly(log + [m]) <==> (
              RepeatsOnly(log) && (log != [] ==> log[|log| - 1] == m || log[|log| - 1].serial < m.serial))
  {
    var all := log + [m];
    assert all[|log|] == m && forall i :: 0 <= i < |log| ==> all[i] == log[i];
  }

  /** An ordered part of a leave-final log is leave-final. */
  lemma PartIsLeaveFinal(rule: PruneRule, part: seq<Msg>, log: seq<Msg>)
    requires RepeatsOnly(part) && RepeatsOnly(log) && LeaveFinal(rule, log)
    requires forall m :: m in part ==> m in log
    ensures LeaveFinal(rule, part)
  {
    forall i, j | 0 <= i < j < |part| && IsLeave(part[i]) ensures Kept(rule, {part[i].body.id}, part[j]) {
      assert part[i] in part && part[j] in part;
      var p :| 0 <= p < |log| && log[p] == part[i];
      var q :| 0 <= q < |log| && log[q] == part[j];
    }
  }

  lemma DigestOnceIsSeed(rule: PruneRule, digest: seq<Msg>)
    requires Digest(rule, digest)
    ensures RepeatsOnly(digest) && Seed(rule, Once(digest))
  {
    DigestIff(rule, digest);
    OnceKeepsAll(digest);
    OnceIsSorted(digest);
    SortedSameIsOne(Once(digest));
    PartIsLeaveFinal(rule, Once(digest), digest);
  }

  lemma {:induction false} OnceOfSorted(log: seq<Msg>)
    requires Sorted(log)
    ensures Once(log) == log
  {
    if |log| > 1 {
      OnceOfSorted(log[1..]);
    }
  }

  lemma SeedIsDigest(rule: PruneRule, digest: seq<Msg>)
    requires Seed(rule, digest)
    ensures Digest(rule, digest) && Once(digest) == digest
  {
    DigestIff(rule, digest);
    OnceOfSorted(digest);
  }

  // ----- A hub with repeats behaves like one without --------------------------------------------------------------

  function OnceClient(c: Client): Client {
    c.(sent := Once(c.sent))
  }

  function OnceClients(clients: map<Fd, Client>): map<Fd, Client> {
    map fd | fd in clients :: OnceClient(clients[fd])
  }

  lemma OncePut(clients: map<Fd, Client>, fd: Fd, c: Client)
    ensures OnceClients(clients[fd := c]) == OnceClients(clients)[fd := OnceClient(c)]
  {
  }

  lemma OnceDrop(clients: map<Fd, Client>, fd: Fd)
    ensures OnceClients(clients - {fd}) == OnceClients(clients) - {fd}
  {
  }

  /** The hub with every repeated entry, of its log and of every stream, taken once. */
  function Collapse(h: State): State {
    h.(history := Once(h.history), journal := Once(h.journal), clients := OnceClients(h.clients))
  }

  /** A good hub but for repeats. */
  ghost predicate GoodOnce(rule: PruneRule, h: State) {
    && RepeatsOnly(h.history) && RepeatsOnly(h.journal)
    && (forall fd :: fd in h.clients ==> RepeatsOnly(h.clients[fd].sent))
    && Good(rule, Collapse(h))
  }

  lemma SameLeft(log: seq<Msg>)
    requires RepeatsOnly(log)
    ensures Left(Once(log)) == Left(log)
  {
    OnceKeepsAll(log);
  }

  lemma SameBelow(log: seq<Msg>, serial: nat)
    requires RepeatsOnly(log)
    ensures AllBelow(Once(log), serial) <==> AllBelow(log, serial)
  {
    OnceKeepsAll(log);
  }

  /** With additions newer than the log, the compacted log differs in its repeats only, and what lies past a cursor at
      the end of the old log is the same. */
  lemma AdvanceOnce(rule: PruneRule, log: seq<Msg>, added: seq<Msg>)
    requires RepeatsOnly(log) && Seed(rule, Once(log)) && Newer(log, added)
    ensures RepeatsOnly(Prune(rule, log + added))
    ensures Once(Prune(rule, log + added)) == Prune(rule, Once(log) + added)
    ensures Surviving(rule, Once(log), added) == Surviving(rule, log, added)
    ensures Deliver(Prune(rule, log + added), LastSeq(log)) == Surviving(rule, log, added)
    ensures var news := Surviving(rule, log, added);
            CursorAfter(Prune(rule, log + added), LastSeq(log)) == if news == [] then LastSeq(log) else LastSeq(news)
  {
    OnceAppend(log, added);
    KeepOnce(rule, Left(log + added), log + added);
    SameLeft(log);
    LeftConcat(log, added);
    LeftConcat(Once(log), added);
    var left, news := Left(log + added), Surviving(rule, log, added);
    KeepConcat(rule, left, log, added);
    BelowLast(log);
    DeliverSkipsOld(Keep(rule, left, log), news, LastSeq(log));
    KeepSorted(rule, left, added);
    DeliverNews(news, LastSeq(log));
  }

  lemma ServedOnce(rule: PruneRule, c: Client, log: seq<Msg>, added: seq<Msg>)
    requires RepeatsOnly(log) && Seed(rule, Once(log)) && Newer(log, added)
    requires RepeatsOnly(c.sent) && c.serial == LastSeq(log) == LastSeq(c.sent)
    ensures var c' := Served(c, Prune(rule, log + added));
            && OnceClient(c') == Served(OnceClient(c), Prune(rule, Once(log) + added))
            && RepeatsOnly(c'.sent)
  {
    AdvanceOnce(rule, log, added);
    AdvanceOncePlain(rule, log, added);
    NewsAreNewer(rule, log, added);
    OnceAppend(c.sent, Surviving(rule, log, added));
  }

  lemma AdvanceOncePlain(rule: PruneRule, log: seq<Msg>, added: seq<Msg>)
    requires RepeatsOnly(log) && Seed(rule, Once(log)) && Newer(log, added)
    ensures var plain, news := Prune(rule, Once(log) + added), Surviving(rule, log, added);
            && Deliver(plain, LastSeq(log)) == news
            && CursorAfter(plain, LastSeq(log)) == if news == [] then LastSeq(log) else LastSeq(news)
  {
    AdvanceOnce(rule, log, added);
    OnceKeepsLast(log);
    LogAdvances(rule, Once(log), added);
  }

  lemma NewsAreNewer(rule: PruneRule, log: seq<Msg>, added: seq<Msg>)
    requires Newer(log, added)
    ensures Newer(log, Surviving(rule, log, added))
  {
    KeepSorted(rule, Left(log + added), added);
  }

  /** What a good hub but for repeats is needed for below. */
  ghost predicate Exact(rule: PruneRule, h: State) {
    && RepeatsOnly(h.history) && Seed(rule, Once(h.history))
    && LastSeq(h.history) < h.next && AllBelow(h.history, h.next)
    && RepeatsOnly(h.journal) && LastSeq(h.journal) == LastSeq(h.history)
    && forall fd :: fd in h.clients ==> ExactClient(h.clients[fd], h.history)
  }

  ghost predicate ExactClient(c: Client, log: seq<Msg>) {
    RepeatsOnly(c.sent) && c.serial == LastSeq(log) == LastSeq(c.sent)
  }

  lemma GoodOnceIsExact(rule: PruneRule, h: State)
    requires GoodOnce(rule, h)
    ensures Exact(rule, h)
  {
    var g := Collapse(h);
    OnceKeepsAll(h.history);
    OnceKeepsAll(h.journal);
    forall fd | fd in h.clients ensures ExactClient(h.clients[fd], h.history) {
      assert ClientGood(rule, g, g.clients[fd]);
      OnceKeepsAll(h.clients[fd].sent);
    }
  }

  lemma JournalCollapses(rule: PruneRule, h: State, added: seq<Msg>)
    requires Exact(rule, h) && Newer(h.history, added)
    ensures var longer := h.journal + Deliver(Prune(rule, h.history + added), LastSeq(h.journal));
            && RepeatsOnly(longer)
            && Once(longer)
               == Once(h.journal) + Deliver(Prune(rule, Once(h.history) + added), LastSeq(Once(h.journal)))
  {
    var news := Surviving(rule, h.history, added);
    AdvanceOnce(rule, h.history, added);
    OnceKeepsAll(h.history);
    OnceKeepsAll(h.journal);
    LogAdvances(rule, Once(h.history), added);
    assert Newer(h.journal, news);
    OnceAppend(h.journal, news);
  }

  lemma ClientsCollapse(
      rule: PruneRule, h: State, after: map<Fd, Client>, plain: map<Fd, Client>, added: seq<Msg>)
    requires Exact(rule, h) && Newer(h.history, added)
    requires after.Keys == plain.Keys == h.clients.Keys
    requires forall fd :: fd in h.clients ==>
               && after[fd] == Served(h.clients[fd], Prune(rule, h.history + added))
               && plain[fd] == Served(OnceClient(h.clients[fd]), Prune(rule, Once(h.history) + added))
    ensures OnceClients(after) == plain
    ensures forall fd :: fd in after ==> RepeatsOnly(after[fd].sent)
  {
    forall fd | fd in after ensures OnceClient(after[fd]) == plain[fd] && RepeatsOnly(after[fd].sent) {
      assert ExactClient(h.clients[fd], h.history);
      ServedOnce(rule, h.clients[fd], h.history, added);
    }
  }

  lemma AdvanceCollapses(rule: PruneRule, h: State, added: seq<Msg>, next: nat)
    requires Exact(rule, h) && Newer(h.history, added)
    ensures var h' := Advance(rule, h, added, next);
            && Collapse(h') == Advance(rule, Collapse(h), added, next)
            && RepeatsOnly(h'.history) && RepeatsOnly(h'.journal)
            && forall fd :: fd in h'.clients ==> RepeatsOnly(h'.clients[fd].sent)
  {
    var h', g := Advance(rule, h, added, next), Advance(rule, Collapse(h), added, next);
    AdvanceOnce(rule, h.history, added);
    JournalCollapses(rule, h, added);
    ClientsCollapse(rule, h, h'.clients, g.clients, added);
  }

  lemma ConnectCollapses(rule: PruneRule, h: State, fd: Fd)
    requires Exact(rule, h)
    ensures Collapses(Connect(h, fd), Connect(Collapse(h), fd))
  {
    OnceKeepsAll(h.history);
    OncePut(h.clients, fd, Client(LastSeq(h.history), 0, [], h.history));
  }

  /** The step of the hub with repeats, and that of the one without. */
  ghost predicate Collapses(h': State, plain: State) {
    && Collapse(h') == plain
    && RepeatsOnly(h'.history) && RepeatsOnly(h'.journal)
    && forall fd :: fd in h'.clients ==> RepeatsOnly(h'.clients[fd].sent)
  }

  lemma ExactWith(rule: PruneRule, h: State, clients: map<Fd, Client>)
    requires Exact(rule, h)
    requires forall fd :: fd in clients ==>
               fd in h.clients && clients[fd].sent == h.clients[fd].sent && clients[fd].serial == h.clients[fd].serial
    ensures Exact(rule, h.(clients := clients))
  {
    forall fd | fd in clients ensures ExactClient(clients[fd], h.history) {
      assert ExactClient(h.clients[fd], h.history);
    }
  }

  lemma AdvanceCollapsesWith(
      rule: PruneRule, h: State, clients: map<Fd, Client>, plain: map<Fd, Client>, added: seq<Msg>, next: nat)
    requires Exact(rule, h) && Newer(h.history, added) && OnceClients(clients) == plain
    requires forall fd :: fd in clients ==>
               fd in h.clients && clients[fd].sent == h.clients[fd].sent && clients[fd].serial == h.clients[fd].serial
    ensures Collapses(Advance(rule, h.(clients := clients), added, next),
                      Advance(rule, Collapse(h).(clients := plain), added, next))
  {
    ExactWith(rule, h, clients);
    AdvanceCollapses(rule, h.(clients := clients), added, next);
  }

  lemma AdmitOnce(rule: PruneRule, h: State, c: Client, m: Msg, uid: nat)
    requires RepeatsOnly(h.history)
    ensures Admit(Collapse(h), OnceClient(c), m, uid) == Admit(h, c, m, uid)
  {
    SameBelow(h.history, m.serial);
  }

  lemma DataCollapses(rule: PruneRule, h: State, fd: Fd, m: Msg, uid: nat)
    requires Exact(rule, h) && fd in h.clients && Subject(m) != 0
    ensures Collapses(Data(rule, h, fd, m, uid), Data(rule, Collapse(h), fd, m, uid))
  {
    var c := h.clients[fd].(nodeId := Subject(m));
    var a := Admit(h, c, m, uid);
    var c' := c.(offered := c.offered + a.added);
    AdmitOnce(rule, h, c, m, uid);
    AdmitFits(h, c, m, uid);
    OncePut(h.clients, fd, c');
    AdvanceCollapsesWith(rule, h, h.clients[fd := c'], OnceClients(h.clients)[fd := OnceClient(c')], a.added, a.next);
  }

  lemma DisconnectCollapses(rule: PruneRule, h: State, fd: Fd)
    requires Exact(rule, h) && fd in h.clients
    ensures Collapses(Disconnect(rule, h, fd), Disconnect(rule, Collapse(h), fd))
  {
    OnceDrop(h.clients, fd);
    AdvanceCollapsesWith(rule, h, h.clients - {fd}, OnceClients(h.clients) - {fd},
                         [LeaveOf(h.next, h.clients[fd].nodeId)], h.next + 1);
  }

  lemma PurgeOnce(rule: PruneRule, h: State, order: seq<nat>, added: seq<Msg>)
    requires added == Evictions(order, Identified(h.clients), h.next)
    ensures Purge(rule, h, order) == Advance(rule, h, added, h.next + |added|)
    ensures Purge(rule, Collapse(h), order) == Advance(rule, Collapse(h), added, h.next + |added|)
  {
    SameIdentified(h);
  }

  lemma PurgeCollapses(rule: PruneRule, h: State, order: seq<nat>)
    requires Exact(rule, h)
    ensures Collapses(Purge(rule, h, order), Purge(rule, Collapse(h), order))
  {
    var added := Evictions(order, Identified(h.clients), h.next);
    PurgeOnce(rule, h, order, added);
    EvictionsAreNewer(h, order);
    AdvanceCollapses(rule, h, added, h.next + |added|);
  }

  lemma SameIdentified(h: State)
    ensures Identified(Collapse(h).clients) == Identified(h.clients)
  {
    var claimed := Identified(Collapse(h).clients);
    forall x ensures x in Identified(h.clients) <==> x in claimed {
      if x in Identified(h.clients) {
        var fd :| fd in h.clients && h.clients[fd].nodeId == x;
        assert fd in Collapse(h).clients;
      }
    }
  }

  lemma SameEnabled(rule: PruneRule, h: State, e: Event)
    requires RepeatsOnly(h.history)
    ensures Enabled(h, e) <==> Enabled(Collapse(h), e)
  {
    OnceMeansTheSame(KeepFirst, h.history, map[]);
  }

  lemma StepCollapses(rule: PruneRule, h: State, e: Event)
    requires Exact(rule, h) && Enabled(h, e) && Enabled(Collapse(h), e)
    ensures Collapses(Step(rule, h, e), Step(rule, Collapse(h), e))
  {
    match e
    case Connected(fd) => ConnectCollapses(rule, h, fd);
    case Received(fd, m, uid) =>
      if Subject(m) != 0 {
        DataCollapses(rule, h, fd, m, uid);
      }
    case Disconnected(fd) => DisconnectCollapses(rule, h, fd);
    case PurgeDue(order) => PurgeCollapses(rule, h, order);
  }

  lemma NextCollapses(rule: PruneRule, h: State, e: Event)
    requires GoodOnce(rule, h)
    ensures GoodOnce(rule, Next(rule, h, e))
    ensures Collapse(Next(rule, h, e)) == Next(rule, Collapse(h), e)
  {
    SameEnabled(rule, h, e);
    if Enabled(h, e) {
      StepGood(rule, Collapse(h), e);
      GoodOnceIsExact(rule, h);
      StepCollapses(rule, h, e);
    }
  }

  lemma {:induction false} RunCollapses(rule: PruneRule, h: State, es: seq<Event>)
    requires GoodOnce(rule, h)
    ensures GoodOnce(rule, Run(rule, h, es))
    ensures Collapse(Run(rule, h, es)) == Run(rule, Collapse(h), es)
    decreases |es|
  {
    if es != [] {
      NextCollapses(rule, h, es[0]);
      RunCollapses(rule, Next(rule, h, es[0]), es[1..]);
    }
  }

  /** However a run goes, a hub opened with a digest that repeats entries differs from one opened with each entry once
      in those repeats only: same counter, same cursors, same entries in the same order, on every wire too. And its
      log means the same. */
  lemma RepeatsDoNotMatter(rule: PruneRule, joins: JoinRule, digest: seq<Msg>, es: seq<Event>)
    requires Digest(rule, digest)
    ensures var h, plain := Run(rule, Open(digest), es), Run(rule, Open(Once(digest)), es);
            && Good(rule, plain)
            && Collapse(h) == plain
            && MeansTheSame(joins, h.history, plain.history)
            && forall fd :: fd in h.clients ==> MeansTheSame(joins, h.clients[fd].sent, plain.clients[fd].sent)
  {
    OpenCollapses(rule, digest);
    RunCollapses(rule, Open(digest), es);
    CollapseMeansTheSame(rule, joins, Run(rule, Open(digest), es));
  }

  lemma OpenCollapses(rule: PruneRule, digest: seq<Msg>)
    requires Digest(rule, digest)
    ensures GoodOnce(rule, Open(digest)) && Collapse(Open(digest)) == Open(Once(digest))
  {
    DigestOnceIsSeed(rule, digest);
    OnceKeepsAll(digest);
    OpenGood(rule, Once(digest));
    assert OnceClients(map[]) == map[];
  }

  lemma CollapseMeansTheSame(rule: PruneRule, joins: JoinRule, h: State)
    requires GoodOnce(rule, h)
    ensures MeansTheSame(joins, h.history, Once(h.history))
    ensures forall fd :: fd in h.clients ==> MeansTheSame(joins, h.clients[fd].sent, Once(h.clients[fd].sent))
  {
    OnceMeansAlways(joins, h.history);
    forall fd | fd in h.clients ensures MeansTheSame(joins, h.clients[fd].sent, Once(h.clients[fd].sent)) {
      OnceMeansAlways(joins, h.clients[fd].sent);
    }
  }

  lemma OnceMeansAlways(joins: JoinRule, log: seq<Msg>)
    requires RepeatsOnly(log)
    ensures MeansTheSame(joins, log, Once(log))
  {
    forall nodes ensures Replay(joins, log, nodes) == Replay(joins, Once(log), nodes) {
      OnceMeansTheSame(joins, log, nodes);
    }
  }
}
