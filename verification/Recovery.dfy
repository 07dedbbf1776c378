/** A new hub, opened with part of the group's history or none, is told the rest by several spokes at once. */
module Recovery {
  import opened Messages
  import opened Topology
  import opened Pruning
  import opened Hub
  import opened HubRuns
  import opened Retransmission
  import opened Repeats

  /** The messages a hub does not ignore for want of a node id. */
  function Named(log: seq<Msg>): (named: seq<Msg>)
    ensures forall m :: m in named <==> m in log && Subject(m) != 0
  {
    if log == [] then []
    else
      MembersOfTail(log);
      (if Subject(log[0]) != 0 then [log[0]] else []) + Named(log[1..])
  }

  /** A spoke connects, or uploads its next message. */
  datatype Action = Attach(fd: Fd) | Upload(fd: Fd)

  /** `position` is how far each spoke has got, `longest` the longest prefix anyone has uploaded. */
  datatype Phase = Phase(hub: State, position: map<Fd, nat>, longest: nat)

  /** The common log every spoke uploads a prefix of, in order: each entry is newer than those before it, and struck out
      by none of them. */
  predicate Uploadable(rule: PruneRule, log: seq<Msg>) {
    log == [] ||
    var n := |log| - 1;
    Uploadable(rule, log[..n]) && LastSeq(log[..n]) < log[n].serial && Kept(rule, Left(log[..n]), log[n])
  }

  lemma {:induction false} UploadableIff(rule: PruneRule, log: seq<Msg>)
    ensures Uploadable(rule, log) <==> Increasing(log) && LeaveFinal(rule, log)
  {
    if log != [] {
      var n := |log| - 1;
      assert log == log[..n] + [log[n]];
      UploadableIff(rule, log[..n]);
      LeaveFinalAppend(rule, log[..n], log[n]);
      PositiveAppend(log[..n], log[n]);
    }
  }

  ghost predicate Increasing(log: seq<Msg>) {
    Sorted(log) && forall m :: m in log ==> 0 < m.serial
  }

  lemma PositiveAppend(log: seq<Msg>, m: Msg)
    ensures Increasing(log + [m]) <==> Increasing(log) && LastSeq(log) < m.serial
  {
    SortedAppend(log, m);
    assert forall x :: x in log + [m] <==> x in log || x == m;
    assert log != [] ==> log[|log| - 1] in log;
  }

  lemma SortedAppend(log: seq<Msg>, m: Msg)
    ensures Sorted(log + [m]) <==> Sorted(log) && (log == [] || LastSeq(log) < m.serial)
  {
    var all := log + [m];
    assert all[|log|] == m && forall i :: 0 <= i < |log| ==> all[i] == log[i];
  }

  ghost function Take(rule: PruneRule, log: seq<Msg>, p: Phase, a: Action): Phase {
    match a
    case Attach(fd) =>
      if fd in p.hub.clients then p else p.(hub := Connect(p.hub, fd), position := p.position[fd := 0])
    case Upload(fd) =>
      if fd in p.hub.clients && fd in p.position && p.position[fd] < |log| then
        var at := p.position[fd];
        Phase(Data(rule, p.hub, fd, log[at], 0), p.position[fd := at + 1],
              if at + 1 > p.longest then at + 1 else p.longest)
      else p
  }

  ghost function TakeAll(rule: PruneRule, log: seq<Msg>, p: Phase, actions: seq<Action>): Phase
    decreases |actions|
  {
    if actions == [] then p else TakeAll(rule, log, Take(rule, log, p, actions[0]), actions[1..])
  }

  /** What a hub opened with the first `k` entries has when the first `n` have been uploaded. */
  function Accepted(log: seq<Msg>, k: nat, n: nat): seq<Msg>
    requires k <= n <= |log|
  {
    log[..k] + Named(log[k..n])
  }

  /** The hub was opened with the first `k` entries. It has the compacted part of the log that it was opened with or
      told of, or, as long as nothing has made it compact its log, just what it was opened with. */
  ghost predicate OnTrack(rule: PruneRule, log: seq<Msg>, k: nat, p: Phase) {
    && p.position.Keys == p.hub.clients.Keys
    && k <= p.longest <= |log|
    && (forall fd :: fd in p.position ==> p.position[fd] <= p.longest)
    && HasAccepted(rule, log, k, p.longest, p.hub.history)
  }

  ghost predicate HasAccepted(rule: PruneRule, log: seq<Msg>, k: nat, n: nat, history: seq<Msg>)
    requires k <= n <= |log|
  {
    history == Prune(rule, Accepted(log, k, n)) || history == Accepted(log, k, n) == log[..k]
  }

  lemma {:induction false} NamedConcat(a: seq<Msg>, b: seq<Msg>)
    ensures Named(a + b) == Named(a) + Named(b)
  {
    if a == [] {
      assert a + b == b;
    } else {
      assert (a + b)[1..] == a[1..] + b;
      NamedConcat(a[1..], b);
    }
  }

  lemma {:induction false} NamedSeed(rule: PruneRule, log: seq<Msg>)
    requires Seed(rule, log)
    ensures Seed(rule, Named(log))
  {
    if log != [] {
      NamedSeed(rule, log[1..]);
      var rest := Named(log[1..]);
      forall m | m in rest
        ensures log[0].serial < m.serial
        ensures IsLeave(log[0]) ==> Kept(rule, {log[0].body.id}, m)
      {
        var i :| 0 <= i < |log[1..]| && log[1..][i] == m;
        assert log[i + 1] == m;
      }
      if Subject(log[0]) != 0 {
        SeedCons(rule, log[0], rest);
      } else {
        assert Named(log) == [] + rest == rest;
      }
    }
  }

  lemma SeedCons(rule: PruneRule, m: Msg, rest: seq<Msg>)
    requires Seed(rule, rest)
    requires forall r :: r in rest ==> m.serial < r.serial
    requires forall r :: r in rest && IsLeave(m) ==> Kept(rule, {m.body.id}, r)
    ensures Seed(rule, [m] + rest)
  {
  }

  lemma SeedPrefix(rule: PruneRule, log: seq<Msg>, k: nat)
    requires Seed(rule, log) && k <= |log|
    ensures Seed(rule, log[..k])
  {
  }

  lemma SeedSlice(rule: PruneRule, log: seq<Msg>, k: nat, n: nat)
    requires Seed(rule, log) && k <= n <= |log|
    ensures Seed(rule, log[k..n])
  {
  }

  lemma AcceptedIsSeed(rule: PruneRule, log: seq<Msg>, k: nat, n: nat)
    requires Seed(rule, log) && k <= n <= |log|
    ensures Seed(rule, Accepted(log, k, n))
  {
    SeedPrefix(rule, log, k);
    SeedSlice(rule, log, k, n);
    NamedSeed(rule, log[k..n]);
    forall m | m in Named(log[k..n]) ensures m in log && (k > 0 ==> log[k - 1].serial < m.serial) {
      var i :| k <= i < n && log[i] == m;
    }
    if k > 0 {
      SortedConcat(log[..k], Named(log[k..n]));
    } else {
      assert log[..0] + Named(log[0..n]) == Named(log[0..n]);
    }
    SortedSameIsOne(Accepted(log, k, n));
    SortedSameIsOne(log);
    PartIsLeaveFinal(rule, Accepted(log, k, n), log);
  }

  /** Where the upload stands, in terms of the part of the common log the hub has accepted. */
  lemma AcceptedPart(rule: PruneRule, log: seq<Msg>, k: nat, p: Phase)
    requires Uploadable(rule, log) && OnTrack(rule, log, k, p)
    ensures var part := Accepted(log, k, p.longest);
            && LastSeq(p.hub.history) == LastSeq(part)
            && (p.hub.history == [] <==> part == [])
            && Prune(rule, p.hub.history) == Prune(rule, part)
            && (k == 0 ==> Compacted(rule, p.hub))
  {
    UploadableIff(rule, log);
    AcceptedIsSeed(rule, log, k, p.longest);
    SeedPrunes(rule, Accepted(log, k, p.longest));
  }

  lemma SeedPrunes(rule: PruneRule, part: seq<Msg>)
    requires Seed(rule, part)
    ensures LastSeq(Prune(rule, part)) == LastSeq(part)
    ensures Prune(rule, part) == [] <==> part == []
    ensures Prune(rule, Prune(rule, part)) == Prune(rule, part)
  {
    PruneIdempotent(rule, part);
    if part != [] {
      NewestSurvives(rule, part);
    }
  }

  lemma UploadedIsAccepted(log: seq<Msg>, k: nat, n: nat, at: nat)
    requires k <= n <= |log| && at < n && Subject(log[at]) != 0
    ensures log[at] in Accepted(log, k, n)
  {
    if at < k {
      assert log[..k][at] in log[..k];
    } else {
      assert log[k..n][at - k] in log[k..n];
    }
  }

  lemma UploadedIsCovered(rule: PruneRule, log: seq<Msg>, k: nat, n: nat, at: nat)
    requires Uploadable(rule, log) && k <= n <= |log| && at < n && Subject(log[at]) != 0
    ensures log[at] in Accepted(log, k, n) && log[at].serial <= LastSeq(Accepted(log, k, n))
  {
    UploadedIsAccepted(log, k, n, at);
    UploadableIff(rule, log);
    AcceptedIsSeed(rule, log, k, n);
    SortedBelowLast(Accepted(log, k, n));
  }

  lemma LateIsNotNewer(rule: PruneRule, log: seq<Msg>, k: nat, p: Phase, at: nat)
    requires Uploadable(rule, log) && OnTrack(rule, log, k, p)
    requires at < p.longest && Subject(log[at]) != 0
    ensures 0 < log[at].serial && !AllBelow(p.hub.history, log[at].serial)
  {
    UploadableIff(rule, log);
    AcceptedPart(rule, log, k, p);
    UploadedIsCovered(rule, log, k, p.longest, at);
    assert log[at] in log;
    assert p.hub.history[|p.hub.history| - 1] in p.hub.history;
  }

  /** A message that somebody has uploaded before, struck out since or not, changes nothing; at most it makes a hub that
      has not compacted the log it was opened with do so. */
  lemma LateUploadIgnored(rule: PruneRule, log: seq<Msg>, k: nat, p: Phase, fd: Fd)
    requires Uploadable(rule, log) && OnTrack(rule, log, k, p) && Good(rule, p.hub)
    requires fd in p.position && p.position[fd] < p.longest
    ensures var h := Data(rule, p.hub, fd, log[p.position[fd]], 0);
            && (k == 0 || Compacted(rule, p.hub) ==> SameOutside(p.hub, h))
            && (h.history == p.hub.history || h.history == Prune(rule, p.hub.history))
            && h.next == p.hub.next
  {
    var m := log[p.position[fd]];
    if Subject(m) != 0 {
      AcceptedPart(rule, log, k, p);
      LateIsNotNewer(rule, log, k, p, p.position[fd]);
      RejectedAdds(rule, p.hub, fd, m);
      assert p.hub.history + [] == p.hub.history;
      if Compacted(rule, p.hub) {
        StaleIgnored(rule, p.hub, fd, m);
      }
    }
  }

  lemma AcceptedHistory(rule: PruneRule, h: State, fd: Fd, m: Msg, part: seq<Msg>)
    requires fd in h.clients && m.serial > 0 && Subject(m) != 0
    requires h.history == Prune(rule, part) || h.history == part
    requires AllBelow(part, m.serial)
    ensures Data(rule, h, fd, m, 0).history == Prune(rule, part + [m])
  {
    assert AllBelow(h.history, m.serial);
    PruneIncremental(rule, part, [m]);
  }

  lemma NewerThanAccepted(log: seq<Msg>, k: nat, n: nat)
    requires Sorted(log) && k <= n < |log|
    ensures AllBelow(Accepted(log, k, n), log[n].serial)
  {
    forall o | o in Accepted(log, k, n) ensures o.serial < log[n].serial {
      assert o in log[..k] || o in log[k..n];
      var i :| 0 <= i < n && log[i] == o;
    }
  }

  lemma AcceptedNext(log: seq<Msg>, k: nat, n: nat)
    requires k <= n < |log|
    ensures Accepted(log, k, n + 1) == Accepted(log, k, n) + if Subject(log[n]) != 0 then [log[n]] else []
  {
    assert log[k..n + 1] == log[k..n] + [log[n]];
    NamedConcat(log[k..n], [log[n]]);
    assert [log[n]][1..] == [];
    assert Named([log[n]]) == if Subject(log[n]) != 0 then [log[n]] else [];
  }

  lemma NewUploadAccepted(rule: PruneRule, log: seq<Msg>, k: nat, n: nat, h: State, fd: Fd, m: Msg, hub: State)
    requires Sorted(log) && k <= n < |log| && m == log[n] && 0 < m.serial
    requires fd in h.clients && hub == Data(rule, h, fd, m, 0)
    requires HasAccepted(rule, log, k, n, h.history)
    ensures HasAccepted(rule, log, k, n + 1, hub.history)
  {
    AcceptedNext(log, k, n);
    if Subject(m) != 0 {
      NewerThanAccepted(log, k, n);
      AcceptedHistory(rule, h, fd, m, Accepted(log, k, n));
    } else {
      assert Accepted(log, k, n + 1) == Accepted(log, k, n);
    }
  }

  lemma UploadMoves(rule: PruneRule, log: seq<Msg>, k: nat, p: Phase, fd: Fd, hub: State, longest: nat)
    requires OnTrack(rule, log, k, p) && fd in p.position && p.position[fd] < |log|
    requires hub.clients.Keys == p.hub.clients.Keys
    requires longest == if p.position[fd] + 1 > p.longest then p.position[fd] + 1 else p.longest
    requires k <= longest <= |log| && HasAccepted(rule, log, k, longest, hub.history)
    ensures OnTrack(rule, log, k, Phase(hub, p.position[fd := p.position[fd] + 1], longest))
  {
  }

  lemma LateKeepsTrack(rule: PruneRule, log: seq<Msg>, k: nat, p: Phase, fd: Fd, m: Msg, hub: State)
    requires Uploadable(rule, log) && OnTrack(rule, log, k, p)
    requires fd in p.position && p.position[fd] < p.longest && m == log[p.position[fd]]
    requires hub == Data(rule, p.hub, fd, m, 0)
    ensures HasAccepted(rule, log, k, p.longest, hub.history)
  {
    if Subject(m) != 0 {
      AcceptedPart(rule, log, k, p);
      LateIsNotNewer(rule, log, k, p, p.position[fd]);
      RejectedAdds(rule, p.hub, fd, m);
      assert p.hub.history + [] == p.hub.history;
    }
  }

  lemma DataKeepsClients(rule: PruneRule, h: State, fd: Fd, m: Msg, uid: nat)
    requires fd in h.clients
    ensures Data(rule, h, fd, m, uid).clients.Keys == h.clients.Keys
  {
  }

  lemma PositiveNumber(rule: PruneRule, log: seq<Msg>, n: nat)
    requires Uploadable(rule, log) && n < |log|
    ensures 0 < log[n].serial
  {
    UploadableIff(rule, log);
    assert log[n] in log;
  }

  /** The log after an upload, late or not. */
  lemma UploadHistory(
      rule: PruneRule, log: seq<Msg>, k: nat, p: Phase, fd: Fd, m: Msg, hub: State, longest: nat)
    requires Uploadable(rule, log) && OnTrack(rule, log, k, p)
    requires fd in p.position && p.position[fd] < |log| && m == log[p.position[fd]]
    requires hub == Data(rule, p.hub, fd, m, 0)
    requires longest == if p.position[fd] + 1 > p.longest then p.position[fd] + 1 else p.longest
    ensures HasAccepted(rule, log, k, longest, hub.history)
  {
    if p.position[fd] < p.longest {
      LateKeepsTrack(rule, log, k, p, fd, m, hub);
    } else {
      PositiveNumber(rule, log, p.longest);
      UploadableIff(rule, log);
      NewUploadAccepted(rule, log, k, p.longest, p.hub, fd, m, hub);
    }
  }

  lemma UploadOnTrack(
      rule: PruneRule, log: seq<Msg>, k: nat, p: Phase, fd: Fd, m: Msg, hub: State, longest: nat)
    requires Uploadable(rule, log) && OnTrack(rule, log, k, p)
    requires fd in p.position && p.position[fd] < |log| && m == log[p.position[fd]]
    requires hub == Data(rule, p.hub, fd, m, 0)
    requires longest == if p.position[fd] + 1 > p.longest then p.position[fd] + 1 else p.longest
    ensures OnTrack(rule, log, k, Phase(hub, p.position[fd := p.position[fd] + 1], longest))
  {
    UploadHistory(rule, log, k, p, fd, m, hub, longest);
    DataKeepsClients(rule, p.hub, fd, m, 0);
    UploadMoves(rule, log, k, p, fd, hub, longest);
  }

  lemma AttachMoves(rule: PruneRule, log: seq<Msg>, k: nat, p: Phase, fd: Fd, hub: State)
    requires OnTrack(rule, log, k, p)
    requires hub.history == p.hub.history && hub.clients.Keys == p.hub.clients.Keys + {fd}
    requires fd !in p.hub.clients
    ensures OnTrack(rule, log, k, p.(hub := hub, position := p.position[fd := 0]))
  {
  }

  lemma AttachOnTrack(rule: PruneRule, log: seq<Msg>, k: nat, p: Phase, fd: Fd, hub: State)
    requires OnTrack(rule, log, k, p) && fd !in p.hub.clients && hub == Connect(p.hub, fd)
    ensures OnTrack(rule, log, k, p.(hub := hub, position := p.position[fd := 0]))
  {
    assert hub.clients.Keys == p.hub.clients.Keys + {fd};
    AttachMoves(rule, log, k, p, fd, hub);
  }

  lemma TakeAttach(rule: PruneRule, log: seq<Msg>, k: nat, p: Phase, fd: Fd, next: Phase)
    requires OnTrack(rule, log, k, p) && next == Take(rule, log, p, Attach(fd))
    ensures OnTrack(rule, log, k, next)
  {
    if fd !in p.hub.clients {
      AttachOnTrack(rule, log, k, p, fd, next.hub);
    }
  }

  lemma TakeUpload(rule: PruneRule, log: seq<Msg>, k: nat, p: Phase, fd: Fd, next: Phase)
    requires Uploadable(rule, log) && OnTrack(rule, log, k, p) && next == Take(rule, log, p, Upload(fd))
    ensures OnTrack(rule, log, k, next)
  {
    if fd in p.position && p.position[fd] < |log| {
      UploadOnTrack(rule, log, k, p, fd, log[p.position[fd]], next.hub, next.longest);
    }
  }

  lemma TakeOnTrack(rule: PruneRule, log: seq<Msg>, k: nat, p: Phase, a: Action)
    requires Uploadable(rule, log) && OnTrack(rule, log, k, p)
    ensures OnTrack(rule, log, k, Take(rule, log, p, a))
  {
    match a
    case Attach(fd) => TakeAttach(rule, log, k, p, fd, Take(rule, log, p, a));
    case Upload(fd) => TakeUpload(rule, log, k, p, fd, Take(rule, log, p, a));
  }

  lemma TakeGood(rule: PruneRule, log: seq<Msg>, p: Phase, a: Action)
    requires Good(rule, p.hub)
    ensures Good(rule, Take(rule, log, p, a).hub)
  {
    match a
    case Attach(fd) => ConnectGood(rule, p.hub, fd);
    case Upload(fd) =>
      if fd in p.hub.clients && fd in p.position && p.position[fd] < |log| {
        DataGood(rule, p.hub, fd, log[p.position[fd]], 0);
      }
  }

  lemma {:induction false} RecoveryFrom(rule: PruneRule, log: seq<Msg>, k: nat, p: Phase, actions: seq<Action>)
    requires Uploadable(rule, log) && OnTrack(rule, log, k, p) && Good(rule, p.hub)
    ensures OnTrack(rule, log, k, TakeAll(rule, log, p, actions)) && Good(rule, TakeAll(rule, log, p, actions).hub)
    decreases |actions|
  {
    if actions != [] {
      TakeOnTrack(rule, log, k, p, actions[0]);
      TakeGood(rule, log, p, actions[0]);
      RecoveryFrom(rule, log, k, Take(rule, log, p, actions[0]), actions[1..]);
    }
  }

  /** Recovery under any interleaving: spokes that come and upload, each in order and each as far as it gets, leave a
      hub that was opened with the first `k` entries at every point with the compacted longest prefix that it was
      opened with or anyone has uploaded; or, until it first compacts, with just what it was opened with. */
  lemma HistoryRecovered(rule: PruneRule, log: seq<Msg>, k: nat, actions: seq<Action>)
    requires Uploadable(rule, log) && k <= |log|
    ensures var p := TakeAll(rule, log, Phase(Open(log[..k]), map[], k), actions);
            && k <= p.longest <= |log|
            && (|| p.hub.history == Prune(rule, Accepted(log, k, p.longest))
                || (k > 0 && p.hub.history == Accepted(log, k, p.longest) == log[..k]))
            && (forall fd :: fd in p.position ==> p.position[fd] <= p.longest)
            && Good(rule, p.hub)
  {
    UploadableIff(rule, log);
    StartOnTrack(rule, log, k, Phase(Open(log[..k]), map[], k));
    RecoveryFrom(rule, log, k, Phase(Open(log[..k]), map[], k), actions);
  }

  // ----- Uploads get through ----------------------------------------------------------------------------------------

  /** An upload by an attached spoke that is not finished hands the hub that spoke's next entry and moves the spoke on
      by one; any other changes nothing. A newcomer is connected and starts at the beginning. */
  lemma TakeReachesHub(rule: PruneRule, log: seq<Msg>, p: Phase, fd: Fd)
    requires p.position.Keys == p.hub.clients.Keys
    ensures fd in p.position && p.position[fd] < |log| ==>
              var p', at := Take(rule, log, p, Upload(fd)), p.position[fd];
              && p'.hub == Step(rule, p.hub, Received(fd, log[at], 0))
              && p'.position == p.position[fd := at + 1]
              && p'.longest == if at < p.longest then p.longest else at + 1
    ensures fd !in p.position || |log| <= p.position[fd] ==> Take(rule, log, p, Upload(fd)) == p
    ensures fd !in p.position ==>
              var p' := Take(rule, log, p, Attach(fd));
              && p'.hub == Step(rule, p.hub, Connected(fd))
              && p'.position == p.position[fd := 0] && p'.longest == p.longest
    ensures fd in p.position ==> Take(rule, log, p, Attach(fd)) == p
  {
  }

  /** How far a spoke has got: one entry for each of its uploads, up to the end of the log. */
  lemma {:induction false} UploadsAdvance(
      rule: PruneRule, log: seq<Msg>, k: nat, p: Phase, actions: seq<Action>, fd: Fd)
    requires Uploadable(rule, log) && OnTrack(rule, log, k, p) && fd in p.position
    ensures var p', uploads := TakeAll(rule, log, p, actions), multiset(actions)[Upload(fd)];
            && OnTrack(rule, log, k, p') && fd in p'.position
            && p'.position[fd] == if p.position[fd] + uploads < |log| then p.position[fd] + uploads else |log|
    decreases |actions|
  {
    if actions != [] {
      var next := Take(rule, log, p, actions[0]);
      assert actions == [actions[0]] + actions[1..];
      assert multiset(actions) == multiset([actions[0]]) + multiset(actions[1..]);
      TakeOnTrack(rule, log, k, p, actions[0]);
      TakeMoves(rule, log, p, actions[0], fd);
      UploadsAdvance(rule, log, k, next, actions[1..], fd);
    }
  }

  lemma TakeMoves(rule: PruneRule, log: seq<Msg>, p: Phase, a: Action, fd: Fd)
    requires p.position.Keys == p.hub.clients.Keys && fd in p.position
    ensures fd in Take(rule, log, p, a).position
    ensures Take(rule, log, p, a).position[fd]
         == if a == Upload(fd) && p.position[fd] < |log| then p.position[fd] + 1 else p.position[fd]
  {
  }

  /** Recovery comes to an end. Once one attached spoke has uploaded as often as the log has entries, whatever others do
      in between, the hub has the whole log: what it was opened with, compacted with those of the other entries that
      name a node. If there are none of these it may still have just what it was opened with. */
  lemma WholeLogRecovered(
      rule: PruneRule, log: seq<Msg>, k: nat, before: seq<Action>, after: seq<Action>, fd: Fd)
    requires Uploadable(rule, log) && k <= |log|
    requires fd in TakeAll(rule, log, Phase(Open(log[..k]), map[], k), before).position
    requires multiset(after)[Upload(fd)] >= |log|
    ensures var p := TakeAll(rule, log, TakeAll(rule, log, Phase(Open(log[..k]), map[], k), before), after);
            && p.longest == |log|
            && (|| p.hub.history == Prune(rule, log[..k] + Named(log[k..]))
                || (p.hub.history == log[..k] && forall m :: m in log[k..] ==> Subject(m) == 0))
  {
    var start := Phase(Open(log[..k]), map[], k);
    StartOnTrack(rule, log, k, start);
    RecoveryFrom(rule, log, k, start, before);
    UploadsAdvance(rule, log, k, TakeAll(rule, log, start, before), after, fd);
    FinishedHasAll(rule, log, k, TakeAll(rule, log, TakeAll(rule, log, start, before), after), fd);
  }

  lemma StartOnTrack(rule: PruneRule, log: seq<Msg>, k: nat, start: Phase)
    requires Uploadable(rule, log) && k <= |log| && start == Phase(Open(log[..k]), map[], k)
    ensures OnTrack(rule, log, k, start) && Good(rule, start.hub)
  {
    UploadableIff(rule, log);
    SeedPrefix(rule, log, k);
    OpenGood(rule, log[..k]);
    assert Accepted(log, k, k) == log[..k];
  }

  lemma FinishedHasAll(rule: PruneRule, log: seq<Msg>, k: nat, p: Phase, fd: Fd)
    requires k <= |log| && OnTrack(rule, log, k, p) && fd in p.position && p.position[fd] == |log|
    ensures p.longest == |log|
    ensures || p.hub.history == Prune(rule, log[..k] + Named(log[k..]))
            || (p.hub.history == log[..k] && forall m :: m in log[k..] ==> Subject(m) == 0)
  {
    assert log[k..|log|] == log[k..];
    NothingNamed(log, k);
  }

  lemma NothingNamed(log: seq<Msg>, k: nat)
    requires k <= |log|
    ensures log[..k] + Named(log[k..]) == log[..k] ==> forall m :: m in log[k..] ==> Subject(m) == 0
  {
    if log[..k] + Named(log[k..]) == log[..k] {
      assert |Named(log[k..])| == 0;
    }
  }
}
