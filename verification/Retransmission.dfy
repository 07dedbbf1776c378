/** Repeating oneself to the hub has no effect for as long as the connection lives. */
module Retransmission {
  import opened Messages
  import opened Pruning
  import opened Hub
  import opened HubRuns

  /** The payload stands in the contribution list of the connection on `fd`. */
  ghost predicate Offered(h: State, fd: Fd, body: Body) {
    fd in h.clients && Holds(h.clients[fd].offered, body)
  }

  ghost predicate Holds(offered: seq<Msg>, body: Body) {
    exists o :: o in offered && o.body == body
  }

  lemma EffectKeepsOffered(rule: PruneRule, h: State, a: Admission, h': State, fd: Fd, body: Body)
    requires Effect(rule, h, a, h') && Offered(h, fd, body) && fd in h'.clients
    ensures Offered(h', fd, body)
  {
    var o :| o in h.clients[fd].offered && o.body == body;
    assert h.clients[fd].offered <= h'.clients[fd].offered;
    assert o in h'.clients[fd].offered;
  }

  lemma StaysConnectedOne(rule: PruneRule, h: State, e: Event, fd: Fd)
    requires fd in h.clients && e != Disconnected(fd)
    ensures fd in Next(rule, h, e).clients
  {
  }

  lemma OfferedStaysOne(rule: PruneRule, h: State, e: Event, fd: Fd, body: Body)
    requires Good(rule, h) && Offered(h, fd, body) && e != Disconnected(fd)
    ensures Offered(Next(rule, h, e), fd, body)
  {
    if Enabled(h, e) {
      StaysConnectedOne(rule, h, e, fd);
      StepEffect(rule, h, e);
      EffectKeepsOffered(rule, h, Adds(h, e), Step(rule, h, e), fd, body);
    }
  }

  lemma {:induction false} OfferedStays(rule: PruneRule, h: State, es: seq<Event>, fd: Fd, body: Body)
    requires Good(rule, h) && Offered(h, fd, body) && Disconnected(fd) !in es
    ensures Offered(Run(rule, h, es), fd, body)
    ensures Compacted(rule, h) ==> Compacted(rule, Run(rule, h, es))
    decreases |es|
  {
    if es != [] {
      assert es[0] in es;
      NextGood(rule, h, es[0]);
      OfferedStaysOne(rule, h, es[0], fd, body);
      if Compacted(rule, h) {
        CompactedStaysOne(rule, h, es[0]);
      }
      OfferedStays(rule, Next(rule, h, es[0]), es[1..], fd, body);
    }
  }

  /** Log, counter, observer and every wire are the same; a client's claimed id may differ. */
  ghost predicate SameOutside(h: State, h': State) {
    && h'.history == h.history && h'.next == h.next && h'.journal == h.journal
    && h'.clients.Keys == h.clients.Keys
    && forall fd :: fd in h.clients ==>
         && h'.clients[fd].sent == h.clients[fd].sent
         && h'.clients[fd].serial == h.clients[fd].serial
         && h'.clients[fd].offered == h.clients[fd].offered
  }

  lemma QuietLog(rule: PruneRule, history: seq<Msg>)
    requires Seed(rule, history) && Prune(rule, history) == history
    ensures Prune(rule, history + []) == history
    ensures Deliver(history, LastSeq(history)) == []
    ensures CursorAfter(history, LastSeq(history)) == LastSeq(history)
  {
    assert history + [] == history;
    SortedBelowLast(history);
    DeliverSkipsOld(history, [], LastSeq(history));
  }

  lemma QuietClient(c: Client, history: seq<Msg>)
    requires c.serial == LastSeq(history)
    requires Deliver(history, c.serial) == [] && CursorAfter(history, c.serial) == c.serial
    ensures Served(c, history) == c
  {
    assert c.sent + [] == c.sent;
  }

  lemma QuietBroadcast(rule: PruneRule, h: State)
    requires Good(rule, h)
    requires Deliver(h.history, LastSeq(h.history)) == []
    requires CursorAfter(h.history, LastSeq(h.history)) == LastSeq(h.history)
    ensures Broadcast(h) == h
  {
    assert h.journal + [] == h.journal;
    forall fd | fd in h.clients ensures Served(h.clients[fd], h.history) == h.clients[fd] {
      assert ClientGood(rule, h, h.clients[fd]);
      QuietClient(h.clients[fd], h.history);
    }
    assert Broadcast(h).clients == h.clients;
  }

  /** Compacting and broadcasting with nothing to add is the identity. */
  lemma QuietAdvance(rule: PruneRule, h: State)
    requires Good(rule, h) && Compacted(rule, h)
    ensures Advance(rule, h, [], h.next) == h
  {
    QuietLog(rule, h.history);
    QuietBroadcast(rule, h);
    assert h.(history := Prune(rule, h.history + []), next := h.next) == h;
  }

  lemma RedundantAdds(rule: PruneRule, h: State, fd: Fd, m: Msg, uid: nat)
    requires Offered(h, fd, m.body) && m.serial == 0 && Subject(m) != 0
    ensures var h1 := h.(clients := h.clients[fd := h.clients[fd].(nodeId := Subject(m))]);
            Data(rule, h, fd, m, uid) == Advance(rule, h1, [], h.next)
  {
    var c := h.clients[fd].(nodeId := Subject(m));
    assert Redundant(m, c.offered);
    assert c.offered + [] == c.offered;
  }

  /** A message that adds nothing changes at most who the client claims to be. */
  lemma ClaimOnly(rule: PruneRule, h: State, fd: Fd, id: nat)
    requires Good(rule, h) && Compacted(rule, h) && fd in h.clients
    ensures var h1 := h.(clients := h.clients[fd := h.clients[fd].(nodeId := id)]);
            SameOutside(h, Advance(rule, h1, [], h.next))
  {
    OfferedGood(rule, h, fd, h.clients[fd].(nodeId := id));
    QuietAdvance(rule, h.(clients := h.clients[fd := h.clients[fd].(nodeId := id)]));
  }

  lemma ResendIgnoredNow(rule: PruneRule, h: State, fd: Fd, m: Msg, uid: nat)
    requires Good(rule, h) && Compacted(rule, h)
    requires Offered(h, fd, m.body) && m.serial == 0
    ensures SameOutside(h, Data(rule, h, fd, m, uid))
  {
    if Subject(m) != 0 {
      RedundantAdds(rule, h, fd, m, uid);
      ClaimOnly(rule, h, fd, Subject(m));
    }
  }

  lemma RejectedAdds(rule: PruneRule, h: State, fd: Fd, m: Msg)
    requires fd in h.clients && m.serial > 0 && Subject(m) != 0 && !AllBelow(h.history, m.serial)
    ensures var h1 := h.(clients := h.clients[fd := h.clients[fd].(nodeId := Subject(m))]);
            Data(rule, h, fd, m, 0) == Advance(rule, h1, [], h.next)
  {
    var c := h.clients[fd].(nodeId := Subject(m));
    assert c.offered + [] == c.offered;
  }

  /** An old message that is not newer than the whole log, be it a duplicate, a conflict or a hole it could fill,
      changes nothing. */
  lemma StaleIgnored(rule: PruneRule, h: State, fd: Fd, m: Msg)
    requires Good(rule, h) && Compacted(rule, h) && fd in h.clients
    requires m.serial > 0 && !AllBelow(h.history, m.serial)
    ensures SameOutside(h, Data(rule, h, fd, m, 0))
  {
    if Subject(m) != 0 {
      RejectedAdds(rule, h, fd, m);
      ClaimOnly(rule, h, fd, Subject(m));
    }
  }

  /** A payload handed in once, under a number or fresh, and not rejected then, can be handed in fresh at any later
      point of the connection's life: neither the log, nor the counter, nor anything on any wire changes. */
  lemma ResendIgnored(rule: PruneRule, h: State, fd: Fd, m: Msg, uid: nat, es: seq<Event>, again: Msg, uid': nat)
    requires Good(rule, h) && fd in h.clients
    requires m.serial == 0 || AllBelow(h.history, m.serial)
    requires again.serial == 0 && again.body == m.body
    requires Disconnected(fd) !in es
    ensures var later := Run(rule, Step(rule, h, Received(fd, m, uid)), es);
            fd in later.clients && SameOutside(later, Data(rule, later, fd, again, uid'))
  {
    var e := Received(fd, m, uid);
    var h1 := Step(rule, h, e);
    StepGood(rule, h, e);
    RunGood(rule, h1, es);
    if Subject(m) == 0 {
      StaysConnected(rule, h1, es, fd);
    } else {
      OfferedNext(rule, h, e, fd, m.body);
      PruneIdempotent(rule, h.history + Adds(h, e).added);
      OfferedStays(rule, h1, es, fd, m.body);
      ResendIgnoredNow(rule, Run(rule, h1, es), fd, again, uid');
    }
  }

  lemma {:induction false} StaysConnected(rule: PruneRule, h: State, es: seq<Event>, fd: Fd)
    requires fd in h.clients && Disconnected(fd) !in es
    ensures fd in Run(rule, h, es).clients
    decreases |es|
  {
    if es != [] {
      assert es[0] in es;
      StaysConnectedOne(rule, h, es[0], fd);
      StaysConnected(rule, Next(rule, h, es[0]), es[1..], fd);
    }
  }

  // ----- Exactly which payloads are remembered ----------------------------------------------------------------

  /** The message names a node, carries this payload and is not rejected: it is fresh, or newer than the whole log. */
  ghost predicate Takes(h: State, e: Event, fd: Fd, body: Body) {
    && e.Received? && e.fd == fd && fd in h.clients && e.m.body == body
    && Subject(e.m) != 0 && (e.m.serial == 0 || AllBelow(h.history, e.m.serial))
  }

  lemma OfferedByData(rule: PruneRule, h: State, fd: Fd, m: Msg, uid: nat, f: Fd)
    requires fd in h.clients && Subject(m) != 0 && f in h.clients
    ensures f in Data(rule, h, fd, m, uid).clients
    ensures Data(rule, h, fd, m, uid).clients[f].offered
         == h.clients[f].offered
            + if f == fd then Admit(h, h.clients[fd].(nodeId := Subject(m)), m, uid).added else []
  {
    assert f != fd ==> h.clients[f].offered + [] == h.clients[f].offered;
  }

  lemma OfferedAppend(offered: seq<Msg>, added: seq<Msg>, body: Body)
    ensures Holds(offered + added, body) <==> Holds(offered, body) || Holds(added, body)
  {
    assert forall o :: o in offered + added <==> o in offered || o in added;
  }

  lemma AdmittedPayload(h: State, c: Client, m: Msg, uid: nat, body: Body)
    requires Subject(m) != 0
    ensures var a := Admit(h, c, m, uid);
            Holds(a.added, body) || Holds(c.offered, body)
            <==> (m.body == body && (m.serial == 0 || AllBelow(h.history, m.serial))) || Holds(c.offered, body)
  {
    var a := Admit(h, c, m, uid);
    if a.added != [] {
      assert a.added[0] in a.added && a.added == [a.added[0]];
    }
  }

  lemma OfferedAfterData(rule: PruneRule, h: State, fd: Fd, m: Msg, uid: nat, f: Fd, body: Body)
    requires fd in h.clients && Subject(m) != 0
    ensures Offered(Data(rule, h, fd, m, uid), f, body)
       <==> Takes(h, Received(fd, m, uid), f, body) || Offered(h, f, body)
  {
    var h' := Data(rule, h, fd, m, uid);
    assert h'.clients.Keys == h.clients.Keys;
    if f in h.clients {
      var c := h.clients[fd].(nodeId := Subject(m));
      OfferedByData(rule, h, fd, m, uid, f);
      OfferedAppend(h.clients[f].offered, if f == fd then Admit(h, c, m, uid).added else [], body);
      AdmittedPayload(h, c, m, uid, body);
    }
  }

  /** What one event does to the contribution list of the connection on `fd`. */
  lemma OfferedNext(rule: PruneRule, h: State, e: Event, fd: Fd, body: Body)
    ensures Offered(Next(rule, h, e), fd, body)
       <==> Takes(h, e, fd, body) || (Offered(h, fd, body) && e != Disconnected(fd))
  {
    if Enabled(h, e) {
      match e
      case Connected(f) =>
      case Received(f, m, uid) =>
        if Subject(m) != 0 {
          OfferedAfterData(rule, h, f, m, uid, fd, body);
        }
      case Disconnected(f) =>
      case PurgeDue(_) =>
    }
  }

  /** Event `i` takes the payload, and the connection on `fd` does not break from then on. */
  ghost predicate TakenAt(rule: PruneRule, h: State, es: seq<Event>, i: nat, fd: Fd, body: Body) {
    && i < |es| && Takes(Run(rule, h, es[..i]), es[i], fd, body)
    && forall j :: i < j < |es| ==> es[j] != Disconnected(fd)
  }

  /** At some point of the run, and of the life that the connection on `fd` has at its end, the payload was taken. */
  ghost predicate HandedIn(rule: PruneRule, h: State, es: seq<Event>, fd: Fd, body: Body) {
    exists i :: TakenAt(rule, h, es, i, fd, body)
  }

  lemma TakenAtAppend(rule: PruneRule, h: State, es: seq<Event>, e: Event, i: nat, fd: Fd, body: Body)
    ensures TakenAt(rule, h, es + [e], i, fd, body)
       <==> if i == |es| then Takes(Run(rule, h, es), e, fd, body)
            else TakenAt(rule, h, es, i, fd, body) && e != Disconnected(fd)
  {
    var longer := es + [e];
    if i == |es| {
      assert longer[..i] == es;
    } else if i < |es| {
      assert longer[..i] == es[..i] && longer[|es|] == e;
      assert forall j :: 0 <= j < |es| ==> longer[j] == es[j];
    }
  }

  lemma HandedInAppend(rule: PruneRule, h: State, es: seq<Event>, e: Event, fd: Fd, body: Body)
    ensures HandedIn(rule, h, es + [e], fd, body)
       <==> Takes(Run(rule, h, es), e, fd, body) || (HandedIn(rule, h, es, fd, body) && e != Disconnected(fd))
  {
    forall i: nat
      ensures TakenAt(rule, h, es + [e], i, fd, body)
         <==> if i == |es| then Takes(Run(rule, h, es), e, fd, body)
              else TakenAt(rule, h, es, i, fd, body) && e != Disconnected(fd)
    {
      TakenAtAppend(rule, h, es, e, i, fd, body);
    }
    assert !TakenAt(rule, h, es, |es|, fd, body);
    assert TakenAt(rule, h, es + [e], |es|, fd, body) <==> Takes(Run(rule, h, es), e, fd, body);
  }

  lemma {:induction false} OfferedIffHandedIn(rule: PruneRule, h: State, es: seq<Event>, fd: Fd, body: Body)
    requires h.clients == map[]
    ensures Offered(Run(rule, h, es), fd, body) <==> HandedIn(rule, h, es, fd, body)
  {
    if es != [] {
      var n := |es| - 1;
      assert es == es[..n] + [es[n]];
      OfferedIffHandedIn(rule, h, es[..n], fd, body);
      RunAppend(rule, h, es[..n], es[n]);
      OfferedNext(rule, Run(rule, h, es[..n]), es[n], fd, body);
      HandedInAppend(rule, h, es[..n], es[n], fd, body);
    }
  }

  /** Until the hub compacts its log for the first time, nobody has contributed to it. */
  ghost predicate CompactedOnceOffered(rule: PruneRule, h: State) {
    (exists fd :: fd in h.clients && h.clients[fd].offered != []) ==> Compacted(rule, h)
  }

  lemma NextCompactedOnceOffered(rule: PruneRule, h: State, e: Event)
    requires Good(rule, h) && CompactedOnceOffered(rule, h)
    ensures CompactedOnceOffered(rule, Next(rule, h, e))
  {
    var h' := Next(rule, h, e);
    if fd :| fd in h'.clients && h'.clients[fd].offered != [] {
      var o := h'.clients[fd].offered[0];
      OfferedNext(rule, h, e, fd, o.body);
      assert Offered(h', fd, o.body);
      if Offered(h, fd, o.body) {
        CompactedStaysOne(rule, h, e);
      } else {
        PruneIdempotent(rule, h.history + Adds(h, e).added);
      }
    }
  }

  lemma {:induction false} RunCompactedOnceOffered(rule: PruneRule, h: State, es: seq<Event>)
    requires Good(rule, h) && CompactedOnceOffered(rule, h)
    ensures Good(rule, Run(rule, h, es)) && CompactedOnceOffered(rule, Run(rule, h, es))
    decreases |es|
  {
    if es != [] {
      NextGood(rule, h, es[0]);
      NextCompactedOnceOffered(rule, h, es[0]);
      RunCompactedOnceOffered(rule, Next(rule, h, es[0]), es[1..]);
    }
  }

  lemma UnknownIsMinted(rule: PruneRule, h: State, fd: Fd, m: Msg, uid: nat)
    requires fd in h.clients && m.serial == 0 && Subject(m) != 0 && !Offered(h, fd, m.body)
    ensures Data(rule, h, fd, m, uid).next == h.next + 1
  {
    assert !Redundant(m, h.clients[fd].(nodeId := Subject(m)).offered);
  }

  /** After any run, a fresh message has no effect on log, counter or any wire if and only if it names no node, or its
      payload was taken before in this life of its connection, fresh or under a number that was not rejected. Any other
      fresh message is given a number. */
  lemma FreshIgnoredIff(rule: PruneRule, digest: seq<Msg>, es: seq<Event>, fd: Fd, m: Msg, uid: nat)
    requires Seed(rule, digest) && fd in Run(rule, Open(digest), es).clients && m.serial == 0
    ensures var h := Run(rule, Open(digest), es);
            var h' := Data(rule, h, fd, m, uid);
            var known := Subject(m) == 0 || HandedIn(rule, Open(digest), es, fd, m.body);
            && (known ==> SameOutside(h, h'))
            && (!known ==> h'.next == h.next + 1)
  {
    var h := Run(rule, Open(digest), es);
    OpenGood(rule, digest);
    RunCompactedOnceOffered(rule, Open(digest), es);
    OfferedIffHandedIn(rule, Open(digest), es, fd, m.body);
    if Offered(h, fd, m.body) {
      assert h.clients[fd].offered != [];
      ResendIgnoredNow(rule, h, fd, m, uid);
    } else if Subject(m) != 0 {
      UnknownIsMinted(rule, h, fd, m, uid);
    }
  }

  // ----- What a connection gets minted -----------------------------------------------------------------

  /** This event makes the hub mint a new message for the connection on `fd`. */
  predicate Mints(h: State, e: Event, fd: Fd) {
    && e.Received? && e.fd == fd && fd in h.clients
    && e.m.serial == 0 && Subject(e.m) != 0 && !Redundant(e.m, h.clients[fd].offered)
  }

  /** The payloads minted for the connection now on `fd`, up to its disconnection. */
  ghost function MintedBy(rule: PruneRule, h: State, es: seq<Event>, fd: Fd): seq<Body>
    decreases |es|
  {
    if es == [] || es[0] == Disconnected(fd) then []
    else (if Mints(h, es[0], fd) then [es[0].m.body] else []) + MintedBy(rule, Next(rule, h, es[0]), es[1..], fd)
  }

  lemma NotOfferedBefore(rule: PruneRule, h: State, e: Event, fd: Fd, bodies: seq<Body>)
    requires Good(rule, h) && e != Disconnected(fd)
    requires forall b :: b in bodies ==> !Offered(Next(rule, h, e), fd, b)
    ensures forall b :: b in bodies ==> !Offered(h, fd, b)
    ensures Mints(h, e, fd) ==> e.m.body !in bodies && !Offered(h, fd, e.m.body)
  {
    forall b | b in bodies ensures !Offered(h, fd, b) {
      if Offered(h, fd, b) {
        OfferedStaysOne(rule, h, e, fd, b);
      }
    }
    if Mints(h, e, fd) {
      OfferedNext(rule, h, e, fd, e.m.body);
    }
  }

  ghost predicate Distinct(bodies: seq<Body>) {
    forall i, j :: 0 <= i < j < |bodies| ==> bodies[i] != bodies[j]
  }

  lemma DistinctFront(front: seq<Body>, rest: seq<Body>)
    requires |front| <= 1 && Distinct(rest) && forall b :: b in front ==> b !in rest
    ensures Distinct(front + rest)
  {
    var all := front + rest;
    forall i, j | 0 <= i < j < |all| ensures all[i] != all[j] {
      assert all[j] == rest[j - |front|] && all[j] in rest;
    }
  }

  /** Everything minted for one connection has its own payload, different from all that was offered before. */
  lemma {:induction false} MintedAreDistinct(rule: PruneRule, h: State, es: seq<Event>, fd: Fd)
    requires Good(rule, h) && fd in h.clients
    ensures forall b :: b in MintedBy(rule, h, es, fd) ==> !Offered(h, fd, b)
    ensures Distinct(MintedBy(rule, h, es, fd))
    decreases |es|
  {
    if es != [] && es[0] != Disconnected(fd) {
      var e, h' := es[0], Next(rule, h, es[0]);
      NextGood(rule, h, e);
      StaysConnectedOne(rule, h, e, fd);
      MintedAreDistinct(rule, h', es[1..], fd);
      var front, rest := if Mints(h, e, fd) then [e.m.body] else [], MintedBy(rule, h', es[1..], fd);
      NotOfferedBefore(rule, h, e, fd, rest);
      DistinctFront(front, rest);
      assert MintedBy(rule, h, es, fd) == front + rest;
    }
  }
}
