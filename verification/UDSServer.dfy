/** The hub's event loop: it turns what poll, accept and read report into calls on the hub. */
module UDSServers {
  import opened Messages
  import opened Pruning
  import opened Hub
  import opened HubRuns
  import opened Repeats
  import opened TopologyServers

  datatype ReadResult = ReadFailed | ReadNothing | ReadMsg(len: nat, m: Msg, uid: nat)

  /** What poll reports for one descriptor, and what reading it would give. The hub's purge timer runs on a thread of
      its own; it strikes so many times `before` the descriptor is served, and `between` its data and its hang-up. */
  datatype Readiness = Readiness(before: nat, readable: bool, read: ReadResult, between: nat, hangup: bool)

  datatype Newcomer = NobodyKnocks | AcceptFails | Accepts(fd: Fd)

  /** What the kernel reports in one turn. Descriptors without an entry report nothing. */
  datatype Poll = PollFails | ShutdownAsked | Polled(newcomer: Newcomer, ready: map<Fd, Readiness>)

  /** One turn of the loop; the purge timer strikes so many times before its first call. */
  datatype Turn = Turn(strikes: nat, poll: Poll)

  predicate Ends(t: Turn) {
    !t.poll.Polled? || t.poll.newcomer.AcceptFails?
  }

  /** The timer's calls. In which order the purge takes the nodes is up to the hub. */
  function Strikes(n: nat): seq<Event> {
    if n == 0 then [] else Strikes(n - 1) + [PurgeDue([])]
  }

  /** The calls with the purges' orders left open. */
  function Erased(calls: seq<Event>): seq<Event> {
    if calls == [] then []
    else
      var last := calls[|calls| - 1];
      Erased(calls[..|calls| - 1]) + [if last.PurgeDue? then PurgeDue([]) else last]
  }

  /** What reading a descriptor makes the hub hear. */
  function Heard(fd: Fd, r: Readiness): seq<Event> {
    if r.readable && r.read.ReadMsg? && r.read.len > 0 then [Received(fd, r.read.m, r.read.uid)] else []
  }

  /** The calls one ready descriptor leads to: data first, then the hang-up. */
  function CallsFor(fd: Fd, ready: map<Fd, Readiness>): seq<Event> {
    if fd !in ready then []
    else
      var r := ready[fd];
      Strikes(r.before)
      + Heard(fd, r)
      + Strikes(r.between)
      + if r.hangup then [Disconnected(fd)] else []
  }

  function CallsForAll(fds: seq<Fd>, ready: map<Fd, Readiness>): seq<Event> {
    if fds == [] then []
    else CallsForAll(fds[..|fds| - 1], ready) + CallsFor(fds[|fds| - 1], ready)
  }

  /** All the calls of one turn, purges included. */
  function CallsOf(t: Turn, polled: seq<Fd>): seq<Event> {
    Strikes(t.strikes)
    + if Ends(t) then []
      else
        (if t.poll.newcomer.Accepts? then [Connected(t.poll.newcomer.fd)] else [])
        + CallsForAll(polled, t.poll.ready)
  }

  predicate HungUp(fd: Fd, ready: map<Fd, Readiness>) {
    fd in ready && ready[fd].hangup
  }

  function ClientsAfter(t: Turn, clients: set<Fd>): set<Fd> {
    if Ends(t) then clients
    else
      var open := if t.poll.newcomer.Accepts? then clients + {t.poll.newcomer.fd} else clients;
      open - set fd | fd in clients && HungUp(fd, t.poll.ready)
  }

  /** The clients after the first `n` turns. */
  function ClientsAt(turns: seq<Turn>, n: nat, clients: set<Fd>): set<Fd>
    requires n <= |turns|
  {
    if n == 0 then clients else ClientsAfter(turns[n - 1], ClientsAt(turns, n - 1, clients))
  }

  /** All the calls of the first turns, in each of which the poll set stood in the given order. */
  function CallsOfTurns(turns: seq<Turn>, orders: seq<seq<Fd>>): seq<Event>
    requires |orders| <= |turns|
  {
    if orders == [] then []
    else
      var n := |orders| - 1;
      CallsOfTurns(turns, orders[..n]) + CallsOf(turns[n], orders[n])
  }

  /** The kernel's promise: a newly accepted descriptor is not one that is open already. */
  predicate AcceptsUnused(turns: seq<Turn>, i: nat, clients: set<Fd>)
    requires i <= |turns|
    decreases |turns| - i
  {
    i == |turns| || Ends(turns[i]) || (
      && (turns[i].poll.newcomer.Accepts? ==> turns[i].poll.newcomer.fd !in clients)
      && AcceptsUnused(turns, i + 1, ClientsAfter(turns[i], clients)))
  }

  // ----- The conversation on each connection ------------------------------------------------------------

  predicate LawfulOne(open: set<Fd>, e: Event) {
    match e
    case Connected(fd) => fd !in open
    case Received(fd, _, _) => fd in open
    case Disconnected(fd) => fd in open
    case PurgeDue(_) => true
  }

  function After(open: set<Fd>, e: Event): set<Fd> {
    match e
    case Connected(fd) => open + {fd}
    case Disconnected(fd) => open - {fd}
    case _ => open
  }

  /** A connection is opened, then talks, then hangs up at most once; a descriptor can only be reopened after
      that. The purge timer may strike at any time. */
  predicate Lawful(open: set<Fd>, calls: seq<Event>)
    decreases |calls|
  {
    calls == [] || (LawfulOne(open, calls[0]) && Lawful(After(open, calls[0]), calls[1..]))
  }

  function OpenAfter(open: set<Fd>, calls: seq<Event>): set<Fd>
    decreases |calls|
  {
    if calls == [] then open else OpenAfter(After(open, calls[0]), calls[1..])
  }

  lemma {:induction false} LawfulConcat(open: set<Fd>, a: seq<Event>, b: seq<Event>)
    ensures Lawful(open, a + b) <==> Lawful(open, a) && Lawful(OpenAfter(open, a), b)
    ensures OpenAfter(open, a + b) == OpenAfter(OpenAfter(open, a), b)
    decreases |a|
  {
    if a == [] {
      assert a + b == b;
    } else {
      assert (a + b)[1..] == a[1..] + b;
      LawfulConcat(After(open, a[0]), a[1..], b);
    }
  }

  /** In a lawful conversation every call finds the hub ready for it: no assertion about a known or unknown
      descriptor can fire. And hub and event loop agree on who is connected. */
  lemma {:induction false} LawfulCallsEnabled(rule: PruneRule, h: State, calls: seq<Event>, i: nat)
    requires Lawful(h.clients.Keys, calls) && i <= |calls|
    ensures Run(rule, h, calls[..i]).clients.Keys == OpenAfter(h.clients.Keys, calls[..i])
    ensures i < |calls| && !calls[i].PurgeDue? ==> Enabled(Run(rule, h, calls[..i]), calls[i])
    decreases |calls|
  {
    if i > 0 {
      var h' := Next(rule, h, calls[0]);
      assert calls[..i][1..] == calls[1..][..i - 1] && calls[..i][0] == calls[0];
      assert h'.clients.Keys == After(h.clients.Keys, calls[0]);
      LawfulCallsEnabled(rule, h', calls[1..], i - 1);
    }
  }

  /** Two hang-ups of one descriptor are separated by its being opened again. */
  lemma {:induction false} OneHangupPerConnection(open: set<Fd>, calls: seq<Event>, i: nat, j: nat, fd: Fd)
    requires Lawful(open, calls) && i < j < |calls| && calls[i] == calls[j] == Disconnected(fd)
    ensures exists k :: i < k < j && calls[k] == Connected(fd)
  {
    var rest := calls[i + 1..];
    assert calls == calls[..i + 1] + rest;
    LawfulConcat(open, calls[..i + 1], rest);
    assert calls[..i + 1] == calls[..i] + [calls[i]];
    LawfulConcat(open, calls[..i], [calls[i]]);
    assert [calls[i]][1..] == [];
    var k := Reopened(OpenAfter(open, calls[..i + 1]), rest, j - i - 1, fd);
    assert calls[i + 1 + k] == Connected(fd);
  }

  lemma {:induction false} Reopened(open: set<Fd>, calls: seq<Event>, j: nat, fd: Fd) returns (k: nat)
    requires Lawful(open, calls) && fd !in open && j < |calls| && calls[j] == Disconnected(fd)
    ensures k < j && calls[k] == Connected(fd)
    decreases |calls|
  {
    if calls[0] == Connected(fd) {
      k := 0;
    } else {
      k := Reopened(After(open, calls[0]), calls[1..], j - 1, fd);
      k := k + 1;
    }
  }

  lemma ErasedCall(calls: seq<Event>, e: Event)
    ensures Erased(calls + [e]) == Erased(calls) + [if e.PurgeDue? then PurgeDue([]) else e]
  {
    assert (calls + [e])[..|calls|] == calls;
  }

  lemma OneMore(fds: seq<Fd>, i: nat, ready: map<Fd, Readiness>, before: seq<Event>)
    requires i < |fds| && forall i, j :: 0 <= i < j < |fds| ==> fds[i] != fds[j]
    ensures fds[i] !in fds[..i]
    ensures (before + CallsForAll(fds[..i], ready)) + CallsFor(fds[i], ready)
         == before + CallsForAll(fds[..i + 1], ready)
    ensures (set fd | fd in fds[..i + 1] && HungUp(fd, ready))
         == (set fd | fd in fds[..i] && HungUp(fd, ready)) + if HungUp(fds[i], ready) then {fds[i]} else {}
  {
    assert fds[..i + 1] == fds[..i] + [fds[i]] && fds[..i + 1][..i] == fds[..i];
  }

  lemma TurnCalls(t: Turn, polled: seq<Fd>, before: seq<Event>)
    ensures before + CallsOf(t, polled)
         == if Ends(t) then before + Strikes(t.strikes)
            else
              before + Strikes(t.strikes)
              + (if t.poll.newcomer.Accepts? then [Connected(t.poll.newcomer.fd)] else [])
              + CallsForAll(polled, t.poll.ready)
  {
  }

  lemma ReadyCalls(fd: Fd, ready: map<Fd, Readiness>, before: seq<Event>)
    requires fd in ready
    ensures var r := ready[fd];
            before + CallsFor(fd, ready)
            == before + Strikes(r.before) + Heard(fd, r) + Strikes(r.between)
               + if r.hangup then [Disconnected(fd)] else []
  {
  }

  /** The first turns can have been taken with the poll sets in these orders: each polled the clients there were. */
  ghost predicate Polling(turns: seq<Turn>, orders: seq<seq<Fd>>, was: set<Fd>) {
    |orders| <= |turns| && (orders == [] ||
      var n := |orders| - 1;
      Polling(turns, orders[..n], was) && Enumerates(orders[n], ClientsAt(turns, n, was)))
  }

  lemma {:induction false} PolledAt(turns: seq<Turn>, orders: seq<seq<Fd>>, was: set<Fd>, i: nat)
    requires Polling(turns, orders, was) && i < |orders|
    ensures Enumerates(orders[i], ClientsAt(turns, i, was))
  {
    if i < |orders| - 1 {
      PolledAt(turns, orders[..|orders| - 1], was, i);
    }
  }

  /** None of the first `n` turns ends the loop. */
  predicate Continues(turns: seq<Turn>, n: nat)
    requires n <= |turns|
  {
    n == 0 || (!Ends(turns[n - 1]) && Continues(turns, n - 1))
  }

  lemma {:induction false} ContinuesAt(turns: seq<Turn>, n: nat, i: nat)
    requires i < n <= |turns| && Continues(turns, n)
    ensures !Ends(turns[i])
  {
    if i < n - 1 {
      ContinuesAt(turns, n - 1, i);
    }
  }

  lemma DisconnectForgets(rule: PruneRule, h: State, fd: Fd, h': State)
    requires fd in h.clients && h' == Disconnect(rule, h, fd)
    ensures h'.clients.Keys == h.clients.Keys - {fd}
  {
  }

  /** Where the loop stands: these turns taken, from the clients `was` and the calls `before`, to these. */
  ghost predicate Underway(
      turns: seq<Turn>, orders: seq<seq<Fd>>, was: set<Fd>, before: seq<Event>, clients: set<Fd>, calls: seq<Event>)
  {
    && Polling(turns, orders, was)
    && clients == ClientsAt(turns, |orders|, was)
    && before <= calls && Erased(calls) == Erased(before) + CallsOfTurns(turns, orders)
  }

  lemma UnderwayNext(
      turns: seq<Turn>, orders: seq<seq<Fd>>, was: set<Fd>, before: seq<Event>, clients: set<Fd>, calls: seq<Event>,
      polled: seq<Fd>, clients': set<Fd>, calls': seq<Event>)
    requires Underway(turns, orders, was, before, clients, calls) && |orders| < |turns|
    requires Enumerates(polled, clients) && clients' == ClientsAfter(turns[|orders|], clients)
    requires calls <= calls' && Erased(calls') == Erased(calls) + CallsOf(turns[|orders|], polled)
    ensures Underway(turns, orders + [polled], was, before, clients', calls')
  {
    PollingNext(turns, orders, was, polled);
    CallsNext(turns, orders, polled, Erased(before));
  }

  lemma CallsNext(turns: seq<Turn>, orders: seq<seq<Fd>>, polled: seq<Fd>, before: seq<Event>)
    requires |orders| < |turns|
    ensures before + CallsOfTurns(turns, orders + [polled])
         == (before + CallsOfTurns(turns, orders)) + CallsOf(turns[|orders|], polled)
  {
    CallsOfOneMore(turns, orders, polled, orders + [polled]);
    Reassociate(before, CallsOfTurns(turns, orders), CallsOf(turns[|orders|], polled));
  }

  lemma CallsOfOneMore(turns: seq<Turn>, orders: seq<seq<Fd>>, polled: seq<Fd>, longer: seq<seq<Fd>>)
    requires |orders| < |turns| && longer == orders + [polled]
    ensures CallsOfTurns(turns, longer) == CallsOfTurns(turns, orders) + CallsOf(turns[|orders|], polled)
  {
    assert longer[..|longer| - 1] == orders;
  }

  lemma PollingNext(turns: seq<Turn>, orders: seq<seq<Fd>>, was: set<Fd>, polled: seq<Fd>)
    requires Polling(turns, orders, was) && |orders| < |turns|
    requires Enumerates(polled, ClientsAt(turns, |orders|, was))
    ensures Polling(turns, orders + [polled], was)
  {
    assert (orders + [polled])[..|orders|] == orders;
  }

  // ----- What a turn says about each connection ------------------------------------------------------------------

  /** The calls about one descriptor, in order. */
  function Talk(calls: seq<Event>, fd: Fd): seq<Event> {
    if calls == [] then []
    else
      var last := calls[|calls| - 1];
      Talk(calls[..|calls| - 1], fd) + if !last.PurgeDue? && last.fd == fd then [last] else []
  }

  lemma {:induction false} TalkConcat(a: seq<Event>, b: seq<Event>, fd: Fd)
    ensures Talk(a + b, fd) == Talk(a, fd) + Talk(b, fd)
  {
    if b == [] {
      assert a + b == a;
    } else {
      var n := |b| - 1;
      assert (a + b)[..|a + b| - 1] == a + b[..n];
      TalkConcat(a, b[..n], fd);
    }
  }

  lemma {:induction false} StrikesTalk(n: nat, fd: Fd)
    ensures Talk(Strikes(n), fd) == []
  {
    if n > 0 {
      StrikesTalk(n - 1, fd);
      assert Strikes(n)[..|Strikes(n)| - 1] == Strikes(n - 1);
    }
  }

  lemma {:induction false} ErasedTalk(calls: seq<Event>, fd: Fd)
    ensures Talk(Erased(calls), fd) == Talk(calls, fd)
  {
    if calls != [] {
      var n := |calls| - 1;
      ErasedTalk(calls[..n], fd);
      assert Erased(calls)[..|Erased(calls)| - 1] == Erased(calls[..n]);
    }
  }

  lemma TalkOne(e: Event, fd: Fd)
    ensures Talk([e], fd) == if !e.PurgeDue? && e.fd == fd then [e] else []
  {
    assert [e][..0] == [];
  }

  lemma HeardTalk(f: Fd, r: Readiness, fd: Fd)
    ensures Talk(Heard(f, r), fd)
         == if f == fd && r.readable && r.read.ReadMsg? && r.read.len > 0 then [Received(fd, r.read.m, r.read.uid)]
            else []
  {
    if Heard(f, r) != [] {
      TalkOne(Heard(f, r)[0], fd);
    }
  }

  lemma HungTalk(f: Fd, r: Readiness, fd: Fd)
    ensures Talk(if r.hangup then [Disconnected(f)] else [], fd)
         == if f == fd && r.hangup then [Disconnected(fd)] else []
  {
    TalkOne(Disconnected(f), fd);
  }

  lemma ReadyTalk(f: Fd, ready: map<Fd, Readiness>, fd: Fd)
    ensures Talk(CallsFor(f, ready), fd) == if f == fd && fd in ready then
              (if ready[fd].readable && ready[fd].read.ReadMsg? && ready[fd].read.len > 0
               then [Received(fd, ready[fd].read.m, ready[fd].read.uid)] else [])
              + (if ready[fd].hangup then [Disconnected(fd)] else [])
            else []
  {
    if f in ready {
      var r := ready[f];
      TalkConcat(Strikes(r.before) + Heard(f, r) + Strikes(r.between), if r.hangup then [Disconnected(f)] else [], fd);
      TalkConcat(Strikes(r.before) + Heard(f, r), Strikes(r.between), fd);
      TalkConcat(Strikes(r.before), Heard(f, r), fd);
      StrikesTalk(r.before, fd);
      StrikesTalk(r.between, fd);
      HeardTalk(f, r, fd);
      HungTalk(f, r, fd);
    }
  }

  lemma {:induction false} ReadyTalkAll(fds: seq<Fd>, ready: map<Fd, Readiness>, fd: Fd)
    requires forall i, j :: 0 <= i < j < |fds| ==> fds[i] != fds[j]
    ensures Talk(CallsForAll(fds, ready), fd) == if fd in fds then Talk(CallsFor(fd, ready), fd) else []
  {
    if fds != [] {
      var n := |fds| - 1;
      assert fds[n] !in fds[..n] && (fd in fds <==> fd in fds[..n] || fd == fds[n]);
      ReadyTalkAll(fds[..n], ready, fd);
      TalkConcat(CallsForAll(fds[..n], ready), CallsFor(fds[n], ready), fd);
      if fds[n] != fd {
        ReadyTalk(fds[n], ready, fd);
      }
    }
  }

  lemma TurnTalkParts(t: Turn, polled: seq<Fd>, fd: Fd)
    requires !Ends(t)
    ensures Talk(CallsOf(t, polled), fd)
         == (if t.poll.newcomer == Accepts(fd) then [Connected(fd)] else [])
            + Talk(CallsForAll(polled, t.poll.ready), fd)
  {
    var joined := if t.poll.newcomer.Accepts? then [Connected(t.poll.newcomer.fd)] else [];
    var rest := CallsForAll(polled, t.poll.ready);
    StrikesTalk(t.strikes, fd);
    TalkConcat(Strikes(t.strikes), joined + rest, fd);
    TalkConcat(joined, rest, fd);
    if joined != [] {
      TalkOne(joined[0], fd);
    }
  }

  lemma EndingTalk(t: Turn, polled: seq<Fd>, fd: Fd)
    requires Ends(t)
    ensures Talk(CallsOf(t, polled), fd) == []
  {
    StrikesTalk(t.strikes, fd);
    assert CallsOf(t, polled) == Strikes(t.strikes);
  }

  /** What a turn says about each connection, read off the poll result. A turn that fails, or is asked to shut down,
      says nothing. Otherwise what a polled descriptor has to read is handed over, if it is not empty, and then its
      hang-up is reported; the newcomer is announced; and nothing is said about anybody else. */
  lemma CallsTalk(t: Turn, polled: seq<Fd>, fd: Fd)
    requires forall i, j :: 0 <= i < j < |polled| ==> polled[i] != polled[j]
    requires t.poll.Polled? && t.poll.newcomer.Accepts? ==> t.poll.newcomer.fd !in polled
    ensures Talk(CallsOf(t, polled), fd)
         == if !t.poll.Polled? || t.poll.newcomer == AcceptFails then []
            else if fd !in polled then if t.poll.newcomer == Accepts(fd) then [Connected(fd)] else []
            else if fd !in t.poll.ready then []
            else
              var r := t.poll.ready[fd];
              (if r.readable && r.read.ReadMsg? && r.read.len > 0 then [Received(fd, r.read.m, r.read.uid)] else [])
              + (if r.hangup then [Disconnected(fd)] else [])
  {
    if Ends(t) {
      EndingTalk(t, polled, fd);
    } else {
      TurnTalkParts(t, polled, fd);
      ReadyTalkAll(polled, t.poll.ready, fd);
      ReadyTalk(fd, t.poll.ready, fd);
    }
  }

  /** So much is said in a turn, however the purges are ordered. */
  lemma TurnTalk(t: Turn, polled: seq<Fd>, before: seq<Event>, after: seq<Event>, fd: Fd)
    requires Erased(after) == Erased(before) + CallsOf(t, polled)
    ensures Talk(after, fd) == Talk(before, fd) + Talk(CallsOf(t, polled), fd)
  {
    ErasedTalk(before, fd);
    ErasedTalk(after, fd);
    TalkConcat(Erased(before), CallsOf(t, polled), fd);
  }

  /** Descriptors are served in the order in which they stand in the poll set. */
  lemma {:induction false} ServedInOrder(a: seq<Fd>, b: seq<Fd>, ready: map<Fd, Readiness>)
    ensures CallsForAll(a + b, ready) == CallsForAll(a, ready) + CallsForAll(b, ready)
  {
    if b == [] {
      assert a + b == a;
    } else {
      var n := |b| - 1;
      assert (a + b)[..|a + b| - 1] == a + b[..n];
      ServedInOrder(a, b[..n], ready);
    }
  }

  lemma {:induction false} StrikesAre(n: nat)
    ensures Strikes(n) == seq(n, _ => PurgeDue([]))
  {
    if n > 0 {
      StrikesAre(n - 1);
    }
  }

  /** The newcomer comes first. And the purges: as many as strike, before the first call of the turn, before each
      descriptor that is ready, and between its data and its hang-up. */
  lemma PurgesStrike(t: Turn, polled: seq<Fd>, fd: Fd, ready: map<Fd, Readiness>)
    ensures seq(t.strikes, _ => PurgeDue([])) <= CallsOf(t, polled)
    ensures !Ends(t) && t.poll.newcomer.Accepts? ==>
              |CallsOf(t, polled)| > t.strikes && CallsOf(t, polled)[t.strikes] == Connected(t.poll.newcomer.fd)
    ensures fd in ready ==>
              var r, data := ready[fd], seq(ready[fd].before, _ => PurgeDue([])) + Heard(fd, ready[fd]);
              CallsFor(fd, ready)
              == data + seq(r.between, _ => PurgeDue([])) + (if r.hangup then [Disconnected(fd)] else [])
  {
    StrikesAre(t.strikes);
    if fd in ready {
      StrikesAre(ready[fd].before);
      StrikesAre(ready[fd].between);
    }
  }

  // ----- The object --------------------------------------------------------------------------------------

  class UDSServer {
    const hub: TopologyServer
    var clients: set<Fd>
    // All calls made on the hub so far.
    ghost var calls: seq<Event>
    // What the hub was opened with.
    ghost const digest: seq<Msg>

    ghost predicate Valid()
      reads this, hub
    {
      && Digest(hub.rule, digest)
      && clients == hub.clients.Keys
      && Lawful({}, calls) && OpenAfter({}, calls) == clients
      && hub.View() == Run(hub.rule, Open(digest), calls)
    }

    constructor (hub: TopologyServer, ghost digest: seq<Msg>)
      requires Digest(hub.rule, digest) && hub.View() == Open(digest)
      ensures this.hub == hub && this.digest == digest && Valid() && calls == []
    {
      this.hub := hub;
      clients := {};
      calls := [];
      this.digest := digest;
    }

    /** Whatever was called, the hub is in a good state. */
    lemma HubIsValid()
      requires Valid()
      ensures hub.Valid()
    {
      OpenCollapses(hub.rule, digest);
      RunCollapses(hub.rule, Open(digest), calls);
    }

    ghost method Record(e: Event, before: State)
      requires Lawful({}, calls) && before == Run(hub.rule, Open(digest), calls)
      requires Enabled(before, e) && OpenAfter({}, calls) == before.clients.Keys
      modifies this`calls
      ensures calls == old(calls) + [e] && Lawful({}, calls)
      ensures OpenAfter({}, calls) == After(before.clients.Keys, e)
      ensures Run(hub.rule, Open(digest), calls) == Step(hub.rule, before, e)
    {
      LawfulConcat({}, calls, [e]);
      RunConcat(hub.rule, Open(digest), calls, [e]);
      assert [e][1..] == [];
      calls := calls + [e];
    }

    method Admit(fd: Fd)
      requires Valid() && fd !in clients
      modifies this`clients, this`calls, hub
      ensures Valid() && clients == old(clients) + {fd} && calls == old(calls) + [Connected(fd)]
    {
      HubIsValid();
      ghost var before := hub.View();
      clients := clients + {fd};
      Record(Connected(fd), before);
      hub.OnConnect(fd);
    }

    method Serve(fd: Fd, ready: map<Fd, Readiness>)
      requires Valid() && fd in clients
      modifies this`clients, this`calls, hub
      ensures Valid() && old(calls) <= calls && Erased(calls) == Erased(old(calls)) + CallsFor(fd, ready)
      ensures clients == if HungUp(fd, ready) then old(clients) - {fd} else old(clients)
    {
      if fd !in ready {
        return;
      }
      var r := ready[fd];
      ReadyCalls(fd, ready, Erased(calls));
      TimerStrikes(r.before);
      ServeData(fd, r);
      TimerStrikes(r.between);
      if r.hangup {
        ErasedCall(calls, Disconnected(fd));
        HangUp(fd);
      }
    }

    method ServeData(fd: Fd, r: Readiness)
      requires Valid() && fd in clients
      modifies this`calls, hub
      ensures Valid() && clients == old(clients)
      ensures old(calls) <= calls && Erased(calls) == Erased(old(calls)) + Heard(fd, r)
    {
      assert calls + [] == calls && Erased(calls) + [] == Erased(calls);
      if r.readable {
        match r.read
        case ReadFailed =>
        case ReadNothing =>
        case ReadMsg(len, m, uid) =>
          ErasedCall(calls, Received(fd, m, uid));
          Read(fd, len, m, uid);
      }
    }

    method Read(fd: Fd, len: nat, m: Msg, uid: nat)
      requires Valid() && fd in clients
      modifies this`calls, hub
      ensures Valid() && clients == old(clients)
      ensures calls == old(calls) + if len > 0 then [Received(fd, m, uid)] else []
    {
      if len > 0 {
        HubIsValid();
        ghost var before := hub.View();
        Record(Received(fd, m, uid), before);
        hub.OnData(fd, len, m, uid);
      }
    }

    method HangUp(fd: Fd)
      requires Valid() && fd in clients
      modifies this`clients, this`calls, hub
      ensures Valid() && clients == old(clients) - {fd} && calls == old(calls) + [Disconnected(fd)]
    {
      HubIsValid();
      ghost var before := hub.View();
      Record(Disconnected(fd), before);
      hub.OnDisconnect(fd);
      DisconnectForgets(hub.rule, before, fd, hub.View());
      clients := clients - {fd};
    }

    /** The hub's purge timer strikes between two calls. */
    method PurgeFires() returns (ghost order: seq<nat>)
      requires Valid()
      modifies this`calls, hub
      ensures Valid() && clients == old(clients) && calls == old(calls) + [PurgeDue(order)]
    {
      HubIsValid();
      ghost var before := hub.View();
      order := hub.PurgeDisconnected();
      Record(PurgeDue(order), before);
    }

    method TimerStrikes(times: nat)
      requires Valid()
      modifies this`calls, hub
      ensures Valid() && clients == old(clients)
      ensures old(calls) <= calls && Erased(calls) == Erased(old(calls)) + Strikes(times)
    {
      for i := 0 to times
        invariant Valid() && clients == old(clients)
        invariant old(calls) <= calls && Erased(calls) == Erased(old(calls)) + Strikes(i)
      {
        ghost var before := calls;
        ghost var order := PurgeFires();
        ErasedCall(before, PurgeDue(order));
        assert Strikes(i + 1) == Strikes(i) + [PurgeDue([])];
      }
    }

    method SnapshotClients() returns (polled: seq<Fd>)
      ensures Enumerates(polled, clients)
    {
      polled := [];
      var todo := clients;
      while todo != {}
        invariant todo <= clients && Enumerates(polled, clients - todo)
        decreases todo
      {
        var fd := Pick(todo);
        polled := polled + [fd];
        todo := todo - {fd};
      }
    }

    /** One turn. `polled` is the order in which the descriptors stood in the poll set. */
    method TakeTurn(t: Turn) returns (go: bool, ghost polled: seq<Fd>)
      requires Valid()
      requires t.poll.Polled? && t.poll.newcomer.Accepts? ==> t.poll.newcomer.fd !in clients
      modifies this`clients, this`calls, hub
      ensures Valid() && go == !Ends(t)
      ensures Enumerates(polled, old(clients))
      ensures old(calls) <= calls && Erased(calls) == Erased(old(calls)) + CallsOf(t, polled)
      ensures clients == ClientsAfter(t, old(clients))
    {
      var fds := SnapshotClients();
      polled := fds;
      TurnCalls(t, fds, Erased(calls));
      TimerStrikes(t.strikes);
      if !t.poll.Polled? {
        return false, polled;
      }
      if t.poll.newcomer.AcceptFails? {
        return false, polled;
      }
      AcceptNewcomer(t.poll.newcomer);
      ServeAll(fds, t.poll.ready);
      return true, polled;
    }

    method AcceptNewcomer(n: Newcomer)
      requires Valid() && !n.AcceptFails? && (n.Accepts? ==> n.fd !in clients)
      modifies this`clients, this`calls, hub
      ensures Valid()
      ensures clients == if n.Accepts? then old(clients) + {n.fd} else old(clients)
      ensures old(calls) <= calls
      ensures Erased(calls) == Erased(old(calls)) + if n.Accepts? then [Connected(n.fd)] else []
    {
      if n.Accepts? {
        Admit(n.fd);
        ErasedCall(old(calls), Connected(n.fd));
      }
    }

    method ServeAll(fds: seq<Fd>, ready: map<Fd, Readiness>)
      requires Valid()
      requires forall i, j :: 0 <= i < j < |fds| ==> fds[i] != fds[j]
      requires forall fd :: fd in fds ==> fd in clients
      modifies this`clients, this`calls, hub
      ensures Valid() && old(calls) <= calls && Erased(calls) == Erased(old(calls)) + CallsForAll(fds, ready)
      ensures clients == old(clients) - set fd | fd in fds && HungUp(fd, ready)
    {
      ghost var before, was := Erased(calls), clients;
      for i := 0 to |fds|
        invariant Valid() && old(calls) <= calls
        invariant Erased(calls) == before + CallsForAll(fds[..i], ready)
        invariant clients == was - set fd | fd in fds[..i] && HungUp(fd, ready)
      {
        assert fds[i] in fds;
        OneMore(fds, i, ready, before);
        Serve(fds[i], ready);
      }
      assert fds[..|fds|] == fds;
    }

    /** Over any sequence of turns: they are taken one by one up to and including the first that ends the loop, and
        lead to exactly their calls, each turn polling the clients there are by then. The calls form a lawful
        conversation and the hub is what the state machine makes of them. Leaving, all clients are forgotten without
        telling the hub. */
    method MainLoop(turns: seq<Turn>) returns (ghost orders: seq<seq<Fd>>)
      requires Valid() && AcceptsUnused(turns, 0, clients)
      modifies this`clients, this`calls, hub
      ensures clients == {} && hub.Valid()
      ensures Lawful({}, calls) && OpenAfter({}, calls) == hub.clients.Keys
      ensures hub.View() == Run(hub.rule, Open(digest), calls)
      ensures Underway(turns, orders, old(clients), old(calls), hub.clients.Keys, calls)
      ensures forall i :: 0 <= i < |orders| - 1 ==> !Ends(turns[i])
      ensures |orders| < |turns| ==> orders != [] && Ends(turns[|orders| - 1])
    {
      orders := TakeTurns(turns);
      forall i | 0 <= i < |orders| - 1 ensures !Ends(turns[i]) {
        ContinuesAt(turns, |orders| - 1, i);
      }
      ForgetClients();
    }

    /** The loop itself. At its head the two client tables agree. */
    method TakeTurns(turns: seq<Turn>) returns (ghost orders: seq<seq<Fd>>)
      requires Valid() && AcceptsUnused(turns, 0, clients)
      modifies this`clients, this`calls, hub
      ensures Valid() && Underway(turns, orders, old(clients), old(calls), clients, calls)
      ensures orders != [] ==> Continues(turns, |orders| - 1)
      ensures |orders| < |turns| ==> orders != [] && Ends(turns[|orders| - 1])
    {
      ghost var was, before := clients, calls;
      orders := [];
      var i := 0;
      while i < |turns|
        invariant Valid() && i == |orders| <= |turns|
        invariant AcceptsUnused(turns, i, clients)
        invariant Continues(turns, i)
        invariant Underway(turns, orders, was, before, clients, calls)
      {
        var go;
        go, orders := NextTurn(turns, i, orders, was, before);
        if !go {
          break;
        }
        i := i + 1;
      }
    }

    method NextTurn(turns: seq<Turn>, i: nat, ghost orders: seq<seq<Fd>>, ghost was: set<Fd>, ghost before: seq<Event>)
      returns (go: bool, ghost longer: seq<seq<Fd>>)
      requires Valid() && i == |orders| < |turns| && AcceptsUnused(turns, i, clients)
      requires Underway(turns, orders, was, before, clients, calls)
      modifies this`clients, this`calls, hub
      ensures Valid() && go == !Ends(turns[i]) && |longer| == i + 1
      ensures go ==> AcceptsUnused(turns, i + 1, clients)
      ensures Underway(turns, longer, was, before, clients, calls)
    {
      ghost var polled;
      go, polled := TakeTurn(turns[i]);
      longer := orders + [polled];
      UnderwayNext(turns, orders, was, before, old(clients), old(calls), polled, clients, calls);
    }

    /** Leaving the loop closes all connections without telling the hub. */
    method ForgetClients()
      requires Valid()
      modifies this`clients
      ensures clients == {} && hub.Valid() && hub.clients.Keys == old(clients)
      ensures Lawful({}, calls) && OpenAfter({}, calls) == hub.clients.Keys
      ensures hub.View() == Run(hub.rule, Open(digest), calls)
    {
      HubIsValid();
      clients := {};
    }
  }
}
