/** The hub, its log, its cursors and its compaction refine a plain table of nodes: what every run does to the topology
    and to everything a later message depends on, without any log. */
module HubMeaning {
  import opened Messages
  import opened Topology
  import opened Pruning
  import opened Wiping
  import opened Hub
  import opened HubRuns
  import opened Streams
  import opened Purging

  /** One connection: who it claims to be, and the payloads it has had accepted. */
  datatype Guest = Guest(nodeId: nat, payloads: set<Body>)

  /** A hub without a log: the topology, who has left, the newest number published, the next number to give. */
  datatype Plain = Plain(nodes: Nodes, left: set<nat>, newest: nat, next: nat, guests: map<Fd, Guest>)

  /** What one more entry does to the table: its plain effect, except that who has left never rejoins. */
  function Accept(joins: JoinRule, nodes: Nodes, left: set<nat>, m: Msg): Nodes {
    if IsJoin(m) && m.body.id in left then nodes else Apply(joins, nodes, m)
  }

  /** An entry takes effect; then the topics go that the rule no longer keeps. */
  function Enter(rule: PruneRule, joins: JoinRule, p: Plain, m: Msg): Plain {
    var left := p.left + if IsLeave(m) then {m.body.id} else {};
    p.(nodes := Wipe(rule, left, Accept(joins, p.nodes, p.left, m)), left := left,
       newest := if Kept(rule, left, m) then m.serial else p.newest)
  }

  function Settle(rule: PruneRule, p: Plain): Plain {
    p.(nodes := Wipe(rule, p.left, p.nodes))
  }

  function Receive(rule: PruneRule, joins: JoinRule, p: Plain, fd: Fd, m: Msg, uid: nat): Plain
    requires fd in p.guests
  {
    var g := p.guests[fd].(nodeId := Subject(m));
    var told := p.(guests := p.guests[fd := g.(payloads := g.payloads + {m.body})]);
    if Subject(m) == 0 then p
    else if m.serial == 0 && m.body !in g.payloads then
      Enter(rule, joins, told.(next := p.next + 1), m.(serial := p.next, uid := uid))
    else if m.serial > p.newest then Enter(rule, joins, told.(next := m.serial + 1), m)
    else Settle(rule, p.(guests := p.guests[fd := g]))
  }

  /** Nodes that are listed and that nobody connected claims to be leave, all at once. */
  function Evict(rule: PruneRule, p: Plain): Plain {
    var gone := p.nodes.Keys - set fd | fd in p.guests :: p.guests[fd].nodeId;
    p.(nodes := Wipe(rule, p.left + gone, p.nodes - gone), left := p.left + gone,
       newest := if gone == {} then p.newest else p.next + |gone| - 1, next := p.next + |gone|)
  }

  ghost predicate PlainEnabled(p: Plain, e: Event) {
    match e
    case Connected(fd) => fd !in p.guests
    case Received(fd, _, _) => fd in p.guests
    case Disconnected(fd) => fd in p.guests
    case PurgeDue(order) => Enumerates(order, p.nodes.Keys)
  }

  ghost function PlainNext(rule: PruneRule, joins: JoinRule, p: Plain, e: Event): Plain {
    if !PlainEnabled(p, e) then p
    else
      match e
      case Connected(fd) => p.(guests := p.guests[fd := Guest(0, {})])
      case Received(fd, m, uid) => Receive(rule, joins, p, fd, m, uid)
      case Disconnected(fd) =>
        var quit := p.(guests := p.guests - {fd}, next := p.next + 1);
        Enter(rule, joins, quit, LeaveOf(p.next, p.guests[fd].nodeId))
      case PurgeDue(_) => Evict(rule, p)
  }

  ghost function PlainRun(rule: PruneRule, joins: JoinRule, p: Plain, es: seq<Event>): Plain
    decreases |es|
  {
    if es == [] then p else PlainRun(rule, joins, PlainNext(rule, joins, p, es[0]), es[1..])
  }

  // ----- What a hub looks like without its log ------------------------------------------------------------------

  function Payloads(offered: seq<Msg>): set<Body> {
    set m | m in offered :: m.body
  }

  function AsGuest(c: Client): Guest {
    Guest(c.nodeId, Payloads(c.offered))
  }

  function Guests(clients: map<Fd, Client>): map<Fd, Guest> {
    map fd | fd in clients :: AsGuest(clients[fd])
  }

  function Abstract(joins: JoinRule, h: State): Plain {
    Plain(Listing(joins, h.history), Left(h.history), LastSeq(h.history), h.next, Guests(h.clients))
  }

  lemma KeptStaysFinal(rule: PruneRule, log: seq<Msg>, m: Msg)
    requires LeaveFinal(rule, log) && Kept(rule, Left(log), m)
    ensures LeaveFinal(rule, log + [m])
  {
    var all := log + [m];
    forall i, j | 0 <= i < j < |all| && IsLeave(all[i]) ensures Kept(rule, {all[i].body.id}, all[j]) {
      if j == |log| {
        assert log[i] in log;
        KeptByAll(rule, Left(log), m);
      }
    }
  }

  /** An entry that is struck out at once leaves the compacted log as it was. */
  lemma StruckLeavesLog(rule: PruneRule, log: seq<Msg>, m: Msg)
    requires !Kept(rule, Left(log), m)
    ensures Prune(rule, log + [m]) == Prune(rule, log)
  {
    var left := Left(log);
    assert Left(log + [m]) == left by {
      assert Left([m]) == {};
      LeftConcat(log, [m]);
    }
    assert [m][1..] == [];
    assert Keep(rule, left, [m][1..]) == [];
    assert Keep(rule, left, [m]) == [] + Keep(rule, left, [m][1..]);
    KeepConcat(rule, left, log, [m]);
  }

  /** Appending and compacting means: the table changes as `Accept` says, and is wiped. */
  lemma AppendMeans(rule: PruneRule, joins: JoinRule, log: seq<Msg>, m: Msg)
    requires LeaveFinal(rule, log)
    ensures Listing(joins, Prune(rule, log + [m]))
         == Wipe(rule, Left(log + [m]), Accept(joins, Listing(joins, log), Left(log), m))
  {
    LeftConcat(log, [m]);
    if Kept(rule, Left(log), m) {
      KeptStaysFinal(rule, log, m);
      PruneWipes(rule, joins, log + [m]);
      ReplayAppend(joins, log, m, map[]);
    } else {
      StruckLeavesLog(rule, log, m);
      PruneWipes(rule, joins, log);
      StruckIsWiped(rule, joins, log, m);
    }
  }

  /** An entry struck out at once would have changed only what is wiped. */
  lemma StruckIsWiped(rule: PruneRule, joins: JoinRule, log: seq<Msg>, m: Msg)
    requires LeaveFinal(rule, log) && !Kept(rule, Left(log), m)
    ensures Wipe(rule, Left(log), Accept(joins, Listing(joins, log), Left(log), m))
         == Wipe(rule, Left(log), Listing(joins, log))
  {
    var nodes := Listing(joins, log);
    SameEverywhere(Wipe(rule, Left(log), Accept(joins, nodes, Left(log), m)), Wipe(rule, Left(log), nodes));
  }

  lemma LeftOfOne(log: seq<Msg>, m: Msg)
    ensures Left(log + [m]) == Left(log) + if IsLeave(m) then {m.body.id} else {}
  {
    LeftConcat(log, [m]);
    assert m in [m] && Left([m]) == if IsLeave(m) then {m.body.id} else {};
  }

  lemma AdvanceKeepsGuests(rule: PruneRule, h: State, added: seq<Msg>, next: nat)
    ensures Guests(Advance(rule, h, added, next).clients) == Guests(h.clients)
  {
    var h' := Advance(rule, h, added, next);
    assert h'.clients.Keys == h.clients.Keys;
    forall fd | fd in h.clients ensures AsGuest(h'.clients[fd]) == AsGuest(h.clients[fd]) {
    }
  }

  lemma AdvanceLooks(rule: PruneRule, joins: JoinRule, h: State, added: seq<Msg>, next: nat)
    ensures var log := Prune(rule, h.history + added);
            Abstract(joins, Advance(rule, h, added, next))
            == Plain(Listing(joins, log), Left(log), LastSeq(log), next, Guests(h.clients))
  {
    AdvanceKeepsGuests(rule, h, added, next);
  }

  /** The newest number moves on exactly with an entry that is not struck out at once. */
  lemma NewestAfter(rule: PruneRule, history: seq<Msg>, m: Msg)
    requires Seed(rule, history) && LastSeq(history) < m.serial
    ensures LastSeq(Prune(rule, history + [m]))
         == if Kept(rule, Left(history + [m]), m) then m.serial else LastSeq(history)
  {
    LogAdvances(rule, history, [m]);
    assert [m][1..] == [] && Keep(rule, Left(history + [m]), []) == [];
    assert Surviving(rule, history, [m]) == if Kept(rule, Left(history + [m]), m) then [m] else [];
  }

  lemma EnterRefines(rule: PruneRule, joins: JoinRule, h: State, m: Msg, next: nat)
    requires Seed(rule, h.history) && LastSeq(h.history) < m.serial
    ensures Abstract(joins, Advance(rule, h, [m], next)) == Enter(rule, joins, Abstract(joins, h).(next := next), m)
  {
    AppendMeans(rule, joins, h.history, m);
    LeftOfOne(h.history, m);
    LeftOfKeep(rule, Left(h.history + [m]), h.history + [m]);
    NewestAfter(rule, h.history, m);
    AdvanceLooks(rule, joins, h, [m], next);
  }

  lemma SettleRefines(rule: PruneRule, joins: JoinRule, h: State)
    requires Seed(rule, h.history)
    ensures Abstract(joins, Advance(rule, h, [], h.next)) == Settle(rule, Abstract(joins, h))
  {
    assert h.history + [] == h.history;
    PruneWipes(rule, joins, h.history);
    LeftOfKeep(rule, Left(h.history), h.history);
    LogAdvances(rule, h.history, []);
    AdvanceLooks(rule, joins, h, [], h.next);
  }

  /** All of the hub invariant that the refinement of a step needs. */
  ghost predicate Ready(rule: PruneRule, h: State) {
    Seed(rule, h.history) && LastSeq(h.history) < h.next && AllBelow(h.history, h.next)
  }

  // ----- Every step refines ---------------------------------------------------------------------------------------

  lemma PayloadsGrow(offered: seq<Msg>, m: Msg)
    ensures Payloads(offered + [m]) == Payloads(offered) + {m.body}
  {
    assert m in offered + [m];
    assert forall o :: o in offered + [m] <==> o in offered || o == m;
  }

  lemma RedundantIsKnown(m: Msg, c: Client)
    requires Subject(m) != 0
    ensures Redundant(m, c.offered) <==> m.body in Payloads(c.offered)
  {
  }

  lemma GuestReplaced(h: State, fd: Fd, c: Client)
    requires fd in h.clients
    ensures Guests(h.clients[fd := c]) == Guests(h.clients)[fd := AsGuest(c)]
  {
  }

  lemma NewerThanLast(rule: PruneRule, history: seq<Msg>, serial: nat)
    requires Seed(rule, history) && serial > 0
    ensures AllBelow(history, serial) <==> LastSeq(history) < serial
  {
    SortedBelowLast(history);
    if history != [] {
      assert history[|history| - 1] in history;
    }
  }

  /** The new state of the client table, whose log-free look is that of the plain machine. */
  lemma OfferRefines(joins: JoinRule, h: State, fd: Fd, c: Client)
    requires fd in h.clients
    ensures Abstract(joins, h.(clients := h.clients[fd := c]))
         == Abstract(joins, h).(guests := Abstract(joins, h).guests[fd := AsGuest(c)])
  {
    GuestReplaced(h, fd, c);
  }

  lemma IgnoredRefines(rule: PruneRule, joins: JoinRule, h: State, fd: Fd, m: Msg, uid: nat)
    requires Ready(rule, h) && fd in h.clients && Subject(m) != 0
    requires Admit(h, h.clients[fd].(nodeId := Subject(m)), m, uid).added == []
    ensures Abstract(joins, Data(rule, h, fd, m, uid)) == Receive(rule, joins, Abstract(joins, h), fd, m, uid)
  {
    var c := h.clients[fd].(nodeId := Subject(m));
    assert c.offered + [] == c.offered;
    RedundantIsKnown(m, c);
    if m.serial > 0 {
      NewerThanLast(rule, h.history, m.serial);
    }
    OfferRefines(joins, h, fd, c);
    SettleRefines(rule, joins, h.(clients := h.clients[fd := c]));
  }

  /** The plain machine accepts what the hub accepts, under the same number. */
  lemma AcceptedAlike(rule: PruneRule, joins: JoinRule, h: State, fd: Fd, m: Msg, uid: nat, c: Client, a: Admission)
    requires Ready(rule, h) && fd in h.clients && Subject(m) != 0
    requires c == h.clients[fd].(nodeId := Subject(m)) && a == Admit(h, c, m, uid) && a.added != []
    ensures var p := Abstract(joins, h);
            var offered := AsGuest(c.(offered := c.offered + a.added));
            Receive(rule, joins, p, fd, m, uid)
            == Enter(rule, joins, p.(guests := p.guests[fd := offered], next := a.next), a.added[0])
  {
    RedundantIsKnown(m, c);
    if m.serial > 0 {
      NewerThanLast(rule, h.history, m.serial);
    }
    PayloadsGrow(c.offered, a.added[0]);
  }

  lemma AcceptedRefines(rule: PruneRule, joins: JoinRule, h: State, fd: Fd, m: Msg, uid: nat)
    requires Ready(rule, h) && fd in h.clients && Subject(m) != 0
    requires Admit(h, h.clients[fd].(nodeId := Subject(m)), m, uid).added != []
    ensures Abstract(joins, Data(rule, h, fd, m, uid)) == Receive(rule, joins, Abstract(joins, h), fd, m, uid)
  {
    var c := h.clients[fd].(nodeId := Subject(m));
    var a := Admit(h, c, m, uid);
    var c' := c.(offered := c.offered + a.added);
    var h1 := h.(clients := h.clients[fd := c']);
    AcceptedAlike(rule, joins, h, fd, m, uid, c, a);
    OfferRefines(joins, h, fd, c');
    EnterRefines(rule, joins, h1, a.added[0], a.next);
    assert a.added == [a.added[0]] && Data(rule, h, fd, m, uid) == Advance(rule, h1, a.added, a.next);
  }

  lemma ReceivedRefines(rule: PruneRule, joins: JoinRule, h: State, fd: Fd, m: Msg, uid: nat)
    requires Ready(rule, h) && fd in h.clients
    ensures Abstract(joins, Data(rule, h, fd, m, uid)) == Receive(rule, joins, Abstract(joins, h), fd, m, uid)
  {
    if Subject(m) != 0 {
      if Admit(h, h.clients[fd].(nodeId := Subject(m)), m, uid).added == [] {
        IgnoredRefines(rule, joins, h, fd, m, uid);
      } else {
        AcceptedRefines(rule, joins, h, fd, m, uid);
      }
    }
  }

  lemma ConnectRefines(joins: JoinRule, h: State, fd: Fd)
    ensures Guests(Connect(h, fd).clients) == Guests(h.clients)[fd := Guest(0, {})]
  {
    assert AsGuest(Client(LastSeq(h.history), 0, [], h.history)) == Guest(0, {});
  }

  lemma DisconnectRefines(rule: PruneRule, joins: JoinRule, h: State, fd: Fd)
    requires Ready(rule, h) && fd in h.clients
    ensures Abstract(joins, Disconnect(rule, h, fd))
         == PlainNext(rule, joins, Abstract(joins, h), Disconnected(fd))
  {
    var h1 := h.(clients := h.clients - {fd});
    assert Guests(h1.clients) == Guests(h.clients) - {fd};
    EnterRefines(rule, joins, h1, LeaveOf(h.next, h.clients[fd].nodeId), h.next + 1);
  }

  lemma IdentifiedGuests(h: State)
    ensures Identified(h.clients) == set fd | fd in Guests(h.clients) :: Guests(h.clients)[fd].nodeId
  {
    var claimed := set fd | fd in Guests(h.clients) :: Guests(h.clients)[fd].nodeId;
    forall x ensures x in Identified(h.clients) <==> x in claimed {
      if x in Identified(h.clients) {
        var fd :| fd in h.clients && h.clients[fd].nodeId == x;
        assert fd in Guests(h.clients);
      }
    }
  }

  function Missing(ids: seq<nat>, connected: set<nat>): set<nat> {
    set id | id in ids && id !in connected
  }

  lemma {:induction false} EvictionsCount(ids: seq<nat>, connected: set<nat>, next: nat)
    requires forall i, j :: 0 <= i < j < |ids| ==> ids[i] != ids[j]
    ensures |Evictions(ids, connected, next)| == |Missing(ids, connected)|
  {
    if ids != [] {
      var n := |ids| - 1;
      EvictionsCount(ids[..n], connected, next);
      OneMoreGone(ids, connected);
    } else {
      assert Missing(ids, connected) == {};
    }
  }

  lemma OneMoreGone(ids: seq<nat>, connected: set<nat>)
    requires ids != [] && forall i, j :: 0 <= i < j < |ids| ==> ids[i] != ids[j]
    ensures var n := |ids| - 1;
            |Missing(ids, connected)| == |Missing(ids[..n], connected)| + if ids[n] in connected then 0 else 1
  {
    var n := |ids| - 1;
    var before := Missing(ids[..n], connected);
    assert ids[n] !in ids[..n];
    MissingTakesOne(ids, connected);
    if ids[n] !in connected {
      assert |before + {ids[n]}| == |before| + 1;
    }
  }

  lemma MissingTakesOne(ids: seq<nat>, connected: set<nat>)
    requires ids != []
    ensures var n := |ids| - 1;
            Missing(ids, connected) == Missing(ids[..n], connected) + if ids[n] in connected then {} else {ids[n]}
  {
    var n := |ids| - 1;
    assert forall x :: x in ids <==> x in ids[..n] || x == ids[n];
  }

  lemma PurgeLooks(rule: PruneRule, joins: JoinRule, h: State, order: seq<nat>, added: seq<Msg>)
    requires added == Evictions(order, Identified(h.clients), h.next)
    ensures var log := Purge(rule, h, order).history;
            Abstract(joins, Purge(rule, h, order))
            == Plain(Listing(joins, log), Left(log), LastSeq(log), h.next + |added|, Guests(h.clients))
  {
    AdvanceLooks(rule, joins, h, added, h.next + |added|);
  }

  lemma EvictIs(rule: PruneRule, joins: JoinRule, h: State, gone: set<nat>, log: seq<Msg>, count: nat)
    requires gone == Active(h.history) - Identified(h.clients) && count == |gone|
    requires Left(log) == Left(h.history) + gone
    requires Listing(joins, log) == Wipe(rule, Left(log), Listing(joins, h.history) - gone)
    requires LastSeq(log) == if count == 0 then LastSeq(h.history) else h.next + count - 1
    ensures Plain(Listing(joins, log), Left(log), LastSeq(log), h.next + count, Guests(h.clients))
         == Evict(rule, Abstract(joins, h))
  {
    EvictLooks(rule, joins, h, gone);
  }

  lemma PurgeRefines(rule: PruneRule, joins: JoinRule, h: State, order: seq<nat>)
    requires Ready(rule, h) && Enumerates(order, Active(h.history))
    ensures Abstract(joins, Purge(rule, h, order)) == Evict(rule, Abstract(joins, h))
  {
    var added, gone := Evictions(order, Identified(h.clients), h.next), Active(h.history) - Identified(h.clients);
    PurgeLooks(rule, joins, h, order, added);
    PurgeCounts(h, order);
    PurgeTakesAway(rule, joins, h, order);
    PurgeNewest(rule, h, order);
    EvictIs(rule, joins, h, gone, Purge(rule, h, order).history, |added|);
  }

  lemma EvictLooks(rule: PruneRule, joins: JoinRule, h: State, gone: set<nat>)
    requires gone == Active(h.history) - Identified(h.clients)
    ensures var p := Abstract(joins, h);
            Evict(rule, p) == Plain(Wipe(rule, p.left + gone, p.nodes - gone), p.left + gone,
                                    if gone == {} then p.newest else p.next + |gone| - 1, p.next + |gone|, p.guests)
  {
    IdentifiedGuests(h);
    KeysIgnoreJoinRule(joins, KeepFirst, h.history, map[], map[]);
  }

  lemma PurgeCounts(h: State, order: seq<nat>)
    requires Enumerates(order, Active(h.history))
    ensures |Evictions(order, Identified(h.clients), h.next)| == |Active(h.history) - Identified(h.clients)|
  {
    EvictionsCount(order, Identified(h.clients), h.next);
    assert Active(h.history) - Identified(h.clients) == Missing(order, Identified(h.clients));
  }

  lemma PurgeTakesAway(rule: PruneRule, joins: JoinRule, h: State, order: seq<nat>)
    requires LeaveFinal(rule, h.history) && Enumerates(order, Active(h.history))
    ensures var gone, log := Active(h.history) - Identified(h.clients), Purge(rule, h, order).history;
            && Left(log) == Left(h.history) + gone
            && Listing(joins, log) == Wipe(rule, Left(log), Listing(joins, h.history) - gone)
  {
    var nodes, added := Listing(joins, h.history), Evictions(order, Identified(h.clients), h.next);
    PurgedLog(rule, h, order);
    LeftOfKeep(rule, Left(h.history + added), h.history + added);
    LeftConcat(h.history, added);
    PurgeExact(rule, joins, h, order);
    KeysIgnoreJoinRule(joins, KeepFirst, h.history, map[], map[]);
    assert nodes.Keys - Identified(h.clients) == Active(h.history) - Identified(h.clients);
  }

  lemma PurgeNewest(rule: PruneRule, h: State, order: seq<nat>)
    requires Ready(rule, h)
    ensures var added := Evictions(order, Identified(h.clients), h.next);
            LastSeq(Purge(rule, h, order).history)
            == if added == [] then LastSeq(h.history) else h.next + |added| - 1
  {
    EvictionsAreNewer(h, order);
    NewestAfterAll(rule, h.history, Evictions(order, Identified(h.clients), h.next));
  }

  lemma NewestAfterAll(rule: PruneRule, history: seq<Msg>, leaves: seq<Msg>)
    requires Seed(rule, history) && Newer(history, leaves)
    requires forall i :: 0 <= i < |leaves| ==> IsLeave(leaves[i])
    ensures LastSeq(Prune(rule, history + leaves)) == if leaves == [] then LastSeq(history) else LastSeq(leaves)
  {
    LogAdvances(rule, history, leaves);
    KeepAll(rule, Left(history + leaves), leaves);
  }

  /** Whatever happens, the hub without its log stays what the plain machine is. */
  lemma NextRefines(rule: PruneRule, joins: JoinRule, h: State, e: Event)
    requires Good(rule, h)
    ensures Enabled(h, e) <==> PlainEnabled(Abstract(joins, h), e)
    ensures Abstract(joins, Next(rule, h, e)) == PlainNext(rule, joins, Abstract(joins, h), e)
  {
    KeysIgnoreJoinRule(joins, KeepFirst, h.history, map[], map[]);
    if Enabled(h, e) {
      match e
      case Connected(fd) => ConnectRefines(joins, h, fd);
      case Received(fd, m, uid) => ReceivedRefines(rule, joins, h, fd, m, uid);
      case Disconnected(fd) => DisconnectRefines(rule, joins, h, fd);
      case PurgeDue(order) => PurgeRefines(rule, joins, h, order);
    }
  }

  /** Refinement over whole runs, by either rule: topology, departures, counters and what each connection is known by
      are at every point what the plain machine makes of the same events. */
  lemma {:induction false} RunRefines(rule: PruneRule, joins: JoinRule, h: State, es: seq<Event>)
    requires Good(rule, h)
    ensures Abstract(joins, Run(rule, h, es)) == PlainRun(rule, joins, Abstract(joins, h), es)
    decreases |es|
  {
    if es != [] {
      NextGood(rule, h, es[0]);
      NextRefines(rule, joins, h, es[0]);
      RunRefines(rule, joins, Next(rule, h, es[0]), es[1..]);
    }
  }

  /** A LEAVE is final over whole runs: whatever arrives later, the node is never listed again. */
  lemma LeftNeverReturns(rule: PruneRule, joins: JoinRule, h: State, es: seq<Event>, id: nat)
    requires Good(rule, h) && id in Left(h.history)
    ensures id !in Listing(joins, Run(rule, h, es).history)
  {
    RunExtends(rule, h, es);
    LeftIsGone(rule, joins, Run(rule, h, es).history, map[], id);
  }
}
