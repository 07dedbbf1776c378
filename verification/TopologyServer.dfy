/** The hub as the program has it: an object whose methods change log, counter and client table in place.
    Every method is proved against the state machine of module `Hub`. */
module TopologyServers {
  import opened Messages
  import opened Topology
  import opened Pruning
  import opened Hub
  import opened Repeats

  predicate SameNodeChange(a: Body, b: Body)
    requires a.NodeChange? && b.NodeChange?
  {
    a.id == b.id && a.op == b.op && a.name == b.name && a.address == b.address
  }

  predicate SameTopicChange(a: Body, b: Body)
    requires a.TopicChange? && b.TopicChange?
  {
    a.topic == b.topic && a.mime == b.mime && a.nodeId == b.nodeId && a.verb == b.verb && a.socket == b.socket
  }

  method IsRedundant(m: Msg, offered: seq<Msg>) returns (redundant: bool)
    ensures redundant <==> Redundant(m, offered)
  {
    for i := 0 to |offered|
      invariant !Redundant(m, offered[..i])
    {
      assert offered[..i + 1] == offered[..i] + [offered[i]];
      var o := offered[i];
      if o.body.NodeChange? && m.body.NodeChange? && SameNodeChange(o.body, m.body) {
        assert o in offered;
        return true;
      } else if o.body.TopicChange? && m.body.TopicChange? && SameTopicChange(o.body, m.body) {
        assert o in offered;
        return true;
      }
    }
    assert offered[..|offered|] == offered;
    return false;
  }

  /** What is kept in the end does not change when the next entry is erased or stepped over, as it should be. */
  lemma EraseStep(rule: PruneRule, left: set<nat>, kept: seq<Msg>, rest: seq<Msg>)
    requires rest != []
    ensures var next := if Kept(rule, left, rest[0]) then kept + [rest[0]] else kept;
            next + Keep(rule, left, rest[1..]) == kept + Keep(rule, left, rest)
  {
    if Kept(rule, left, rest[0]) {
      Reassociate(kept, [rest[0]], Keep(rule, left, rest[1..]));
    } else {
      assert Keep(rule, left, rest) == Keep(rule, left, rest[1..]);
    }
  }

  /** Erasing at an iterator, and stepping over. */
  lemma CutOut<T>(kept: seq<T>, rest: seq<T>)
    requires rest != []
    ensures var all, it := kept + rest, |kept|;
            && all[it] == rest[0]
            && all[..it] + all[it + 1..] == kept + rest[1..]
            && all == (kept + [rest[0]]) + rest[1..]
  {
  }

  lemma DataIsAdvance(rule: PruneRule, h: State, fd: Fd, m: Msg, uid: nat, c: Client, a: Admission)
    requires fd in h.clients && Subject(m) != 0
    requires c == h.clients[fd].(nodeId := Subject(m)) && a == Admit(h, c, m, uid)
    ensures Data(rule, h, fd, m, uid)
         == Advance(rule, h.(clients := h.clients[fd := c.(offered := c.offered + a.added)]), a.added, a.next)
  {
  }

  lemma OpensWell(rule: PruneRule, digest: seq<Msg>, h: State)
    requires h == Open(digest)
    ensures Digest(rule, digest) ==> GoodOnce(rule, h)
    ensures Seed(rule, digest) ==> GoodOnce(rule, h) && Good(rule, h)
  {
    if Seed(rule, digest) {
      SeedIsDigest(rule, digest);
      OpenGood(rule, digest);
    }
    if Digest(rule, digest) {
      OpenCollapses(rule, digest);
    }
  }

  lemma StepKeeps(rule: PruneRule, h: State, e: Event, h': State)
    requires GoodOnce(rule, h) && Enabled(h, e) && h' == Step(rule, h, e)
    ensures GoodOnce(rule, h')
  {
    NextCollapses(rule, h, e);
  }

  class TopologyServer {
    const rule: PruneRule
    var history: seq<Msg>
    var nextSerial: nat
    var clients: map<Fd, Client>
    // What an observer connected from the start would have been sent.
    ghost var journal: seq<Msg>

    ghost function View(): State
      reads this
    {
      State(history, nextSerial, clients, journal)
    }

    /** The hub invariant, but for entries that the digest repeats. */
    ghost predicate Valid()
      reads this
    {
      GoodOnce(rule, View())
    }

    constructor (rule: PruneRule, digest: seq<Msg>)
      ensures this.rule == rule
      ensures View() == Open(digest)
      ensures Digest(rule, digest) ==> Valid()
      ensures Seed(rule, digest) ==> Valid() && Good(rule, View())
    {
      this.rule := rule;
      history := digest;
      clients := map[];
      journal := digest;
      nextSerial := 1;
      new;
      for i := 0 to |digest|
        invariant nextSerial == if i == 0 then 1 else digest[i - 1].serial + 1
        invariant history == digest && clients == map[] && journal == digest
      {
        nextSerial := digest[i].serial + 1;
      }
      OpensWell(rule, digest, View());
    }

    method OnConnect(fd: Fd)
      requires Valid() && fd !in clients
      modifies this`clients
      ensures View() == Connect(old(View()), fd)
      ensures Valid()
    {
      ghost var before := View();
      GoodOnceIsExact(rule, before);
      var c := SendDigest();
      clients := clients[fd := c];
      StepKeeps(rule, before, Connected(fd), View());
    }

    method SendDigest() returns (c: Client)
      requires WeaklySorted(history)
      ensures c == Client(LastSeq(history), 0, [], history)
    {
      c := Client(0, 0, [], []);
      for i := 0 to |history|
        invariant c == Client(LastSeq(history[..i]), 0, [], history[..i])
      {
        assert history[i].serial >= c.serial;
        c := c.(serial := history[i].serial, sent := c.sent + [history[i]]);
        assert history[..i + 1] == history[..i] + [history[i]];
      }
      assert history[..|history|] == history;
    }

    /** Two passes: collect the ids that left, then erase in place what they had said. */
    method PruneRemoved()
      modifies this`history
      ensures history == Prune(rule, old(history))
    {
      var left := CollectLeft();
      EraseLeft(left);
    }

    method CollectLeft() returns (left: set<nat>)
      ensures left == Left(history)
    {
      left := {};
      for i := 0 to |history|
        invariant left == Left(history[..i])
      {
        assert history[..i + 1] == history[..i] + [history[i]];
        LeftConcat(history[..i], [history[i]]);
        assert Left([history[i]]) == if IsLeave(history[i]) then {history[i].body.id} else {} by {
          assert history[i] in [history[i]];
        }
        if history[i].body.NodeChange? && history[i].body.op == Leave {
          left := left + {history[i].body.id};
        }
      }
      assert history[..|history|] == history;
    }

    /** The test of the erase loop, branch by branch. */
    predicate Condemned(left: set<nat>, m: Msg)
      ensures Condemned(left, m) <==> !Kept(rule, left, m)
    {
      match m.body
      case NodeChange(id, op, _, _) => id in left && op != Leave
      case TopicChange(_, _, id, _, _) => TopicGone(rule, left, id)
      case NoBody => false
    }

    method EraseLeft(left: set<nat>)
      modifies this`history
      ensures history == Keep(rule, left, old(history))
    {
      // `rest` is the part of the old log the iterator has not seen, `kept` what it has left standing.
      ghost var kept, rest := [], history;
      ghost var goal := Keep(rule, left, history);
      var it := 0;
      while it < |history|
        invariant it == |kept| && history == kept + rest
        invariant kept + Keep(rule, left, rest) == goal
        decreases |history| - it
      {
        var m := history[it];
        CutOut(kept, rest);
        EraseStep(rule, left, kept, rest);
        if Condemned(left, m) {
          history := history[..it] + history[it + 1..];
        } else {
          kept := kept + [m];
          it := it + 1;
        }
        rest := rest[1..];
      }
      assert rest == [];
    }

    /** Send every client what lies past its cursor. */
    method BroadcastAll()
      requires AllBelow(history, nextSerial)
      modifies this`clients, this`journal
      ensures View() == Broadcast(old(View()))
    {
      ghost var before := View();
      var todo: set<Fd> := clients.Keys;
      while todo != {}
        invariant todo <= clients.Keys == before.clients.Keys
        invariant history == before.history && nextSerial == before.next && journal == before.journal
        invariant forall fd :: fd in todo ==> clients[fd] == before.clients[fd]
        invariant forall fd :: fd in clients && fd !in todo ==> clients[fd] == Served(before.clients[fd], history)
        decreases todo
      {
        var fd := Pick(todo);
        var c := Serve(clients[fd]);
        clients := clients[fd := c];
        todo := todo - {fd};
      }
      journal := journal + Deliver(history, LastSeq(journal));
      forall fd | fd in clients ensures clients[fd] == Broadcast(before).clients[fd] {
        assert clients[fd] == Served(before.clients[fd], history);
      }
      assert clients == Broadcast(before).clients;
    }

    method Serve(client: Client) returns (c: Client)
      requires AllBelow(history, nextSerial)
      ensures c == Served(client, history)
    {
      c := client;
      for i := 0 to |history|
        invariant c == Served(client, history[..i])
      {
        assert history[..i + 1] == history[..i] + [history[i]];
        DeliverAppend(history[..i], history[i], client.serial);
        if history[i].serial > c.serial {
          assert history[i] in history && history[i].serial < nextSerial;
          c := c.(sent := c.sent + [history[i]], serial := history[i].serial);
        }
      }
      assert history[..|history|] == history;
    }

    /** The tail every change shares: compact, then bring all clients up to date. */
    method Republish(ghost h: State, ghost added: seq<Msg>)
      requires history == h.history + added && clients == h.clients && journal == h.journal
      requires AllBelow(history, nextSerial)
      modifies this`history, this`clients, this`journal
      ensures View() == Advance(rule, h, added, nextSerial)
    {
      PruneRemoved();
      BroadcastAll();
    }

    method OnDisconnect(fd: Fd)
      requires Valid() && fd in clients
      modifies this`history, this`nextSerial, this`clients, this`journal
      ensures View() == Disconnect(rule, old(View()), fd)
      ensures Valid()
    {
      ghost var before := View();
      GoodOnceIsExact(rule, before);
      MintLeave(fd);
      StepKeeps(rule, before, Disconnected(fd), View());
    }

    /** The connection's node leaves, and everybody is told. */
    method MintLeave(fd: Fd)
      requires fd in clients && AllBelow(history, nextSerial)
      modifies this`history, this`nextSerial, this`clients, this`journal
      ensures View() == Disconnect(rule, old(View()), fd)
    {
      ghost var before := View();
      var leave := LeaveOf(nextSerial, clients[fd].nodeId);
      history := history + [leave];
      nextSerial := nextSerial + 1;
      clients := clients - {fd};
      Republish(before.(clients := clients), [leave]);
    }

    /** A fresh message gets the next sequence number and the uid drawn for it, unless it is redundant. */
    method AddNovelMessage(m: Msg, fd: Fd, uid: nat)
      requires fd in clients
      modifies this`history, this`nextSerial, this`clients
      ensures var c, a := old(clients[fd]), AdmitNovel(old(View()), old(clients[fd]), m, uid);
              && history == old(history) + a.added && nextSerial == a.next
              && clients == old(clients)[fd := c.(offered := c.offered + a.added)]
    {
      ghost var c0 := clients[fd];
      var redundant := IsRedundant(m, clients[fd].offered);
      if redundant {
        assert history + [] == history && c0.offered + [] == c0.offered;
        assert clients == clients[fd := c0];
      } else {
        var tmp := m.(serial := nextSerial, uid := uid);
        nextSerial := nextSerial + 1;
        history := history + [tmp];
        clients := clients[fd := clients[fd].(offered := clients[fd].offered + [tmp])];
      }
    }

    /** A message that already has a number is accepted only if it is newer than the whole log. */
    method AddOldMessage(m: Msg, fd: Fd)
      requires WeaklySorted(history) && fd in clients
      modifies this`history, this`nextSerial, this`clients
      ensures var c, a := old(clients[fd]), AdmitOld(old(View()), m);
              && history == old(history) + a.added && nextSerial == a.next
              && clients == old(clients)[fd := c.(offered := c.offered + a.added)]
    {
      ghost var c0 := clients[fd];
      var hit := LowerBound(history, m.serial);
      if hit == |history| {
        assert AllBelow(history, m.serial);
        history := history + [m];
        clients := clients[fd := clients[fd].(offered := clients[fd].offered + [m])];
        nextSerial := m.serial + 1;
      } else {
        // A match is already there; anything else conflicts or would fill a hole, and is rejected.
        assert history[hit] in history && !AllBelow(history, m.serial);
        assert history + [] == history && c0.offered + [] == c0.offered;
        assert clients == clients[fd := c0];
      }
    }

    method OnData(fd: Fd, len: nat, m: Msg, uid: nat)
      requires Valid()
      requires len > 0 && Subject(m) != 0 ==> fd in clients
      modifies this`history, this`nextSerial, this`clients, this`journal
      ensures View() == if len == 0 || Subject(m) == 0 then old(View()) else Data(rule, old(View()), fd, m, uid)
      ensures Valid()
    {
      if len == 0 {
        return;
      }
      var nodeId := 0;
      if m.body.NodeChange? {
        nodeId := m.body.id;
      } else if m.body.TopicChange? {
        nodeId := m.body.nodeId;
      }
      if nodeId == 0 {
        return;
      }
      ghost var before := View();
      GoodOnceIsExact(rule, before);
      Integrate(fd, nodeId, m, uid);
      StepKeeps(rule, before, Received(fd, m, uid), View());
    }

    method Integrate(fd: Fd, nodeId: nat, m: Msg, uid: nat)
      requires WeaklySorted(history) && AllBelow(history, nextSerial) && LastSeq(history) < nextSerial
      requires fd in clients && nodeId == Subject(m) != 0
      modifies this`history, this`nextSerial, this`clients, this`journal
      ensures View() == Data(rule, old(View()), fd, m, uid)
    {
      ghost var before := View();
      ghost var c := clients[fd].(nodeId := nodeId);
      ghost var a := Admit(before, c, m, uid);
      AdmitFits(before, c, m, uid);
      Claim(fd, nodeId);
      AddMessage(m, fd, uid, before, c);
      DataIsAdvance(rule, before, fd, m, uid, c, a);
      Republish(before.(clients := clients), a.added);
    }

    method Claim(fd: Fd, nodeId: nat)
      requires fd in clients
      modifies this`clients
      ensures clients == old(clients)[fd := old(clients)[fd].(nodeId := nodeId)]
    {
      clients := clients[fd := clients[fd].(nodeId := nodeId)];
    }

    /** A fresh message or an old one, for a client whose claim has just been noted. */
    method AddMessage(m: Msg, fd: Fd, uid: nat, ghost before: State, ghost c: Client)
      requires WeaklySorted(history) && fd in before.clients
      requires View() == before.(clients := before.clients[fd := c])
      modifies this`history, this`nextSerial, this`clients
      ensures var a := Admit(before, c, m, uid);
              && history == before.history + a.added && nextSerial == a.next
              && clients == before.clients[fd := c.(offered := c.offered + a.added)]
    {
      if m.serial == 0 {
        AddNovelMessage(m, fd, uid);
      } else {
        AddOldMessage(m, fd);
      }
    }

    /** Mint a LEAVE for every node the log has as joined that no connection claims. */
    method PurgeDisconnected() returns (ghost order: seq<nat>)
      requires Valid()
      modifies this`history, this`nextSerial, this`clients, this`journal
      ensures Enumerates(order, Active(old(history)))
      ensures View() == Purge(rule, old(View()), order)
      ensures Valid()
    {
      ghost var before := View();
      GoodOnceIsExact(rule, before);
      order := EvictUnclaimed();
      StepKeeps(rule, before, PurgeDue(order), View());
    }

    method EvictUnclaimed() returns (ghost order: seq<nat>)
      requires LastSeq(history) < nextSerial && AllBelow(history, nextSerial)
      modifies this`history, this`nextSerial, this`clients, this`journal
      ensures Enumerates(order, Active(old(history)))
      ensures View() == Purge(rule, old(View()), order)
    {
      ghost var before := View();
      var connected := CollectConnected();
      var active := CollectActive();
      order := EvictMissing(active, connected);
      ghost var added := Evictions(order, connected, before.next);
      EvictionsAreNewer(before, order);
      assert AllBelow(before.history + added, nextSerial);
      Republish(before, added);
    }

    method CollectConnected() returns (connected: set<nat>)
      ensures connected == Identified(clients)
    {
      connected := {};
      var todo: set<Fd> := clients.Keys;
      while todo != {}
        invariant todo <= clients.Keys
        invariant connected == set fd | fd in clients && fd !in todo :: clients[fd].nodeId
        decreases todo
      {
        var fd := Pick(todo);
        connected := connected + {clients[fd].nodeId};
        todo := todo - {fd};
      }
    }

    /** The `historicallyActive` scan finds exactly the nodes that a replay of the log has as joined. */
    method CollectActive() returns (active: set<nat>)
      ensures active == Active(history)
    {
      active := {};
      for i := 0 to |history|
        invariant active == Active(history[..i])
      {
        assert history[..i + 1] == history[..i] + [history[i]];
        ReplayAppend(KeepFirst, history[..i], history[i], map[]);
        if history[i].body.NodeChange? {
          if history[i].body.op == Join {
            active := active + {history[i].body.id};
          } else if history[i].body.op == Leave {
            active := active - {history[i].body.id};
          }
        }
      }
      assert history[..|history|] == history;
    }

    method EvictMissing(active: set<nat>, connected: set<nat>) returns (ghost order: seq<nat>)
      modifies this`history, this`nextSerial
      ensures Enumerates(order, active)
      ensures var added := Evictions(order, connected, old(nextSerial));
              history == old(history) + added && nextSerial == old(nextSerial) + |added|
    {
      ghost var first := nextSerial;
      order := [];
      var todo := active;
      while todo != {}
        invariant todo <= active && Enumerates(order, active - todo)
        invariant history == old(history) + Evictions(order, connected, first)
        invariant nextSerial == first + |Evictions(order, connected, first)|
        decreases todo
      {
        var id := Pick(todo);
        ghost var longer := order + [id];
        assert longer[..|longer| - 1] == order;
        if id !in connected {
          history := history + [LeaveOf(nextSerial, id)];
          nextSerial := nextSerial + 1;
        }
        order := longer;
        todo := todo - {id};
      }
    }
  }
}
