/** Which node the hub takes away when a connection breaks: the one its last message spoke about, its own or not. */
module Claims {
  import opened Messages
  import opened Topology
  import opened Pruning
  import opened Wiping
  import opened Hub
  import opened HubRuns
  import opened Streams
  import opened HubMeaning

  /** What arrives on the connection, in order. */
  function Heard(es: seq<Event>, fd: Fd): seq<Msg> {
    if es == [] then []
    else
      var n := |es| - 1;
      Heard(es[..n], fd) + if es[n].Received? && es[n].fd == fd then [es[n].m] else []
  }

  /** The node the last message that names one speaks about, 0 if there is none. */
  function LastSubject(heard: seq<Msg>): nat {
    if heard == [] then 0
    else
      var n := |heard| - 1;
      if Subject(heard[n]) != 0 then Subject(heard[n]) else LastSubject(heard[..n])
  }

  lemma ClaimNext(rule: PruneRule, h: State, e: Event, fd: Fd)
    requires fd in h.clients && e != Disconnected(fd)
    ensures fd in Next(rule, h, e).clients
    ensures Next(rule, h, e).clients[fd].nodeId
         == if e.Received? && e.fd == fd && Subject(e.m) != 0 then Subject(e.m) else h.clients[fd].nodeId
  {
  }

  /** While a connection lives, the hub takes it for the node of its last message that names one. */
  lemma {:induction false} ClaimIsLastSubject(rule: PruneRule, h: State, es: seq<Event>, fd: Fd)
    requires fd !in h.clients && Disconnected(fd) !in es
    ensures var h' := Run(rule, Connect(h, fd), es);
            fd in h'.clients && h'.clients[fd].nodeId == LastSubject(Heard(es, fd))
  {
    if es != [] {
      var n := |es| - 1;
      assert es == es[..n] + [es[n]] && es[n] in es;
      ClaimIsLastSubject(rule, h, es[..n], fd);
      RunAppend(rule, Connect(h, fd), es[..n], es[n]);
      ClaimNext(rule, Run(rule, Connect(h, fd), es[..n]), es[n], fd);
      var before := Heard(es[..n], fd);
      assert es[n].Received? && es[n].fd == fd ==> (before + [es[n].m])[..|before|] == before;
      assert before + [] == before;
    }
  }

  lemma DisconnectTakes(rule: PruneRule, joins: JoinRule, h: State, fd: Fd)
    requires Good(rule, h) && fd in h.clients
    ensures var h' := Disconnect(rule, h, fd);
            && Left(h'.history) == Left(h.history) + {h.clients[fd].nodeId}
            && Listing(joins, h'.history).Keys == Listing(joins, h.history).Keys - {h.clients[fd].nodeId}
  {
    var leave := LeaveOf(h.next, h.clients[fd].nodeId);
    AppendMeans(rule, joins, h.history, leave);
    LeftOfOne(h.history, leave);
    LeftOfKeep(rule, Left(h.history + [leave]), h.history + [leave]);
  }

  /** A broken connection takes away exactly the node its last message with a node spoke about, whoever else still
      speaks for it. */
  lemma BrokenTakesLastSubject(rule: PruneRule, joins: JoinRule, h: State, fd: Fd, es: seq<Event>)
    requires Good(rule, h) && fd !in h.clients && Disconnected(fd) !in es
    ensures var h1, gone := Run(rule, Connect(h, fd), es), LastSubject(Heard(es, fd));
            && fd in h1.clients
            && Left(Disconnect(rule, h1, fd).history) == Left(h1.history) + {gone}
            && Listing(joins, Disconnect(rule, h1, fd).history).Keys == Listing(joins, h1.history).Keys - {gone}
  {
    ConnectGood(rule, h, fd);
    RunGood(rule, Connect(h, fd), es);
    ClaimIsLastSubject(rule, h, es, fd);
    DisconnectTakes(rule, joins, Run(rule, Connect(h, fd), es), fd);
  }

  /** A spoke sends its history and then speaks for itself. If the connection breaks after `k` messages, its own node
      goes exactly if its own words had begun, or the history's last word so far was about itself. */
  lemma OwnNodeGoesIff(history: seq<Msg>, own: seq<Msg>, me: nat, k: nat)
    requires me != 0 && forall m :: m in own ==> Subject(m) == me
    requires k <= |history + own|
    ensures LastSubject((history + own)[..k]) == me <==> k > |history| || LastSubject(history[..k]) == me
    ensures k <= |history| ==> LastSubject((history + own)[..k]) == LastSubject(history[..k])
  {
    if k > |history| {
      assert (history + own)[..k][k - 1] == own[k - 1 - |history|];
      assert own[k - 1 - |history|] in own;
    } else {
      assert (history + own)[..k] == history[..k];
    }
  }

  lemma NextIsDisconnect(rule: PruneRule, h: State, fd: Fd)
    requires fd in h.clients
    ensures Next(rule, h, Disconnected(fd)) == Disconnect(rule, h, fd)
  {
  }

  lemma DisconnectLeaves(rule: PruneRule, h: State, fd: Fd, id: nat)
    requires Good(rule, h) && fd in h.clients && h.clients[fd].nodeId == id
    ensures Good(rule, Disconnect(rule, h, fd)) && id in Left(Disconnect(rule, h, fd).history)
  {
    DisconnectGood(rule, h, fd);
    DisconnectTakes(rule, KeepFirst, h, fd);
  }

  /** So an upload that breaks off after an entry about somebody else takes that node away, for good, in whatever state
      the hub was. */
  lemma BrokenUploadTakesOther(rule: PruneRule, joins: JoinRule, h: State, fd: Fd, m: Msg, more: seq<Event>)
    requires Good(rule, h) && fd !in h.clients && Subject(m) != 0
    ensures var es := [Connected(fd), Received(fd, m, 0), Disconnected(fd)];
            Subject(m) !in Listing(joins, Run(rule, Run(rule, h, es), more).history)
  {
    var h0 := Next(rule, h, Connected(fd));
    var h1 := Next(rule, h0, Received(fd, m, 0));
    NextGood(rule, h, Connected(fd));
    NextGood(rule, h0, Received(fd, m, 0));
    ClaimNext(rule, h0, Received(fd, m, 0), fd);
    DisconnectLeaves(rule, h1, fd, Subject(m));
    NextIsDisconnect(rule, h1, fd);
    LeftNeverReturns(rule, joins, Disconnect(rule, h1, fd), more, Subject(m));
    RunThree(rule, h, Connected(fd), Received(fd, m, 0), Disconnected(fd));
  }
}
