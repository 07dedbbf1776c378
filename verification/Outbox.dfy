/** The spoke's outgoing side: direct sends, the backlog kept while there is no client, and its draining by
    the main loop while the application keeps sending. */
module Outboxes {
  import opened Messages

  /** `draining` is the main loop's local copy of the backlog, `delivered` what clients accepted. */
  datatype Outbox = Outbox(connected: bool, backlog: seq<Msg>, draining: seq<Msg>, delivered: seq<Msg>)

  /** Send one message; `ok` is whether the client accepts it. A refusal drops the client. */
  function Send(o: Outbox, m: Msg, ok: bool): Outbox {
    if !o.connected then o.(backlog := o.backlog + [m])
    else if !ok then o.(connected := false, backlog := o.backlog + [m])
    else o.(delivered := o.delivered + [m])
  }

  /** `Submit` is an application thread, the others are the main loop between its locked sections. */
  datatype Action = Submit(m: Msg, ok: bool) | TakeBacklog | DrainOne(ok: bool) | DropClient

  /** The main loop takes the backlog over, and gives its client up, only with nothing left to drain. */
  function Act(o: Outbox, a: Action): Outbox {
    match a
    case Submit(m, ok) => Send(o, m, ok)
    case TakeBacklog =>
      if o.draining == [] then o.(connected := true, backlog := [], draining := o.backlog) else o
    case DrainOne(ok) =>
      if o.draining == [] then o else Send(o.(draining := o.draining[1..]), o.draining[0], ok)
    case DropClient => if o.draining == [] then o.(connected := false) else o
  }

  function ActAll(o: Outbox, actions: seq<Action>): Outbox
    decreases |actions|
  {
    if actions == [] then o else ActAll(Act(o, actions[0]), actions[1..])
  }

  function Submitted(actions: seq<Action>): seq<Msg> {
    if actions == [] then []
    else (if actions[0].Submit? then [actions[0].m] else []) + Submitted(actions[1..])
  }

  function Held(o: Outbox): multiset<Msg> {
    multiset(o.delivered) + multiset(o.backlog) + multiset(o.draining)
  }

  lemma SendConserves(o: Outbox, m: Msg, ok: bool)
    ensures Held(Send(o, m, ok)) == Held(o) + multiset{m}
  {
  }

  /** What each action does, case by case. Without a client a message waits in the backlog; a refused one goes there
      too and costs the client; any other is delivered. */
  lemma ActionsDo(o: Outbox, m: Msg, ok: bool)
    ensures var o' := Act(o, Submit(m, ok));
            && o'.draining == o.draining && o'.connected == (o.connected && ok)
            && o'.delivered == o.delivered + (if o.connected && ok then [m] else [])
            && o'.backlog == o.backlog + (if o.connected && ok then [] else [m])
    ensures o.draining == [] ==> Act(o, TakeBacklog) == Outbox(true, [], o.backlog, o.delivered)
    ensures o.draining == [] ==> Act(o, DropClient) == Outbox(false, o.backlog, [], o.delivered)
    ensures o.draining != [] && o.draining[0] == m ==>
              Act(o, DrainOne(ok)) == Act(o.(draining := o.draining[1..]), Submit(m, ok))
  {
    assert o.delivered + [] == o.delivered && o.backlog + [] == o.backlog;
  }

  lemma DrainOneConserves(o: Outbox, ok: bool)
    ensures Held(Act(o, DrainOne(ok))) == Held(o)
  {
    if o.draining != [] {
      var m, o1 := o.draining[0], o.(draining := o.draining[1..]);
      assert o.draining == [m] + o.draining[1..];
      assert multiset(o.draining) == multiset{m} + multiset(o.draining[1..]);
      SendConserves(o1, m, ok);
      assert Held(o) == Held(o1) + multiset{m};
    }
  }

  lemma ActConserves(o: Outbox, a: Action)
    ensures Held(Act(o, a)) == Held(o) + multiset(Submitted([a]))
  {
    assert Submitted([a]) == if a.Submit? then [a.m] else [] by {
      assert [a][1..] == [];
    }
    match a
    case Submit(m, ok) => SendConserves(o, m, ok);
    case DrainOne(ok) => DrainOneConserves(o, ok);
    case TakeBacklog =>
    case DropClient =>
  }

  lemma SubmittedFirst(actions: seq<Action>)
    requires actions != []
    ensures multiset(Submitted(actions)) == multiset(Submitted([actions[0]])) + multiset(Submitted(actions[1..]))
  {
    var first, rest := Submitted([actions[0]]), Submitted(actions[1..]);
    assert [actions[0]][1..] == [] && Submitted([]) == [];
    assert Submitted(actions) == first + rest;
    assert multiset(first + rest) == multiset(first) + multiset(rest);
  }

  /** However sends, takeovers, drain steps and lost clients interleave, and whichever sends fail, nothing
      submitted is lost or doubled: it was delivered, or waits in the backlog or in the drain. */
  lemma {:induction false} NothingLost(o: Outbox, actions: seq<Action>)
    ensures Held(ActAll(o, actions)) == Held(o) + multiset(Submitted(actions))
    decreases |actions|
  {
    if actions != [] {
      SubmittedFirst(actions);
      ActConserves(o, actions[0]);
      NothingLost(Act(o, actions[0]), actions[1..]);
    }
  }

  function Drain(oks: seq<bool>): seq<Action> {
    seq(|oks|, i requires 0 <= i < |oks| => DrainOne(oks[i]))
  }

  /** With no other sender the order survives even a failure midway: what got delivered, followed by what is
      back in the backlog, is the old backlog. */
  lemma {:induction false} DrainKeepsOrder(o: Outbox, oks: seq<bool>)
    requires |oks| == |o.draining|
    requires o.connected ==> o.backlog == []
    ensures var o' := ActAll(o, Drain(oks));
            && o'.draining == []
            && o.delivered <= o'.delivered
            && o'.delivered + o'.backlog == o.delivered + o.backlog + o.draining
            && (o'.connected ==> o'.backlog == [])
            && (!o.connected ==> o'.delivered == o.delivered)
    decreases |oks|
  {
    if oks != [] {
      var o1 := Act(o, DrainOne(oks[0]));
      assert Drain(oks)[0] == DrainOne(oks[0]) && Drain(oks)[1..] == Drain(oks[1..]);
      assert o.draining == [o.draining[0]] + o.draining[1..];
      assert o1.delivered + o1.backlog + o1.draining == o.delivered + o.backlog + o.draining;
      DrainKeepsOrder(o1, oks[1..]);
    }
  }

  lemma TakeoverKeepsOrder(o: Outbox, oks: seq<bool>)
    requires o.draining == [] && |oks| == |o.backlog|
    ensures var o' := ActAll(o, [TakeBacklog] + Drain(oks));
            && o'.delivered + o'.backlog == o.delivered + o.backlog
            && o.delivered <= o'.delivered && o'.draining == []
            && (o'.connected <==> forall i :: 0 <= i < |oks| ==> oks[i])
  {
    var o1 := Act(o, TakeBacklog);
    assert ([TakeBacklog] + Drain(oks))[1..] == Drain(oks);
    assert o1.delivered + o1.backlog + o1.draining == o.delivered + o.backlog;
    DrainKeepsOrder(o1, oks);
    DrainStaysConnected(o1, oks);
  }

  lemma {:induction false} DrainStaysConnected(o: Outbox, oks: seq<bool>)
    requires |oks| == |o.draining|
    ensures ActAll(o, Drain(oks)).connected <==> o.connected && forall i :: 0 <= i < |oks| ==> oks[i]
    decreases |oks|
  {
    if oks != [] {
      assert Drain(oks)[0] == DrainOne(oks[0]) && Drain(oks)[1..] == Drain(oks[1..]);
      DrainStaysConnected(Act(o, DrainOne(oks[0])), oks[1..]);
      assert oks == [oks[0]] + oks[1..];
    }
  }
}
