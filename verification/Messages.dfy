/** The messages of `protos/index.proto` and the vocabulary of logs ordered by sequence number. */
module Messages {
  type Fd = int

  // Proto3 enumerations are open: any other number, UNSET included, is carried along unchanged.
  datatype NodeOp = Join | Leave | OtherNodeOp(code: int)
  datatype TopicOp = Announce | Retract | Subscribe | Unsubscribe | OtherTopicOp(code: int)

  datatype Body =
    | NoBody
    | NodeChange(id: nat, op: NodeOp, name: string, address: string)
    | TopicChange(topic: string, mime: string, nodeId: nat, verb: TopicOp, socket: string)

  datatype Msg = Msg(serial: nat, uid: nat, body: Body)

  predicate IsLeave(m: Msg) {
    m.body.NodeChange? && m.body.op == Leave
  }

  predicate IsJoin(m: Msg) {
    m.body.NodeChange? && m.body.op == Join
  }

  /** The node a message speaks about, 0 when it names none. */
  function Subject(m: Msg): nat {
    match m.body
    case NoBody => 0
    case NodeChange(id, _, _, _) => id
    case TopicChange(_, _, id, _, _) => id
  }

  predicate About(m: Msg, id: nat) {
    m.body != NoBody && Subject(m) == id
  }

  /** A LEAVE the hub mints itself: no uid, no name, no address. */
  function LeaveOf(serial: nat, id: nat): Msg {
    Msg(serial, 0, NodeChange(id, Leave, "", ""))
  }

  ghost predicate Sorted(log: seq<Msg>) {
    forall i, j :: 0 <= i < j < |log| ==> log[i].serial < log[j].serial
  }

  ghost predicate WeaklySorted(log: seq<Msg>) {
    forall i, j :: 0 <= i < j < |log| ==> log[i].serial <= log[j].serial
  }

  function LastSeq(log: seq<Msg>): nat {
    if log == [] then 0 else log[|log| - 1].serial
  }

  /** Every entry is older than `serial`: the case in which a lower-bound search runs off the end. */
  predicate AllBelow(log: seq<Msg>, serial: nat) {
    forall m :: m in log ==> m.serial < serial
  }

  lemma SortedConcat(a: seq<Msg>, b: seq<Msg>)
    requires Sorted(a) && Sorted(b)
    requires forall m :: m in b ==> LastSeq(a) < m.serial
    ensures Sorted(a + b)
  {
    forall i, j | 0 <= i < j < |a + b|
      ensures (a + b)[i].serial < (a + b)[j].serial
    {
      if i < |a| <= j {
        assert b[j - |a|] in b;
        assert a[i].serial <= LastSeq(a);
      }
    }
  }

  lemma Reassociate<T>(a: seq<T>, b: seq<T>, c: seq<T>)
    ensures (a + b) + c == a + (b + c)
  {
  }

  /** `a` is what is left of `b` after striking out entries: order and multiplicity are kept. */
  ghost predicate IsSubsequence<T>(a: seq<T>, b: seq<T>)
    decreases b
  {
    if a == [] then true
    else if b == [] then false
    else if a[0] == b[0] then IsSubsequence(a[1..], b[1..])
    else IsSubsequence(a, b[1..])
  }

  /** `order` lists the members of `items`, each once: an iteration order of an unordered container. */
  ghost predicate Enumerates<T(!new)>(order: seq<T>, items: set<T>) {
    && (forall x :: x in items <==> x in order)
    && forall i, j :: 0 <= i < j < |order| ==> order[i] != order[j]
  }

  /** The next element an unordered container happens to yield. */
  method Pick<T>(s: set<T>) returns (x: T)
    requires s != {}
    ensures x in s
  {
    x :| x in s;
  }

  /** std::lower_bound: the first position whose entry is not older than `serial`. */
  method LowerBound(log: seq<Msg>, serial: nat) returns (at: nat)
    requires WeaklySorted(log)
    ensures at <= |log|
    ensures forall i :: 0 <= i < at ==> log[i].serial < serial
    ensures forall i :: at <= i < |log| ==> serial <= log[i].serial
  {
    var lo, hi := 0, |log|;
    while lo < hi
      invariant 0 <= lo <= hi <= |log|
      invariant forall i :: 0 <= i < lo ==> log[i].serial < serial
      invariant forall i :: hi <= i < |log| ==> serial <= log[i].serial
    {
      var mid := (lo + hi) / 2;
      if log[mid].serial < serial {
        lo := mid + 1;
      } else {
        hi := mid;
      }
    }
    at := lo;
  }
}
