/** Under which names and addresses a log has a node join, since it last left. */
module Naming {
  import opened Messages
  import opened Topology
  import opened Pruning
  import opened LogReading

  datatype Label = Label(name: string, address: string)

  /** `first` is what the node joined under and `latest` what its latest JOIN says. `told` is the last one that
      differed from the first, or the first if none did: only such a JOIN is reported to the routing table. */
  datatype Names = Names(first: Label, told: Label, latest: Label)

  /** The one that counts for routing, by what a repeated JOIN stores. */
  function Counts(rule: JoinRule, names: Names): Label {
    if rule == TakeLatest then names.latest else names.told
  }

  function Hear(names: Option<Names>, m: Msg, id: nat): Option<Names> {
    if LeavesAs(m, id) then None
    else if IsJoin(m) && m.body.id == id then
      var said := Label(m.body.name, m.body.address);
      match names
      case None => Some(Names(said, said, said))
      case Some(n) => Some(Names(n.first, if said != n.first then said else n.told, said))
    else names
  }

  function NamesIn(log: seq<Msg>, id: nat, names: Option<Names>): Option<Names> {
    if log == [] then names else NamesIn(log[1..], id, Hear(names, log[0], id))
  }

  /** The node was renamed, and its latest JOIN repeats the first. */
  predicate Reverted(log: seq<Msg>, id: nat) {
    var names := NamesIn(log, id, None);
    names.Some? && names.value.told != names.value.first && names.value.latest == names.value.first
  }

  /** It even had another address in between. */
  predicate Misled(log: seq<Msg>, id: nat) {
    var names := NamesIn(log, id, None);
    names.Some? && names.value.told.address != names.value.first.address && names.value.latest == names.value.first
  }

  lemma {:induction false} FirstOrTold(log: seq<Msg>, id: nat, names: Option<Names>)
    requires names.Some? ==> names.value.latest == names.value.told || names.value.latest == names.value.first
    ensures var n := NamesIn(log, id, names);
            n.Some? ==> n.value.latest == n.value.told || n.value.latest == n.value.first
  {
    if log != [] {
      FirstOrTold(log[1..], id, Hear(names, log[0], id));
    }
  }

  /** Compaction strikes out nothing about the name of a node that has not left, by either rule. */
  lemma {:induction false} KeepNames(rule: PruneRule, left: set<nat>, log: seq<Msg>, id: nat, names: Option<Names>)
    requires id !in left
    ensures NamesIn(Keep(rule, left, log), id, names) == NamesIn(log, id, names)
  {
    if log != [] {
      var m, rest := log[0], Keep(rule, left, log[1..]);
      KeepNames(rule, left, log[1..], id, Hear(names, m, id));
      if Kept(rule, left, m) {
        assert Keep(rule, left, log) == [m] + rest && ([m] + rest)[1..] == rest;
      } else {
        assert Keep(rule, left, log) == [] + rest == rest;
      }
    }
  }
}
