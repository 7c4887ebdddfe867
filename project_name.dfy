/**
 * `filterProjectsNames` (src/services/filters/project-name.ts): keeps the notifications whose
 * nest has a cached project name and writes that name into them.
 */
module ProjectNameFilter {
  import opened Base
  import opened NotificationTypes
  import opened GraphService

  predicate HasName(names: map<string, string>, n: Notification)
  {
    LookupLower(names, n.projectNest).Some?
  }

  function WithName(names: map<string, string>, n: Notification): Notification
  {
    n.(projectName := if HasName(names, n) then LookupLower(names, n.projectNest) else n.projectName)
  }

  function Named(names: map<string, string>): Notification -> bool
  {
    n => HasName(names, n)
  }

  function Rename(names: map<string, string>): Notification -> Notification
  {
    n => WithName(names, n)
  }

  /** `notifications.filter(...)`: drops the unnamed, names the rest. */
  function FilterProjectsNames(ns: seq<Notification>, names: map<string, string>): (r: seq<Notification>)
    ensures |r| <= |ns|
    ensures forall j :: 0 <= j < |r| ==>
              r[j].projectName.Some? && r[j].projectName == LookupLower(names, r[j].projectNest)
    ensures (forall i :: 0 <= i < |ns| ==> !HasName(names, ns[i])) ==> r == []
  {
    if ns == [] then []
    else
      var rest := FilterProjectsNames(ns[1..], names);
      assert forall i :: 1 <= i < |ns| ==> ns[i] == ns[1..][i - 1];
      var name := LookupLower(names, ns[0].projectNest);
      if name.None? then rest
      else [ns[0].(projectName := name)] + rest
  }

  /** The result is the named notifications in input order, renamed; nothing else changes in them. */
  lemma {:induction false} FilterProjectsNamesShape(ns: seq<Notification>, names: map<string, string>)
    ensures FilterProjectsNames(ns, names) == MapSeq(Rename(names), Filter(Named(names), ns))
    ensures Subseq(FilterProjectsNames(ns, names), MapSeq(Rename(names), ns))
  {
    if ns != [] {
      FilterProjectsNamesShape(ns[1..], names);
      var p := Named(names);
      if p(ns[0]) {
        assert Filter(p, ns) == [ns[0]] + Filter(p, ns[1..]);
        MapSeqAppend(Rename(names), [ns[0]], Filter(p, ns[1..]));
      } else {
        assert Filter(p, ns) == Filter(p, ns[1..]);
      }
    }
    MapFilterSubseq(Rename(names), Named(names), ns);
  }

  /** A notification survives exactly when its nest has a cached name. */
  lemma NamedKeptIff(ns: seq<Notification>, names: map<string, string>, n: Notification)
    requires n in ns
    ensures WithName(names, n) in FilterProjectsNames(ns, names) <==> HasName(names, n)
  {
    FilterProjectsNamesShape(ns, names);
    var kept := Filter(Named(names), ns);
    var r := FilterProjectsNames(ns, names);
    if HasName(names, n) {
      var j :| 0 <= j < |kept| && kept[j] == n;
      assert r[j] == WithName(names, n);
    }
    if WithName(names, n) in r {
      var j :| 0 <= j < |r| && r[j] == WithName(names, n);
      assert r[j].projectNest == n.projectNest;
    }
  }

  /** Running the filter twice changes nothing more. */
  lemma {:induction false} FilterProjectsNamesIdempotent(ns: seq<Notification>, names: map<string, string>)
    ensures FilterProjectsNames(FilterProjectsNames(ns, names), names) == FilterProjectsNames(ns, names)
  {
    if ns != [] {
      FilterProjectsNamesIdempotent(ns[1..], names);
      var rest := FilterProjectsNames(ns[1..], names);
      if HasName(names, ns[0]) {
        var r := FilterProjectsNames(ns, names);
        assert r[1..] == rest;
      }
    }
  }
}
