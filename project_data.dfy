/**
 * `fillProjectsData` (src/services/filters/project-data.ts): keeps the notifications whose
 * project has both a cached name and a cached logo, and copies both into the project.
 */
module ProjectDataFilter {
  import opened Base
  import opened NotificationTypes
  import opened EventTypes
  import opened GraphService

  /** The message of the TypeError raised by reading `address` of a null project. */
  const NullProjectError := "Cannot read properties of null (reading 'address')"

  /** A null project on anything but a custom notification makes the callback throw. */
  predicate Throws(n: Notification)
  {
    n.project.Null? && n.eventType != Code(CustomNotification)
  }

  /** The callback's verdict when it does not throw. */
  predicate KeepsProject(names: map<string, string>, logos: map<string, string>, n: Notification)
  {
    match n.project
    case Undefined => false
    case Null => n.eventType == Code(CustomNotification)
    case Address(address, _, _) => LookupLower(names, address).Some? && LookupLower(logos, address).Some?
  }

  /** The kept notification after the callback wrote the name and the logo into its project. */
  function WithProjectData(names: map<string, string>, logos: map<string, string>, n: Notification): Notification
  {
    match n.project
    case Address(address, _, _) =>
      if LookupLower(names, address).Some? && LookupLower(logos, address).Some? then
        n.(project := Address(address, LookupLower(names, address), LookupLower(logos, address)))
      else n
    case _ => n
  }

  function Keeps(names: map<string, string>, logos: map<string, string>): Notification -> bool
  {
    n => KeepsProject(names, logos, n)
  }

  function Fill(names: map<string, string>, logos: map<string, string>): Notification -> Notification
  {
    n => WithProjectData(names, logos, n)
  }

  /**
   * `notifications.filter(...)` with the callback above, element by element: `Err` when the
   * callback throws on some element.
   */
  function FillProjectsData(ns: seq<Notification>, names: map<string, string>, logos: map<string, string>)
    : (r: Result<seq<Notification>>)
    ensures r.Err? <==> exists i :: 0 <= i < |ns| && Throws(ns[i])
    ensures r.Err? ==> r.error == NullProjectError
    ensures r.Ok? ==> |r.value| <= |ns|
    ensures r.Ok? ==> forall j :: 0 <= j < |r.value| ==> !r.value[j].project.Undefined?
    ensures r.Ok? ==> forall j :: 0 <= j < |r.value| && r.value[j].project.Null? ==>
                        r.value[j].eventType == Code(CustomNotification)
    ensures r.Ok? ==> forall j :: 0 <= j < |r.value| && r.value[j].project.Address? ==>
                        var a := r.value[j].project.address;
                        r.value[j].project.name == LookupLower(names, a) && r.value[j].project.name.Some? &&
                        r.value[j].project.logo == LookupLower(logos, a) && r.value[j].project.logo.Some?
  {
    if ns == [] then Ok([])
    else
      var n := ns[0];
      var rest := FillProjectsData(ns[1..], names, logos);
      assert forall i :: 1 <= i < |ns| ==> ns[i] == ns[1..][i - 1];
      match n.project
      case Undefined => rest
      case Null =>
        if n.eventType == Code(CustomNotification) then
          if rest.Err? then rest else Ok([n] + rest.value)
        else Err(NullProjectError)
      case Address(address, _, _) =>
        if rest.Err? then rest
        else
          var name := LookupLower(names, address);
          if name.None? then rest
          else
            var logo := LookupLower(logos, address);
            if logo.None? then rest
            else Ok([n.(project := Address(address, name, logo))] + rest.value)
  }

  /** One step of the filter: the head contributes its filled copy when it is kept. */
  lemma FillStep(ns: seq<Notification>, names: map<string, string>, logos: map<string, string>)
    requires ns != [] && FillProjectsData(ns, names, logos).Ok?
    ensures FillProjectsData(ns[1..], names, logos).Ok?
    ensures FillProjectsData(ns, names, logos).value ==
            (if KeepsProject(names, logos, ns[0]) then [WithProjectData(names, logos, ns[0])] else []) +
            FillProjectsData(ns[1..], names, logos).value
  {
  }

  /**
   * When nothing throws, the result is the kept notifications in input order, each with its
   * project data filled in: nothing is reordered, duplicated or invented.
   */
  lemma {:induction false} FillProjectsDataShape(ns: seq<Notification>, names: map<string, string>,
                                                 logos: map<string, string>)
    requires FillProjectsData(ns, names, logos).Ok?
    ensures FillProjectsData(ns, names, logos).value == MapSeq(Fill(names, logos), Filter(Keeps(names, logos), ns))
    ensures Subseq(FillProjectsData(ns, names, logos).value, MapSeq(Fill(names, logos), ns))
  {
    var p, f := Keeps(names, logos), Fill(names, logos);
    if ns != [] {
      FillStep(ns, names, logos);
      FillProjectsDataShape(ns[1..], names, logos);
      var tail := Filter(p, ns[1..]);
      if p(ns[0]) {
        assert Filter(p, ns) == [ns[0]] + tail;
        MapSeqAppend(f, [ns[0]], tail);
      } else {
        assert Filter(p, ns) == tail;
      }
    }
    MapFilterSubseq(f, p, ns);
  }

  /** An addressed notification survives exactly when both its name and its logo are cached. */
  lemma AddressedKeptIff(ns: seq<Notification>, names: map<string, string>, logos: map<string, string>,
                         n: Notification)
    requires FillProjectsData(ns, names, logos).Ok?
    requires n in ns && n.project.Address?
    ensures WithProjectData(names, logos, n) in FillProjectsData(ns, names, logos).value <==>
            LookupLower(names, n.project.address).Some? && LookupLower(logos, n.project.address).Some?
  {
    FillProjectsDataShape(ns, names, logos);
    var kept := Filter(Keeps(names, logos), ns);
    var r := FillProjectsData(ns, names, logos).value;
    if KeepsProject(names, logos, n) {
      var j :| 0 <= j < |kept| && kept[j] == n;
      assert r[j] == WithProjectData(names, logos, n);
    }
    if WithProjectData(names, logos, n) in r {
      var j :| 0 <= j < |r| && r[j] == WithProjectData(names, logos, n);
      assert r[j].project.name.Some? && r[j].project.address == n.project.address;
    }
  }
}
