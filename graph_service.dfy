/**
 * The memo cache of src/services/graph-service.ts and the loops that fill it. The GraphQL
 * requests are parameters: a query is a function from its variables to the response, and
 * `None` stands for a request that threw.
 */
module GraphService {
  import opened Base
  import opened NotificationTypes

  /** One entry of the projects-data response. */
  datatype ProjectData = ProjectData(id: string, name: string, logo: string)

  // ---------------------------------------------------------------------------
  // Map.set applied entry by entry

  /** `m` after `m.set(k, v)` for every entry in order: a later entry for the same key wins. */
  function Put<V>(m: map<string, V>, es: seq<(string, V)>): map<string, V>
    decreases |es|
  {
    if es == [] then m else Put(m, es[..|es| - 1])[es[|es| - 1].0 := es[|es| - 1].1]
  }

  /** The keys after the updates are the old keys plus the keys written. */
  lemma {:induction false} PutKeys<V>(m: map<string, V>, es: seq<(string, V)>, k: string)
    ensures k in Put(m, es) <==> k in m || exists i :: 0 <= i < |es| && es[i].0 == k
    decreases |es|
  {
    if es != [] {
      var init := es[..|es| - 1];
      PutKeys(m, init, k);
      if exists i :: 0 <= i < |init| && init[i].0 == k {
        var i :| 0 <= i < |init| && init[i].0 == k;
        assert es[i].0 == k;
      }
    }
  }

  /** A key no entry writes keeps its old value (or stays absent). */
  lemma {:induction false} PutOther<V>(m: map<string, V>, es: seq<(string, V)>, k: string)
    requires forall i :: 0 <= i < |es| ==> es[i].0 != k
    ensures k in Put(m, es) <==> k in m
    ensures k in m ==> Put(m, es)[k] == m[k]
    decreases |es|
  {
    if es != [] {
      PutOther(m, es[..|es| - 1], k);
    }
  }

  /** The value stored under a key is the value of the last entry that writes it. */
  lemma {:induction false} PutLast<V>(m: map<string, V>, es: seq<(string, V)>, i: nat)
    requires i < |es|
    requires forall j :: i < j < |es| ==> es[j].0 != es[i].0
    ensures es[i].0 in Put(m, es) && Put(m, es)[es[i].0] == es[i].1
    decreases |es|
  {
    if i < |es| - 1 {
      PutLast(m, es[..|es| - 1], i);
    }
  }

  /** Writing only `true` never turns a `true` flag off, and every key written reads `true`. */
  lemma {:induction false} PutTrue(m: map<string, bool>, es: seq<(string, bool)>, k: string)
    requires forall i :: 0 <= i < |es| ==> es[i].1
    requires (k in m && m[k]) || exists i :: 0 <= i < |es| && es[i].0 == k
    ensures k in Put(m, es) && Put(m, es)[k]
    decreases |es|
  {
    if es != [] {
      var init := es[..|es| - 1];
      if es[|es| - 1].0 != k {
        if !(k in m && m[k]) {
          var i :| 0 <= i < |es| && es[i].0 == k;
          assert init[i].0 == k;
        }
        PutTrue(m, init, k);
      }
    }
  }

  // ---------------------------------------------------------------------------
  // Lookups: the key is lower-cased first

  /** `map.has(key.toLowerCase()) ? map.get(...) : null` */
  function LookupLower<V>(m: map<string, V>, key: string): (r: Option<V>)
    ensures r.Some? <==> Lower(key) in m
    ensures r.Some? ==> r.value == m[Lower(key)]
  {
    if Lower(key) in m then Some(m[Lower(key)]) else None
  }

  /** Lookups are case-insensitive: every case variant of a key finds the same entry. */
  lemma LookupCaseInsensitive<V>(m: map<string, V>, key: string)
    ensures LookupLower(m, Lower(key)) == LookupLower(m, key)
  {
    LowerIdempotent(key);
  }

  /** The involvement cache key: plain concatenation of project and account. */
  function InvolvementKey(projectNest: string, account: string): (k: string)
    ensures |k| == |projectNest| + |account|
    ensures k[..|projectNest|] == projectNest && k[|projectNest|..] == account
  {
    projectNest + account
  }

  /** `isAccountInvolved`: the cached flag for the lower-cased pair, false when absent. */
  function IsInvolvedIn(involved: map<string, bool>, projectNest: string, account: string): bool
  {
    var k := InvolvementKey(Lower(projectNest), Lower(account));
    if k in involved then involved[k] else false
  }

  function NameEntry(p: ProjectData): (string, string) { (p.id, p.name) }
  function LogoEntry(p: ProjectData): (string, string) { (p.id, p.logo) }

  /** The entries `fetchAccountNests` writes for one (already lower-cased) account. */
  function NestEntries(ids: seq<string>, account: string): (es: seq<(string, bool)>)
    ensures |es| == |ids|
    ensures forall i :: 0 <= i < |ids| ==> es[i] == (InvolvementKey(ids[i], account), true)
  {
    seq(|ids|, i requires 0 <= i < |ids| => (InvolvementKey(ids[i], account), true))
  }

  /** The response `fetchProjectData` acts on: no request is made for an empty list. */
  function ProjectsResponse(projects: seq<string>, query: seq<string> -> Option<seq<ProjectData>>)
    : Option<seq<ProjectData>>
  {
    if projects == [] then Some([]) else query(LowerAll(projects))
  }

  /** The name cache after `fetchProjectData(projects)`. */
  function StoredNames(m: map<string, string>, projects: seq<string>,
                       query: seq<string> -> Option<seq<ProjectData>>): map<string, string>
  {
    match ProjectsResponse(projects, query)
    case None => m
    case Some(ps) => Put(m, MapSeq(NameEntry, ps))
  }

  /** The logo cache after `fetchProjectData(projects)`. */
  function StoredLogos(m: map<string, string>, projects: seq<string>,
                       query: seq<string> -> Option<seq<ProjectData>>): map<string, string>
  {
    match ProjectsResponse(projects, query)
    case None => m
    case Some(ps) => Put(m, MapSeq(LogoEntry, ps))
  }

  /** The involvement cache after `fetchAccountNests(account)`; a null `data.account` changes nothing. */
  function StoredNests(m: map<string, bool>, account: string, query: string -> Option<seq<string>>)
    : map<string, bool>
  {
    match query(Lower(account))
    case None => m
    case Some(ids) => Put(m, NestEntries(ids, Lower(account)))
  }

  /** `fetchProjectData([])` makes no request and leaves both caches as they were. */
  lemma FetchNoProjects(m: map<string, string>, query: seq<string> -> Option<seq<ProjectData>>)
    ensures StoredNames(m, [], query) == m && StoredLogos(m, [], query) == m
  {
  }

  /** After `fetchProjectData`, each returned project's name is cached (the last entry for an id wins). */
  lemma FetchedProjectNamed(m: map<string, string>, projects: seq<string>,
                            query: seq<string> -> Option<seq<ProjectData>>, i: nat)
    requires projects != [] && query(LowerAll(projects)).Some?
    requires var ps := query(LowerAll(projects)).value;
      i < |ps| && forall j :: i < j < |ps| ==> ps[j].id != ps[i].id
    ensures var p := query(LowerAll(projects)).value[i];
      p.id in StoredNames(m, projects, query) && StoredNames(m, projects, query)[p.id] == p.name
  {
    var ps := query(LowerAll(projects)).value;
    PutLast(m, MapSeq(NameEntry, ps), i);
  }

  /** Keys no returned project names keep their cached name. */
  lemma FetchKeepsOtherNames(m: map<string, string>, projects: seq<string>,
                             query: seq<string> -> Option<seq<ProjectData>>, k: string)
    requires ProjectsResponse(projects, query).Some?
    requires forall p :: p in ProjectsResponse(projects, query).value ==> p.id != k
    ensures k in StoredNames(m, projects, query) <==> k in m
    ensures k in m ==> StoredNames(m, projects, query)[k] == m[k]
  {
    var ps := ProjectsResponse(projects, query).value;
    var es := MapSeq(NameEntry, ps);
    forall i | 0 <= i < |es| ensures es[i].0 != k {
      assert ps[i] in ps;
    }
    PutOther(m, es, k);
  }

  /** Involvement is monotone: `fetchAccountNests` never turns a cached `true` into `false`. */
  lemma InvolvementMonotone(m: map<string, bool>, account: string,
                            query: string -> Option<seq<string>>, projectNest: string, other: string)
    requires IsInvolvedIn(m, projectNest, other)
    ensures IsInvolvedIn(StoredNests(m, account, query), projectNest, other)
  {
    var k := InvolvementKey(Lower(projectNest), Lower(other));
    match query(Lower(account))
    case None =>
    case Some(ids) => PutTrue(m, NestEntries(ids, Lower(account)), k);
  }

  /**
   * A lower-case project id returned for the account makes the pair involved, whatever the
   * case of the account. The stored key keeps the id as returned while lookups lower-case
   * it, so the premise on the id is needed.
   */
  lemma FetchedNestInvolved(m: map<string, bool>, account: string,
                            query: string -> Option<seq<string>>, i: nat)
    requires query(Lower(account)).Some? && i < |query(Lower(account)).value|
    requires var id := query(Lower(account)).value[i]; Lower(id) == id
    ensures IsInvolvedIn(StoredNests(m, account, query), query(Lower(account)).value[i], account)
  {
    var ids := query(Lower(account)).value;
    var es := NestEntries(ids, Lower(account));
    LowerIdempotent(account);
    assert es[i].0 == InvolvementKey(Lower(ids[i]), Lower(Lower(account)));
    PutTrue(m, es, es[i].0);
  }

  /** `fetchRawNotifications`: a failing request yields an empty batch instead of an error. */
  function FetchRawNotifications(from: int, to: int, eventLog: (int, int) -> Option<seq<RawNotification>>)
    : (r: seq<RawNotification>)
    ensures eventLog(from, to).None? ==> r == []
    ensures eventLog(from, to).Some? ==> r == eventLog(from, to).value
  {
    match eventLog(from, to)
    case None => []
    case Some(batch) => batch
  }

  /** The process-wide `memCache`, shared by reference by every component. */
  class MemCache {
    var projectName: map<string, string>
    var projectLogo: map<string, string>
    /** Keyed by project id + account. */
    var accountInvolved: map<string, bool>
    var accountFirstStakeTimestamp: map<string, int>

    constructor ()
      ensures projectName == map[] && projectLogo == map[]
      ensures accountInvolved == map[] && accountFirstStakeTimestamp == map[]
    {
      projectName, projectLogo := map[], map[];
      accountInvolved, accountFirstStakeTimestamp := map[], map[];
    }

    function ProjectName(projectNest: string): (r: Option<string>)
      reads this
      ensures r.Some? <==> Lower(projectNest) in projectName
      ensures r.Some? ==> r.value == projectName[Lower(projectNest)]
    {
      LookupLower(projectName, projectNest)
    }

    function ProjectLogo(projectNest: string): (r: Option<string>)
      reads this
      ensures r.Some? <==> Lower(projectNest) in projectLogo
      ensures r.Some? ==> r.value == projectLogo[Lower(projectNest)]
    {
      LookupLower(projectLogo, projectNest)
    }

    function IsAccountInvolved(projectNest: string, account: string): (r: bool)
      reads this
      ensures r == (Lower(projectNest) + Lower(account) in accountInvolved
                    && accountInvolved[Lower(projectNest) + Lower(account)])
    {
      IsInvolvedIn(accountInvolved, projectNest, account)
    }

    function AccountFirstStakeTimestamp(account: string): (r: Option<int>)
      reads this
      ensures r.Some? <==> Lower(account) in accountFirstStakeTimestamp
      ensures r.Some? ==> r.value == accountFirstStakeTimestamp[Lower(account)]
    {
      LookupLower(accountFirstStakeTimestamp, account)
    }

    /** `fetchProjectData`: returns false when the request threw (the caller sees the error). */
    method FetchProjectData(projects: seq<string>, query: seq<string> -> Option<seq<ProjectData>>)
      returns (ok: bool)
      modifies this
      ensures ok == ProjectsResponse(projects, query).Some?
      ensures projectName == StoredNames(old(projectName), projects, query)
      ensures projectLogo == StoredLogos(old(projectLogo), projects, query)
      ensures accountInvolved == old(accountInvolved)
      ensures accountFirstStakeTimestamp == old(accountFirstStakeTimestamp)
    {
      if |projects| == 0 {
        return true;
      }
      var response := query(LowerAll(projects));
      if response.None? {
        return false;
      }
      var ps := response.value;
      ghost var names, logos := MapSeq(NameEntry, ps), MapSeq(LogoEntry, ps);
      for i := 0 to |ps|
        invariant projectName == Put(old(projectName), names[..i])
        invariant projectLogo == Put(old(projectLogo), logos[..i])
        invariant accountInvolved == old(accountInvolved)
        invariant accountFirstStakeTimestamp == old(accountFirstStakeTimestamp)
      {
        assert names[..i + 1][..i] == names[..i] && logos[..i + 1][..i] == logos[..i];
        projectName := projectName[ps[i].id := ps[i].name];
        projectLogo := projectLogo[ps[i].id := ps[i].logo];
      }
      assert names[..|ps|] == names && logos[..|ps|] == logos;
      return true;
    }

    /** `fetchAccountNests`: flags every returned project as involved for the lower-cased account. */
    method FetchAccountNests(account: string, query: string -> Option<seq<string>>)
      modifies this
      ensures accountInvolved == StoredNests(old(accountInvolved), account, query)
      ensures projectName == old(projectName) && projectLogo == old(projectLogo)
      ensures accountFirstStakeTimestamp == old(accountFirstStakeTimestamp)
    {
      var acc := Lower(account);
      var response := query(acc);
      if response.None? {
        return;
      }
      var ids := response.value;
      ghost var es := NestEntries(ids, acc);
      for i := 0 to |ids|
        invariant accountInvolved == Put(old(accountInvolved), es[..i])
        invariant projectName == old(projectName) && projectLogo == old(projectLogo)
        invariant accountFirstStakeTimestamp == old(accountFirstStakeTimestamp)
      {
        assert es[..i + 1][..i] == es[..i];
        accountInvolved := accountInvolved[ids[i] + acc := true];
      }
      assert es[..|ids|] == es;
    }

    /**
     * `fetchAccountFirstStakeTimestamp`: with no stake event (a null or empty list) it returns
     * null and caches nothing; otherwise it caches the first event's time and returns it.
     */
    method FetchAccountFirstStakeTimestamp(account: string, query: string -> Option<seq<int>>)
      returns (r: Option<int>)
      modifies this
      ensures var events := query(Lower(account));
        r == if events.None? || events.value == [] then None else Some(events.value[0])
      ensures var events := query(Lower(account));
        accountFirstStakeTimestamp ==
          if events.None? || events.value == [] then old(accountFirstStakeTimestamp)
          else old(accountFirstStakeTimestamp)[Lower(account) := events.value[0]]
      ensures projectName == old(projectName) && projectLogo == old(projectLogo)
      ensures accountInvolved == old(accountInvolved)
    {
      var acc := Lower(account);
      var events := query(acc);
      if events.None? || |events.value| == 0 {
        return None;
      }
      accountFirstStakeTimestamp := accountFirstStakeTimestamp[acc := events.value[0]];
      LowerIdempotent(account);
      r := AccountFirstStakeTimestamp(acc);
    }
  }
}
