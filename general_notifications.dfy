/**
 * The process-wide notification cache (src/services/general-notifications.ts): a newest-first
 * list filled from the event log, queried by half-open time windows, extended by syncs.
 */
module GeneralFeed {
  import opened Base
  import opened NotificationTypes
  import opened GraphService

  /** `Date.UTC(2024, 1, 1) / 1000`: month index 1 is February, so this is 1 February 2024. */
  const DateLimit: int := 1706745600

  predicate InWindow(from: int, to: int, n: Notification)
  {
    from < n.timestamp <= to
  }

  function Within(from: int, to: int): Notification -> bool
  {
    n => InWindow(from, to, n)
  }

  /** `getNotifications(from, to)` over a list. */
  function Window(ns: seq<Notification>, from: int, to: int): seq<Notification>
  {
    if from >= to then [] else Filter(Within(from, to), ns)
  }

  /**
   * An empty or inverted window is empty; otherwise the window holds exactly the entries with
   * `from < timestamp <= to`, in list order.
   */
  lemma WindowContents(ns: seq<Notification>, from: int, to: int)
    ensures from >= to ==> Window(ns, from, to) == []
    ensures Subseq(Window(ns, from, to), ns)
    ensures forall i :: 0 <= i < |Window(ns, from, to)| ==> from < Window(ns, from, to)[i].timestamp <= to
    ensures forall i :: 0 <= i < |ns| && from < ns[i].timestamp <= to ==> ns[i] in Window(ns, from, to)
  {
  }

  /** Widening the window's upper end only adds entries: the narrower answer is a subsequence. */
  lemma WindowMonotone(ns: seq<Notification>, from: int, to1: int, to2: int)
    requires to1 <= to2
    ensures Subseq(Window(ns, from, to1), Window(ns, from, to2))
  {
    if from < to1 {
      FilterWeaker(Within(from, to1), Within(from, to2), ns);
    }
  }

  /** The window of a prepended batch is the batch's window in front of the old window. */
  lemma WindowPrepend(batch: seq<Notification>, ns: seq<Notification>, from: int, to: int)
    ensures Window(batch + ns, from, to) == Window(batch, from, to) + Window(ns, from, to)
  {
    if from < to {
      FilterAppend(Within(from, to), batch, ns);
    }
  }

  /** `raw.map(n => n.projectNest)` */
  function Nests(raw: seq<RawNotification>): (r: seq<string>)
    ensures |r| == |raw|
    ensures forall i :: 0 <= i < |raw| ==> r[i] == raw[i].projectNest
  {
    seq(|raw|, i requires 0 <= i < |raw| => raw[i].projectNest)
  }

  /** `Array.from(new Set(xs))`: the distinct values in order of first occurrence. */
  function Distinct(xs: seq<string>): (r: seq<string>)
    ensures forall x :: x in r <==> x in xs
    ensures forall i, j :: 0 <= i < j < |r| ==> r[i] != r[j]
    ensures |r| <= |xs|
    ensures xs != [] ==> r != [] && r[0] == xs[0]
  {
    if xs == [] then []
    else
      var init := Distinct(xs[..|xs| - 1]);
      var last := xs[|xs| - 1];
      assert xs == xs[..|xs| - 1] + [last];
      if last in init then init else init + [last]
  }

  /** `x` occurs in `xs` before index `k`. */
  predicate OccursBefore(xs: seq<string>, x: string, k: int)
  {
    exists m :: 0 <= m < k && m < |xs| && xs[m] == x
  }

  /**
   * `Distinct` keeps first-occurrence order: whatever precedes `r[j]` in the result already
   * occurs in `xs` before any occurrence of `r[j]`.
   */
  lemma {:induction false} DistinctFirstOccurrence(xs: seq<string>)
    ensures forall i, j, k :: 0 <= i < j < |Distinct(xs)| && 0 <= k < |xs| && xs[k] == Distinct(xs)[j] ==>
      OccursBefore(xs, Distinct(xs)[i], k)
  {
    if xs != [] {
      var pre := xs[..|xs| - 1];
      var last := xs[|xs| - 1];
      var init := Distinct(pre);
      var r := Distinct(xs);
      DistinctFirstOccurrence(pre);
      assert xs == pre + [last];
      forall i, j, k | 0 <= i < j < |r| && 0 <= k < |xs| && xs[k] == r[j]
        ensures OccursBefore(xs, r[i], k)
      {
        if k < |xs| - 1 {
          if j < |init| {
            assert pre[k] == init[j];
            assert OccursBefore(pre, init[i], k);
          } else {
            assert false;
          }
        } else if j < |init| {
          assert r[j] == init[j] && init[j] == last;
          assert last in init && r == init;
          var k' :| 0 <= k' < |pre| && pre[k'] == last;
          assert OccursBefore(pre, init[i], k');
        } else {
          assert r[i] == init[i] && init[i] in pre;
          var m :| 0 <= m < |pre| && pre[m] == init[i];
          assert xs[m] == r[i];
        }
      }
    }
  }

  /** The projects `filterRawNotifications` asks names and logos for. */
  function UniqueProjects(raw: seq<RawNotification>): seq<string>
  {
    Distinct(Nests(raw))
  }

  /**
   * `filterRawNotifications`: a failing project request or a failing conversion is swallowed
   * and yields an empty batch.
   */
  function RawFiltered(raw: seq<RawNotification>, projectsQuery: seq<string> -> Option<seq<ProjectData>>,
                       fromRaw: seq<RawNotification> -> Option<seq<Notification>>): (r: seq<Notification>)
    ensures ProjectsResponse(UniqueProjects(raw), projectsQuery).None? ==> r == []
    ensures fromRaw(raw).None? ==> r == []
    ensures r != [] ==> fromRaw(raw) == Some(r)
    ensures ProjectsResponse(UniqueProjects(raw), projectsQuery).Some? && fromRaw(raw).Some? ==>
      r == fromRaw(raw).value
  {
    if ProjectsResponse(UniqueProjects(raw), projectsQuery).None? then []
    else match fromRaw(raw)
      case None => []
      case Some(ns) => ns
  }

  /** Whether the general feed's sync from mark `lastSync` reports new entries. */
  function GeneralSynced(lastSync: int, now: int, eventLog: (int, int) -> Option<seq<RawNotification>>,
                         projectsQuery: seq<string> -> Option<seq<ProjectData>>,
                         fromRaw: seq<RawNotification> -> Option<seq<Notification>>): bool
  {
    var raw := FetchRawNotifications(lastSync, now, eventLog);
    raw != [] && RawFiltered(raw, projectsQuery, fromRaw) != []
  }

  class GeneralNotifications {
    /** Newest first. */
    var notificationsCache: seq<Notification>
    var lastSyncTimestamp: int
    const memo: MemCache

    /**
     * What `syncNotifications` leaves behind: the raw batch since the mark is fetched and the
     * names and logos of its projects cached (nothing is cached for an empty raw batch); when
     * the filtered batch is non-empty it goes in front of the cache and the mark moves to its
     * newest timestamp, otherwise the cache and the mark stay.
     */
    twostate predicate SyncedFeed(now: int, eventLog: (int, int) -> Option<seq<RawNotification>>,
                                  projectsQuery: seq<string> -> Option<seq<ProjectData>>,
                                  fromRaw: seq<RawNotification> -> Option<seq<Notification>>)
      reads this, memo
    {
      var raw := FetchRawNotifications(old(lastSyncTimestamp), now, eventLog);
      var batch := RawFiltered(raw, projectsQuery, fromRaw);
      && (GeneralSynced(old(lastSyncTimestamp), now, eventLog, projectsQuery, fromRaw) ==>
            notificationsCache == batch + old(notificationsCache) && lastSyncTimestamp == batch[0].timestamp)
      && (!GeneralSynced(old(lastSyncTimestamp), now, eventLog, projectsQuery, fromRaw) ==>
            notificationsCache == old(notificationsCache) && lastSyncTimestamp == old(lastSyncTimestamp))
      && (raw == [] ==> memo.projectName == old(memo.projectName) && memo.projectLogo == old(memo.projectLogo))
      && (raw != [] ==>
            memo.projectName == StoredNames(old(memo.projectName), UniqueProjects(raw), projectsQuery) &&
            memo.projectLogo == StoredLogos(old(memo.projectLogo), UniqueProjects(raw), projectsQuery))
    }

    /** `createInstance` followed by `init`: loads `(DateLimit, now]`, and the high-water mark is `now` even when nothing came. */
    constructor Create(memo: MemCache, now: int, eventLog: (int, int) -> Option<seq<RawNotification>>,
                       projectsQuery: seq<string> -> Option<seq<ProjectData>>,
                       fromRaw: seq<RawNotification> -> Option<seq<Notification>>)
      modifies memo
      ensures this.memo == memo
      ensures var raw := FetchRawNotifications(DateLimit, now, eventLog);
        && notificationsCache == RawFiltered(raw, projectsQuery, fromRaw)
        && memo.projectName == StoredNames(old(memo.projectName), UniqueProjects(raw), projectsQuery)
        && memo.projectLogo == StoredLogos(old(memo.projectLogo), UniqueProjects(raw), projectsQuery)
      ensures lastSyncTimestamp == now
      ensures memo.accountInvolved == old(memo.accountInvolved)
      ensures memo.accountFirstStakeTimestamp == old(memo.accountFirstStakeTimestamp)
    {
      this.memo := memo;
      notificationsCache := [];
      lastSyncTimestamp := 0;
      new;
      var raw := FetchRawNotifications(DateLimit, now, eventLog);
      notificationsCache := FilterRawNotifications(raw, projectsQuery, fromRaw);
      lastSyncTimestamp := now;
    }

    /** `filterRawNotifications`: caches the batch's project data, then converts the batch. */
    method FilterRawNotifications(raw: seq<RawNotification>, projectsQuery: seq<string> -> Option<seq<ProjectData>>,
                                  fromRaw: seq<RawNotification> -> Option<seq<Notification>>)
      returns (r: seq<Notification>)
      modifies memo
      ensures r == RawFiltered(raw, projectsQuery, fromRaw)
      ensures memo.projectName == StoredNames(old(memo.projectName), UniqueProjects(raw), projectsQuery)
      ensures memo.projectLogo == StoredLogos(old(memo.projectLogo), UniqueProjects(raw), projectsQuery)
      ensures memo.accountInvolved == old(memo.accountInvolved)
      ensures memo.accountFirstStakeTimestamp == old(memo.accountFirstStakeTimestamp)
    {
      var projects := Distinct(Nests(raw));
      var ok := memo.FetchProjectData(projects, projectsQuery);
      if !ok {
        return [];
      }
      var converted := fromRaw(raw);
      if converted.None? {
        return [];
      }
      r := converted.value;
    }

    function GetNotifications(from: int, to: int): (r: seq<Notification>)
      reads this
      ensures r == Window(notificationsCache, from, to)
    {
      Window(notificationsCache, from, to)
    }

    /** `getNotificationsSince(since)`, with the clock reading as a parameter. */
    function GetNotificationsSince(since: int, now: int): (r: seq<Notification>)
      reads this
      ensures r == GetNotifications(since, now)
    {
      GetNotifications(since, now)
    }

    function GetNotificationsTo(to: int): (r: seq<Notification>)
      reads this
      ensures r == GetNotifications(DateLimit, to)
    {
      GetNotifications(DateLimit, to)
    }

    function GetAllNotifications(): (r: seq<Notification>)
      reads this
      ensures r == notificationsCache
    {
      notificationsCache
    }

    /**
     * `syncNotifications`: fetches `(lastSyncTimestamp, now]`; an empty raw or converted batch
     * reports false and changes neither the list nor the mark; otherwise the batch goes in
     * front of the untouched old list and the mark moves to the batch's newest timestamp.
     */
    method SyncNotifications(now: int, eventLog: (int, int) -> Option<seq<RawNotification>>,
                             projectsQuery: seq<string> -> Option<seq<ProjectData>>,
                             fromRaw: seq<RawNotification> -> Option<seq<Notification>>)
      returns (added: bool)
      modifies this, memo
      ensures added == GeneralSynced(old(lastSyncTimestamp), now, eventLog, projectsQuery, fromRaw)
      ensures SyncedFeed(now, eventLog, projectsQuery, fromRaw)
      ensures added ==> notificationsCache[|notificationsCache| - |old(notificationsCache)|..] == old(notificationsCache)
      ensures added ==> lastSyncTimestamp == notificationsCache[0].timestamp
      ensures memo.accountInvolved == old(memo.accountInvolved)
      ensures memo.accountFirstStakeTimestamp == old(memo.accountFirstStakeTimestamp)
    {
      var raw := FetchRawNotifications(lastSyncTimestamp, now, eventLog);
      if |raw| == 0 {
        return false;
      }
      var filtered := FilterRawNotifications(raw, projectsQuery, fromRaw);
      if |filtered| == 0 {
        return false;
      }
      notificationsCache := filtered + notificationsCache;
      lastSyncTimestamp := filtered[0].timestamp;
      return true;
    }
  }
}
