/**
 * The push stream of one account (src/services/notification-stream.ts): each sync pulls the
 * general cache's entries since the last sync, filters them for the account, prepends them,
 * caps the list, and marks everything older than `markAsReadLimit` seconds as read. The
 * hook that receives lists is modelled by returning the list it would receive.
 */
module NotificationStreams {
  import opened Base
  import opened NotificationTypes
  import opened GraphService
  import opened ReadState
  import opened AccountFilter
  import opened GeneralFeed

  /** `NotificationStreamOptions`: an absent option takes its default. */
  datatype StreamOptions = StreamOptions(
    limitForAccountNotifications: Option<int>,
    markAsReadLimit: Option<int>,
    syncInterval: Option<int>,
    pageSize: Option<int>)

  const DefaultLimitForAccountNotifications: int := 500
  /** Ten days, in seconds. */
  const DefaultMarkAsReadLimit: int := 10 * 24 * 3600
  const DefaultSyncInterval: int := 60
  const DefaultPageSize: int := 4

  function OrDefault(o: Option<int>, d: int): (r: int)
    ensures o.None? ==> r == d
    ensures o.Some? ==> r == o.value
  {
    if o.Some? then o.value else d
  }

  /** The lower bound of a sync: a truthy first-stake time replaces a mark that is still 0. */
  function StartMark(lastSync: int, firstStake: Option<int>): (from: int)
    ensures lastSync != 0 ==> from == lastSync
    ensures lastSync == 0 && firstStake.Some? && firstStake.value != 0 ==> from == firstStake.value
    ensures from == 0 <==> lastSync == 0 && (firstStake.None? || firstStake.value == 0)
  {
    if lastSync == 0 && firstStake.Some? && firstStake.value != 0 then firstStake.value else lastSync
  }

  /** The list after `markNotificationsAsReadTo(t)`. */
  function ReadTo(ns: seq<Notification>, t: int): (r: seq<Notification>)
    ensures |r| == |ns|
  {
    MarkedRead(ns, TimestampsTo(ns, t))
  }

  /** Marking up to `t` leaves no entry at or before `t` unread and keeps every later entry's flag. */
  lemma ReadToClears(ns: seq<Notification>, t: int)
    ensures forall i :: 0 <= i < |ns| ==> (ReadTo(ns, t)[i].isUnread <==> ns[i].isUnread && ns[i].timestamp > t)
    ensures forall i :: 0 <= i < |ns| ==> ReadTo(ns, t)[i].(isUnread := ns[i].isUnread) == ns[i]
  {
    forall i | 0 <= i < |ns|
      ensures ReadTo(ns, t)[i].isUnread <==> ns[i].isUnread && ns[i].timestamp > t
    {
      MarkedReadTo(ns, t, i);
    }
  }

  /**
   * The cap: `(batch ++ old).slice(0, limit)` is never longer than a non-negative `limit`, is a
   * prefix of `batch ++ old`, and whatever survives of the old list keeps its order at the back.
   */
  lemma CappedPrepend(batch: seq<Notification>, old_: seq<Notification>, limit: int)
    ensures 0 <= limit ==> |Slice(batch + old_, limit)| <= limit
    ensures Subseq(Slice(batch + old_, limit), batch + old_)
    ensures var r := Slice(batch + old_, limit);
      |r| > |batch| ==> r == batch + old_[..|r| - |batch|]
  {
    var all := batch + old_;
    SubseqRefl(all);
    SubseqPrefix(all, |Slice(all, limit)|, all);
    SlicePrefixOfPrepend(batch, old_, limit);
  }

  /**
   * The list a sync leaves: never longer than a non-negative limit, nothing at or before the
   * read horizon unread, and every entry is an entry of the batch or of the old list.
   */
  lemma SyncedList(batch: seq<Notification>, old_: seq<Notification>, limit: int, horizon: int)
    ensures var r := ReadTo(Slice(batch + old_, limit), horizon);
      && (0 <= limit ==> |r| <= limit)
      && (forall i :: 0 <= i < |r| && r[i].timestamp <= horizon ==> !r[i].isUnread)
      && (forall i :: 0 <= i < |r| ==> r[i].(isUnread := (batch + old_)[i].isUnread) == (batch + old_)[i])
  {
    var kept := Slice(batch + old_, limit);
    ReadToClears(kept, horizon);
  }

  /** The newest timestamp a sync at `now` marks as read: anything `limit` seconds old or older. */
  function ReadHorizon(now: int, limit: int): int
  {
    now - limit
  }

  /**
   * `loadSize + n`, where `None` stands for `undefined` or `NaN`: adding an undefined page size
   * gives `NaN`, and `NaN` absorbs everything added to it.
   */
  function AddLoad(load: Option<int>, n: Option<int>): Option<int>
  {
    if load.Some? && n.Some? then Some(load.value + n.value) else None
  }

  /** `notifications.slice(0, loadSize)`: a `NaN` end counts as 0, so nothing is shown. */
  function Shown(ns: seq<Notification>, load: Option<int>): seq<Notification>
  {
    if load.Some? then Slice(ns, load.value) else []
  }

  class NotificationStream {
    const general: GeneralNotifications
    const store: ReadStore
    /** Newest first, at most `limitForAccountNotifications` long after a sync. */
    var notifications: seq<Notification>
    var firstStakeTimestamp: Option<int>
    var account: string
    /** `None` while no truthy page size was ever given (the field is then `undefined`). */
    var pageSize: Option<int>
    /**
     * How many entries the hook is shown: pages loaded plus entries synced since; `None` is
     * `NaN`, what loading a page of undefined size makes of it.
     */
    var loadSize: Option<int>
    var lastSyncTimestamp: int
    /** The interval timer, when one is running. */
    var syncIntervalId: Option<int>
    var limitForAccountNotifications: int
    var markAsReadLimit: int
    var syncInterval: int

    /** The account, its first stake, the options and the timer are as they were. */
    twostate predicate SettingsKept()
      reads this
    {
      && account == old(account) && firstStakeTimestamp == old(firstStakeTimestamp)
      && pageSize == old(pageSize) && syncIntervalId == old(syncIntervalId)
      && limitForAccountNotifications == old(limitForAccountNotifications)
      && markAsReadLimit == old(markAsReadLimit) && syncInterval == old(syncInterval)
    }

    /**
     * What `syncNotifications` leaves behind, given the batch it returns. With no mark and no
     * truthy first stake nothing changes. Otherwise the account's nests are fetched, the batch
     * is the account filter's result on the cache window after the mark, the list is the batch
     * prepended and cut to the limit with everything at or before the read horizon marked read
     * (and recorded as seen), and the mark moves to `now` exactly when the batch is non-empty.
     */
    twostate predicate SyncedBy(now: int, nestsQuery: string -> Option<seq<string>>, batch: seq<Notification>)
      reads this, general, general.memo, store
    {
      var from := StartMark(old(lastSyncTimestamp), old(firstStakeTimestamp));
      var horizon := ReadHorizon(now, markAsReadLimit);
      var kept := Slice(batch + old(notifications), limitForAccountNotifications);
      if from == 0 then
        && batch == [] && notifications == old(notifications) && lastSyncTimestamp == 0
        && general.memo.accountInvolved == old(general.memo.accountInvolved)
        && store.seen == old(store.seen)
      else
        && general.memo.accountInvolved == StoredNests(old(general.memo.accountInvolved), account, nestsQuery)
        && batch == AccountFiltered(general.memo.accountInvolved, old(store.seen), account,
                                    Window(general.notificationsCache, from, now), limitForAccountNotifications)
        && lastSyncTimestamp == (if batch != [] then now else from)
        && notifications == ReadTo(kept, horizon)
        && store.seen == WithSeen(old(store.seen), account, TimestampsTo(kept, horizon))
    }

    /**
     * `createStream`: applies the options, lower-cases the account and looks up its first
     * stake, runs the first sync, and starts the timer `timerId`.
     */
    constructor Create(general: GeneralNotifications, account: string, options: StreamOptions, now: int,
                       firstStakeQuery: string -> Option<seq<int>>, nestsQuery: string -> Option<seq<string>>,
                       store: ReadStore, timerId: int)
      modifies general.memo, store
      ensures this.general == general && this.store == store
      ensures this.account == Lower(account)
      ensures limitForAccountNotifications == OrDefault(options.limitForAccountNotifications, DefaultLimitForAccountNotifications)
      ensures markAsReadLimit == OrDefault(options.markAsReadLimit, DefaultMarkAsReadLimit)
      ensures syncInterval == OrDefault(options.syncInterval, DefaultSyncInterval)
      ensures var p := OrDefault(options.pageSize, DefaultPageSize);
        pageSize == if p != 0 then Some(p) else None
      ensures var events := firstStakeQuery(Lower(account));
        firstStakeTimestamp == if events.None? || events.value == [] then None else Some(events.value[0])
      ensures var events := firstStakeQuery(Lower(account));
        general.memo.accountFirstStakeTimestamp ==
          if events.None? || events.value == [] then old(general.memo.accountFirstStakeTimestamp)
          else old(general.memo.accountFirstStakeTimestamp)[Lower(account) := events.value[0]]
      ensures StartMark(0, firstStakeTimestamp) == 0 ==>
        && notifications == [] && lastSyncTimestamp == 0
        && general.memo.accountInvolved == old(general.memo.accountInvolved)
        && store.seen == old(store.seen)
      ensures var from := StartMark(0, firstStakeTimestamp);
        var horizon := ReadHorizon(now, markAsReadLimit);
        var batch := AccountFiltered(general.memo.accountInvolved, old(store.seen), this.account,
                                     Window(general.notificationsCache, from, now), limitForAccountNotifications);
        var kept := Slice(batch, limitForAccountNotifications);
        from != 0 ==>
          && general.memo.accountInvolved == StoredNests(old(general.memo.accountInvolved), this.account, nestsQuery)
          && lastSyncTimestamp == (if batch != [] then now else from)
          && notifications == ReadTo(kept, horizon)
          && store.seen == WithSeen(old(store.seen), this.account, TimestampsTo(kept, horizon))
      ensures general.memo.projectName == old(general.memo.projectName)
      ensures general.memo.projectLogo == old(general.memo.projectLogo)
      ensures syncIntervalId == Some(timerId)
      ensures loadSize == Some(0)
    {
      this.general := general;
      this.store := store;
      notifications := [];
      lastSyncTimestamp := 0;
      firstStakeTimestamp := None;
      this.account := "";
      pageSize := None;
      loadSize := Some(0);
      syncIntervalId := None;
      limitForAccountNotifications := 0;
      markAsReadLimit := 0;
      syncInterval := 0;
      new;
      SetOptions(options);
      this.account := Lower(account);
      firstStakeTimestamp := general.memo.FetchAccountFirstStakeTimestamp(this.account, firstStakeQuery);
      LowerIdempotent(account);
      var batch := SyncNotifications(now, nestsQuery);
      assert batch + [] == batch;
      SetupSyncInterval(timerId);
    }

    /**
     * The first half of `syncNotifications` once a mark `from` is known: the candidates in
     * `(from, now]` are filtered for the account, prepended, and the list is cut to the limit.
     */
    method Prepend(from: int, now: int, nestsQuery: string -> Option<seq<string>>)
      returns (batch: seq<Notification>)
      modifies this, general.memo
      ensures general.memo.accountInvolved == StoredNests(old(general.memo.accountInvolved), account, nestsQuery)
      ensures general.memo.projectName == old(general.memo.projectName)
      ensures general.memo.projectLogo == old(general.memo.projectLogo)
      ensures general.memo.accountFirstStakeTimestamp == old(general.memo.accountFirstStakeTimestamp)
      ensures batch == AccountFiltered(general.memo.accountInvolved, store.seen, account,
                                       Window(general.notificationsCache, from, now), limitForAccountNotifications)
      ensures notifications == Slice(batch + old(notifications), limitForAccountNotifications)
      ensures lastSyncTimestamp == old(lastSyncTimestamp) && loadSize == old(loadSize)
      ensures SettingsKept()
    {
      var candidates := general.GetNotificationsSince(from, now);
      general.memo.FetchAccountNests(account, nestsQuery);
      batch := FilterAccountNotifications(account, candidates, limitForAccountNotifications, general.memo, store);
      notifications := Slice(batch + notifications, limitForAccountNotifications);
    }

    /**
     * `syncNotifications`: the sync `SyncedBy` describes; the window shown to the hook, the
     * options and the timer stay as they were.
     */
    method SyncNotifications(now: int, nestsQuery: string -> Option<seq<string>>)
      returns (batch: seq<Notification>)
      modifies this, general.memo, store
      ensures SyncedBy(now, nestsQuery, batch)
      ensures loadSize == old(loadSize) && SettingsKept()
      ensures general.memo.projectName == old(general.memo.projectName)
      ensures general.memo.projectLogo == old(general.memo.projectLogo)
      ensures general.memo.accountFirstStakeTimestamp == old(general.memo.accountFirstStakeTimestamp)
    {
      // The mark is kept in a local until the end: the field gets its final value once.
      var from := lastSyncTimestamp;
      if from == 0 && firstStakeTimestamp.Some? && firstStakeTimestamp.value != 0 {
        from := firstStakeTimestamp.value;
      }
      if from == 0 {
        return [];
      }
      batch := Prepend(from, now, nestsQuery);
      MarkNotificationsAsReadTo(ReadHorizon(now, markAsReadLimit));
      lastSyncTimestamp := if |batch| > 0 then now else from;
    }

    /** `setOptions`: each option or its default, then `reset` with the merged page size. */
    method SetOptions(options: StreamOptions)
      modifies this
      ensures limitForAccountNotifications == OrDefault(options.limitForAccountNotifications, DefaultLimitForAccountNotifications)
      ensures markAsReadLimit == OrDefault(options.markAsReadLimit, DefaultMarkAsReadLimit)
      ensures syncInterval == OrDefault(options.syncInterval, DefaultSyncInterval)
      ensures var p := OrDefault(options.pageSize, DefaultPageSize);
        pageSize == if p != 0 then Some(p) else old(pageSize)
      ensures loadSize == Some(0)
      ensures notifications == old(notifications) && account == old(account)
      ensures lastSyncTimestamp == old(lastSyncTimestamp) && firstStakeTimestamp == old(firstStakeTimestamp)
      ensures syncIntervalId == old(syncIntervalId)
    {
      limitForAccountNotifications := OrDefault(options.limitForAccountNotifications, DefaultLimitForAccountNotifications);
      markAsReadLimit := OrDefault(options.markAsReadLimit, DefaultMarkAsReadLimit);
      syncInterval := OrDefault(options.syncInterval, DefaultSyncInterval);
      Reset(Some(OrDefault(options.pageSize, DefaultPageSize)));
    }

    /**
     * `reset(pageSize)`: a truthy page size replaces the current one (a falsy one leaves it,
     * possibly still undefined); nothing is shown any more.
     */
    method Reset(newPageSize: Option<int>)
      modifies this
      ensures pageSize == if newPageSize.Some? && newPageSize.value != 0 then newPageSize else old(pageSize)
      ensures loadSize == Some(0)
      ensures notifications == old(notifications) && account == old(account)
      ensures lastSyncTimestamp == old(lastSyncTimestamp) && firstStakeTimestamp == old(firstStakeTimestamp)
      ensures syncIntervalId == old(syncIntervalId)
      ensures limitForAccountNotifications == old(limitForAccountNotifications)
      ensures markAsReadLimit == old(markAsReadLimit) && syncInterval == old(syncInterval)
    {
      if newPageSize.Some? && newPageSize.value != 0 {
        pageSize := newPageSize;
      }
      loadSize := Some(0);
    }

    /**
     * `loadMore`: one more page is shown; the hook gets the first `loadSize` entries (all if
     * fewer). With an undefined page size `loadSize` becomes `NaN` and the hook gets nothing.
     */
    method LoadMore() returns (shown: seq<Notification>)
      modifies this
      ensures pageSize.None? || old(loadSize).None? ==> loadSize.None? && shown == []
      ensures pageSize.Some? && old(loadSize).Some? ==>
        && loadSize == Some(old(loadSize).value + pageSize.value)
        && shown == Slice(notifications, loadSize.value)
        && (0 <= loadSize.value ==> |shown| == if loadSize.value < |notifications| then loadSize.value else |notifications|)
      ensures notifications == old(notifications) && lastSyncTimestamp == old(lastSyncTimestamp)
      ensures SettingsKept()
    {
      loadSize := AddLoad(loadSize, pageSize);
      shown := Shown(notifications, loadSize);
    }

    function GetNotificationsLength(): (n: nat)
      reads this
      ensures n == |notifications|
    {
      |notifications|
    }

    function UnreadNotificationsNumber(): (n: nat)
      reads this
      ensures n <= |notifications|
      ensures n == 0 <==> forall i :: 0 <= i < |notifications| ==> !notifications[i].isUnread
    {
      CountZero(IsUnread, notifications);
      UnreadCount(notifications)
    }

    /** `updateReadStatusAndLocalStorage`: clears the listed timestamps' flags and records them as seen. */
    method UpdateReadStatus(timestamps: seq<int>)
      modifies this, store
      ensures notifications == MarkedRead(old(notifications), timestamps)
      ensures store.seen == WithSeen(old(store.seen), account, timestamps)
      ensures lastSyncTimestamp == old(lastSyncTimestamp) && loadSize == old(loadSize)
      ensures SettingsKept()
    {
      notifications := ClearUnread(notifications, timestamps);
      store.AddNotificationTimestamps(account, timestamps);
    }

    /** `markNotificationAsRead(t)`: the entries at `t` are read and `t` is recorded as seen. */
    method MarkNotificationAsRead(t: int)
      modifies this, store
      ensures notifications == MarkedRead(old(notifications), [t])
      ensures store.seen == WithSeen(old(store.seen), account, [t])
      ensures store.Has(account, t)
      ensures lastSyncTimestamp == old(lastSyncTimestamp) && loadSize == old(loadSize)
      ensures SettingsKept()
    {
      UpdateReadStatus([t]);
    }

    /** `markAllNotificationsAsRead`: nothing is left unread and every listed timestamp is seen. */
    method MarkAllNotificationsAsRead()
      modifies this, store
      ensures notifications == MarkedRead(old(notifications), Timestamps(old(notifications)))
      ensures store.seen == WithSeen(old(store.seen), account, Timestamps(old(notifications)))
      ensures UnreadNotificationsNumber() == 0
      ensures lastSyncTimestamp == old(lastSyncTimestamp) && loadSize == old(loadSize)
      ensures SettingsKept()
    {
      MarkAllLeavesNoneUnread(notifications);
      UpdateReadStatus(Timestamps(notifications));
    }

    /** `markNotificationsAsReadTo(t)`: afterwards nothing at or before `t` is unread. */
    method MarkNotificationsAsReadTo(t: int)
      modifies this, store
      ensures notifications == ReadTo(old(notifications), t)
      ensures store.seen == WithSeen(old(store.seen), account, TimestampsTo(old(notifications), t))
      ensures lastSyncTimestamp == old(lastSyncTimestamp) && loadSize == old(loadSize)
      ensures SettingsKept()
    {
      UpdateReadStatus(TimestampsTo(notifications, t));
    }

    /** `setupSyncInterval`: any running timer is cleared, then `timerId` runs. */
    method SetupSyncInterval(timerId: int)
      modifies this
      ensures syncIntervalId == Some(timerId)
      ensures notifications == old(notifications) && account == old(account)
      ensures lastSyncTimestamp == old(lastSyncTimestamp) && loadSize == old(loadSize)
      ensures pageSize == old(pageSize) && firstStakeTimestamp == old(firstStakeTimestamp)
      ensures limitForAccountNotifications == old(limitForAccountNotifications)
      ensures markAsReadLimit == old(markAsReadLimit) && syncInterval == old(syncInterval)
    {
      ClearSyncInterval();
      syncIntervalId := Some(timerId);
    }

    method ClearSyncInterval()
      modifies this
      ensures syncIntervalId == None
      ensures old(syncIntervalId).None? ==> unchanged(this)
      ensures notifications == old(notifications) && account == old(account)
      ensures lastSyncTimestamp == old(lastSyncTimestamp) && loadSize == old(loadSize)
      ensures pageSize == old(pageSize) && firstStakeTimestamp == old(firstStakeTimestamp)
      ensures limitForAccountNotifications == old(limitForAccountNotifications)
      ensures markAsReadLimit == old(markAsReadLimit) && syncInterval == old(syncInterval)
    {
      if syncIntervalId.Some? {
        syncIntervalId := None;
      }
    }

    /** `stopSyncing`: no timer runs afterwards; stopping a stopped stream changes nothing. */
    method StopSyncing()
      modifies this
      ensures syncIntervalId == None
      ensures old(syncIntervalId).None? ==> unchanged(this)
      ensures notifications == old(notifications) && account == old(account)
      ensures lastSyncTimestamp == old(lastSyncTimestamp) && loadSize == old(loadSize)
      ensures pageSize == old(pageSize) && firstStakeTimestamp == old(firstStakeTimestamp)
      ensures limitForAccountNotifications == old(limitForAccountNotifications)
      ensures markAsReadLimit == old(markAsReadLimit) && syncInterval == old(syncInterval)
    {
      ClearSyncInterval();
    }

    /**
     * One run of the interval callback. The general feed syncs first; when it reports nothing
     * new, nothing else changes. Otherwise this stream syncs as `SyncedBy` describes, against
     * the cache the general sync just grew; the shown window grows by the number of new
     * entries, and when there are some the hook gets the first `loadSize` entries.
     */
    method Tick(now: int, eventLog: (int, int) -> Option<seq<RawNotification>>,
                projectsQuery: seq<string> -> Option<seq<ProjectData>>,
                fromRaw: seq<RawNotification> -> Option<seq<Notification>>,
                nestsQuery: string -> Option<seq<string>>)
      returns (synced: bool, batch: seq<Notification>, shown: Option<seq<Notification>>)
      modifies this, general, general.memo, store
      ensures synced == GeneralSynced(old(general.lastSyncTimestamp), now, eventLog, projectsQuery, fromRaw)
      ensures general.SyncedFeed(now, eventLog, projectsQuery, fromRaw)
      ensures !synced ==>
        && batch == [] && shown == None
        && unchanged(this) && store.seen == old(store.seen)
        && general.memo.accountInvolved == old(general.memo.accountInvolved)
      ensures synced ==> SyncedBy(now, nestsQuery, batch)
      ensures general.memo.accountFirstStakeTimestamp == old(general.memo.accountFirstStakeTimestamp)
      ensures loadSize == AddLoad(old(loadSize), Some(|batch|))
      ensures shown.Some? <==> batch != []
      ensures shown.Some? ==> shown.value == Shown(notifications, loadSize)
      ensures SettingsKept()
    {
      synced := general.SyncNotifications(now, eventLog, projectsQuery, fromRaw);
      if !synced {
        return false, [], None;
      }
      batch := SyncNotifications(now, nestsQuery);
      if |batch| > 0 {
        loadSize := AddLoad(loadSize, Some(|batch|));
        shown := Some(Shown(notifications, loadSize));
      } else {
        shown := None;
      }
    }
  }
}
