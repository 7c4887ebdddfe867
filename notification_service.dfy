/**
 * The service facade (src/services/notification-service.ts): one general feed and a registry
 * of account views, created lazily on first use and keyed by the lower-cased address. Every
 * public call goes through `UpdateAccount` and then acts on that one view.
 */
module NotificationServices {
  import opened Base
  import opened NotificationTypes
  import opened GraphService
  import opened ReadState
  import opened AccountFilter
  import opened GeneralFeed
  import opened AccountView

  /** The list a new view is seeded with: the general cache after a truthy first stake, else nothing. */
  function Seed(cache: seq<Notification>, firstStake: Option<int>, now: int): seq<Notification>
  {
    if firstStake.Some? && firstStake.value != 0 then Window(cache, firstStake.value, now) else []
  }

  /**
   * The batch `syncAccountNotifications` hands a view: the general cache in `(mark, now]`.
   * A view that never received anything has an undefined mark, and `timestamp > undefined`
   * holds for no entry, so it gets nothing.
   */
  function SyncWindow(cache: seq<Notification>, mark: Option<int>, now: int): seq<Notification>
  {
    if mark.None? then [] else Window(cache, mark.value, now)
  }

  /** A view whose mark is `now` or undefined (a view created at `now`) is handed nothing. */
  lemma FreshViewWindowEmpty(cache: seq<Notification>, mark: Option<int>, now: int)
    requires mark.None? || mark.value == now
    ensures SyncWindow(cache, mark, now) == []
  {
    if mark.Some? {
      WindowContents(cache, now, now);
    }
  }

  /** An empty batch passes nothing through the account filter. */
  lemma NothingFiltered(involved: map<string, bool>, seen: map<string, set<int>>, account: string, limit: int)
    ensures AccountFiltered(involved, seen, account, [], limit) == []
  {
    SelectedIsSubsequence(involved, account, [], limit);
  }

  class NotificationService {
    const general: GeneralNotifications
    const store: ReadStore
    /** The registry: one view per lower-cased account. */
    var accounts: map<string, AccountNotifications>

    /**
     * Every key is lower-cased and names its own view, and every view shares the service's
     * memo cache and read store. Since a view's account is its key, no two keys share a view.
     */
    predicate Valid()
      reads this, accounts.Values
    {
      forall k :: k in accounts ==>
        && Lower(k) == k
        && accounts[k].account == k
        && accounts[k].memo == general.memo
        && accounts[k].store == store
    }

    /** Every view other than the one for `key` holds the list, cursor and mark it held. */
    twostate predicate OthersKept(key: string)
      reads this, accounts.Values
    {
      forall k :: k in old(accounts) && k != key && k in accounts ==>
        && accounts[k].notifications == old(accounts[k].notifications)
        && accounts[k].nextTimestamp == old(accounts[k].nextTimestamp)
        && accounts[k].lastSyncTimestamp == old(accounts[k].lastSyncTimestamp)
    }

    /** The involvement map once `UpdateAccount` has run: a new view fetches its nests. */
    function InvolvedAfterUpdate(key: string, nestsQuery: string -> Option<seq<string>>): map<string, bool>
      reads this, general, general.memo
    {
      if key in accounts then general.memo.accountInvolved
      else StoredNests(general.memo.accountInvolved, key, nestsQuery)
    }

    /**
     * The memo cache as `UpdateAccount` for `key` leaves it: only a new view's nests fetch
     * changes it, and only the involvement map.
     */
    twostate predicate MemoUpdated(key: string, nestsQuery: string -> Option<seq<string>>)
      reads this, general, general.memo
    {
      && general.memo.accountInvolved == old(InvolvedAfterUpdate(key, nestsQuery))
      && general.memo.projectName == old(general.memo.projectName)
      && general.memo.projectLogo == old(general.memo.projectLogo)
      && general.memo.accountFirstStakeTimestamp == old(general.memo.accountFirstStakeTimestamp)
    }

    /** The list the view for `key` holds once `UpdateAccount` has run. */
    function ViewList(key: string, firstStake: Option<int>, now: int,
                      nestsQuery: string -> Option<seq<string>>): seq<Notification>
      reads this, accounts.Values, general, general.memo, store
    {
      if key in accounts then accounts[key].notifications
      else AccountFiltered(StoredNests(general.memo.accountInvolved, key, nestsQuery), store.seen, key,
                           Seed(general.notificationsCache, firstStake, now), LimitForAccountNotifications)
    }

    /** The cursor of the view for `key` once `UpdateAccount` has run. */
    function ViewCursor(key: string, now: int): int
      reads this, accounts.Values
    {
      if key in accounts then accounts[key].nextTimestamp else now
    }

    /** The sync mark of the view for `key` once `UpdateAccount` has run. */
    function ViewMark(key: string, firstStake: Option<int>, now: int,
                      nestsQuery: string -> Option<seq<string>>): Option<int>
      reads this, accounts.Values, general, general.memo, store
    {
      if key in accounts then accounts[key].lastSyncTimestamp
      else if ViewList(key, firstStake, now, nestsQuery) == [] then None else Some(now)
    }

    /** `createInstance`: a service over an already loaded general feed, with no views yet. */
    constructor Create(general: GeneralNotifications, store: ReadStore)
      ensures this.general == general && this.store == store
      ensures accounts == map[]
      ensures Valid()
    {
      this.general := general;
      this.store := store;
      accounts := map[];
    }

    /**
     * `updateAccount`: the view registered under `Lower(account)`. An existing view is
     * returned as it is and nothing changes; otherwise a view is created from the seed list
     * (`firstStake` is the first-stake time the early-stage service reports) and registered.
     */
    method UpdateAccount(account: string, firstStake: Option<int>, now: int,
                         nestsQuery: string -> Option<seq<string>>)
      returns (view: AccountNotifications)
      requires Valid()
      modifies this, general.memo
      ensures Valid()
      ensures var key := Lower(account);
        && accounts == old(accounts)[key := view]
        && view.account == key
        && view.notifications == old(ViewList(key, firstStake, now, nestsQuery))
        && view.nextTimestamp == old(ViewCursor(key, now))
        && view.lastSyncTimestamp == old(ViewMark(key, firstStake, now, nestsQuery))
      ensures Lower(account) in old(accounts) ==>
        && view == old(accounts)[Lower(account)]
        && general.memo.accountInvolved == old(general.memo.accountInvolved)
      ensures Lower(account) !in old(accounts) ==>
        && fresh(view)
        && general.memo.accountInvolved == StoredNests(old(general.memo.accountInvolved), Lower(account), nestsQuery)
      ensures general.memo.projectName == old(general.memo.projectName)
      ensures general.memo.projectLogo == old(general.memo.projectLogo)
      ensures general.memo.accountFirstStakeTimestamp == old(general.memo.accountFirstStakeTimestamp)
    {
      var key := Lower(account);
      if key in accounts {
        return accounts[key];
      }
      var seed: seq<Notification> := [];
      if firstStake.Some? && firstStake.value != 0 {
        seed := general.GetNotificationsSince(firstStake.value, now);
      }
      LowerIdempotent(account);
      view := new AccountNotifications.Create(key, seed, now, nestsQuery, general.memo, store);
      accounts := accounts[key := view];
    }

    /** `unreadNotificationsNumber(account)`: the unread count of that account's view. */
    method UnreadNotificationsNumber(account: string, firstStake: Option<int>, now: int,
                                     nestsQuery: string -> Option<seq<string>>)
      returns (n: nat)
      requires Valid()
      modifies this, general.memo
      ensures Valid()
      ensures var key := Lower(account);
        && key in accounts
        && accounts == old(accounts)[key := accounts[key]]
        && accounts[key].notifications == old(ViewList(key, firstStake, now, nestsQuery))
        && accounts[key].nextTimestamp == old(ViewCursor(key, now))
        && accounts[key].lastSyncTimestamp == old(ViewMark(key, firstStake, now, nestsQuery))
      ensures n == Count(IsUnread, old(ViewList(Lower(account), firstStake, now, nestsQuery)))
      ensures n == accounts[Lower(account)].UnreadNotificationsNumber()
      ensures OthersKept(Lower(account))
      ensures MemoUpdated(Lower(account), nestsQuery)
    {
      var view := UpdateAccount(account, firstStake, now, nestsQuery);
      n := view.UnreadNotificationsNumber();
    }

    /** `markAccountNotificationsAsRead(account, t)`: clears the entries at `t` in that view only. */
    method MarkAccountNotificationsAsRead(account: string, t: int, firstStake: Option<int>, now: int,
                                          nestsQuery: string -> Option<seq<string>>)
      requires Valid()
      modifies this, general.memo, store, accounts.Values
      ensures Valid()
      ensures var key := Lower(account);
        && key in accounts
        && accounts == old(accounts)[key := accounts[key]]
        && accounts[key].notifications == MarkedRead(old(ViewList(key, firstStake, now, nestsQuery)), [t])
        && accounts[key].nextTimestamp == old(ViewCursor(key, now))
        && accounts[key].lastSyncTimestamp == old(ViewMark(key, firstStake, now, nestsQuery))
        && store.seen == WithSeen(old(store.seen), key, [t])
        && store.Has(key, t)
      ensures OthersKept(Lower(account))
      ensures MemoUpdated(Lower(account), nestsQuery)
    {
      var view := UpdateAccount(account, firstStake, now, nestsQuery);
      MarkView(Lower(account), t);
    }

    /** The part of `markAccountNotificationsAsRead` after the view is found. */
    method MarkView(key: string, t: int)
      requires Valid() && key in accounts
      modifies accounts[key], store
      ensures Valid()
      ensures accounts[key].notifications == MarkedRead(old(accounts[key].notifications), [t])
      ensures accounts[key].nextTimestamp == old(accounts[key].nextTimestamp)
      ensures accounts[key].lastSyncTimestamp == old(accounts[key].lastSyncTimestamp)
      ensures store.seen == WithSeen(old(store.seen), key, [t]) && store.Has(key, t)
      ensures OthersKept(key)
    {
      accounts[key].MarkNotificationsAsRead(t);
      forall k | k in accounts && k != key
        ensures accounts[k] != accounts[key]
      {
        ViewsDistinct(k, key);
      }
    }

    /** `markAllAccountNotificationsAsRead(account)`: nothing in that view is left unread. */
    method MarkAllAccountNotificationsAsRead(account: string, firstStake: Option<int>, now: int,
                                             nestsQuery: string -> Option<seq<string>>)
      requires Valid()
      modifies this, general.memo, store, accounts.Values
      ensures Valid()
      ensures var key := Lower(account);
        && key in accounts
        && accounts == old(accounts)[key := accounts[key]]
        && var list := old(ViewList(key, firstStake, now, nestsQuery));
        && accounts[key].notifications == MarkedRead(list, Timestamps(list))
        && accounts[key].UnreadNotificationsNumber() == 0
        && accounts[key].nextTimestamp == old(ViewCursor(key, now))
        && accounts[key].lastSyncTimestamp == old(ViewMark(key, firstStake, now, nestsQuery))
        && store.seen == WithSeen(old(store.seen), key, Timestamps(list))
      ensures OthersKept(Lower(account))
      ensures MemoUpdated(Lower(account), nestsQuery)
    {
      var view := UpdateAccount(account, firstStake, now, nestsQuery);
      MarkAllView(Lower(account));
    }

    /** The part of `markAllAccountNotificationsAsRead` after the view is found. */
    method MarkAllView(key: string)
      requires Valid() && key in accounts
      modifies accounts[key], store
      ensures Valid()
      ensures var list := old(accounts[key].notifications);
        && accounts[key].notifications == MarkedRead(list, Timestamps(list))
        && accounts[key].UnreadNotificationsNumber() == 0
        && store.seen == WithSeen(old(store.seen), key, Timestamps(list))
      ensures accounts[key].nextTimestamp == old(accounts[key].nextTimestamp)
      ensures accounts[key].lastSyncTimestamp == old(accounts[key].lastSyncTimestamp)
      ensures OthersKept(key)
    {
      accounts[key].MarkAllNotificationsAsRead();
      forall k | k in accounts && k != key
        ensures accounts[k] != accounts[key]
      {
        ViewsDistinct(k, key);
      }
    }

    /** `getNextNotifications(account, limit)`: the next page of that view, whose cursor moves past it. */
    method GetNextNotifications(account: string, limit: int, firstStake: Option<int>, now: int,
                                nestsQuery: string -> Option<seq<string>>)
      returns (page: seq<Notification>)
      requires Valid()
      modifies this, general.memo, accounts.Values
      ensures Valid()
      ensures var key := Lower(account);
        && key in accounts
        && accounts == old(accounts)[key := accounts[key]]
        && page == NextPage(old(ViewList(key, firstStake, now, nestsQuery)), old(ViewCursor(key, now)), limit)
        && accounts[key].nextTimestamp == NextCursor(page)
        && accounts[key].notifications == old(ViewList(key, firstStake, now, nestsQuery))
        && accounts[key].lastSyncTimestamp == old(ViewMark(key, firstStake, now, nestsQuery))
      ensures OthersKept(Lower(account))
      ensures MemoUpdated(Lower(account), nestsQuery)
    {
      var view := UpdateAccount(account, firstStake, now, nestsQuery);
      page := NextView(Lower(account), limit);
    }

    /** The part of `getNextNotifications` after the view is found. */
    method NextView(key: string, limit: int) returns (page: seq<Notification>)
      requires Valid() && key in accounts
      modifies accounts[key]
      ensures Valid()
      ensures page == NextPage(old(accounts[key].notifications), old(accounts[key].nextTimestamp), limit)
      ensures accounts[key].nextTimestamp == NextCursor(page)
      ensures accounts[key].notifications == old(accounts[key].notifications)
      ensures accounts[key].lastSyncTimestamp == old(accounts[key].lastSyncTimestamp)
      ensures OthersKept(key)
    {
      page := accounts[key].GetNextNotifications(limit);
      forall k | k in accounts && k != key
        ensures accounts[k] != accounts[key]
      {
        ViewsDistinct(k, key);
      }
    }

    /** `resetNextNotifications(account)`: that view's cursor goes back to `now`. */
    method ResetNextNotifications(account: string, firstStake: Option<int>, now: int,
                                  nestsQuery: string -> Option<seq<string>>)
      requires Valid()
      modifies this, general.memo, accounts.Values
      ensures Valid()
      ensures var key := Lower(account);
        && key in accounts
        && accounts == old(accounts)[key := accounts[key]]
        && accounts[key].nextTimestamp == now
        && accounts[key].notifications == old(ViewList(key, firstStake, now, nestsQuery))
        && accounts[key].lastSyncTimestamp == old(ViewMark(key, firstStake, now, nestsQuery))
      ensures OthersKept(Lower(account))
      ensures MemoUpdated(Lower(account), nestsQuery)
    {
      var view := UpdateAccount(account, firstStake, now, nestsQuery);
      view.ResetNextNotifications(now);
      forall k | k in old(accounts) && k != Lower(account) && k in accounts
        ensures accounts[k] == old(accounts[k])
      {
        ViewsDistinct(k, Lower(account));
      }
    }

    /**
     * `syncAccountNotifications(account)`: when the general sync reports nothing the view is
     * left as `UpdateAccount` made it and the answer is false; otherwise the view syncs the
     * cache window after its mark and the answer is whether that added anything. A view
     * created by this very call is handed an empty window, so it always answers false.
     */
    method SyncAccountNotifications(account: string, firstStake: Option<int>, now: int,
                                    eventLog: (int, int) -> Option<seq<RawNotification>>,
                                    projectsQuery: seq<string> -> Option<seq<ProjectData>>,
                                    fromRaw: seq<RawNotification> -> Option<seq<Notification>>,
                                    nestsQuery: string -> Option<seq<string>>)
      returns (r: bool)
      requires Valid()
      modifies this, general, general.memo, accounts.Values
      ensures Valid()
      ensures var key := Lower(account);
        && key in accounts
        && accounts == old(accounts)[key := accounts[key]]
      ensures var key := Lower(account);
        var synced := GeneralSynced(old(general.lastSyncTimestamp), now, eventLog, projectsQuery, fromRaw);
        !synced ==>
          && !r
          && accounts[key].notifications == old(ViewList(key, firstStake, now, nestsQuery))
          && accounts[key].lastSyncTimestamp == old(ViewMark(key, firstStake, now, nestsQuery))
      ensures var key := Lower(account);
        var synced := GeneralSynced(old(general.lastSyncTimestamp), now, eventLog, projectsQuery, fromRaw);
        var batch := AccountFiltered(general.memo.accountInvolved, store.seen, key,
                       SyncWindow(general.notificationsCache, old(ViewMark(key, firstStake, now, nestsQuery)), now),
                       LimitForAccountNotifications);
        synced ==>
          && r == (batch != [])
          && accounts[key].notifications == batch + old(ViewList(key, firstStake, now, nestsQuery))
          && accounts[key].lastSyncTimestamp == if r then Some(now) else old(ViewMark(key, firstStake, now, nestsQuery))
      ensures accounts[Lower(account)].nextTimestamp == old(ViewCursor(Lower(account), now))
      ensures Lower(account) !in old(accounts) ==> !r
      ensures OthersKept(Lower(account))
      ensures general.SyncedFeed(now, eventLog, projectsQuery, fromRaw)
      ensures var key := Lower(account);
        var involved := old(InvolvedAfterUpdate(key, nestsQuery));
        general.memo.accountInvolved ==
          if GeneralSynced(old(general.lastSyncTimestamp), now, eventLog, projectsQuery, fromRaw)
          then StoredNests(involved, key, nestsQuery) else involved
      ensures general.memo.accountFirstStakeTimestamp == old(general.memo.accountFirstStakeTimestamp)
    {
      var key := Lower(account);
      var view := UpdateAccount(account, firstStake, now, nestsQuery);
      ghost var mark := view.lastSyncTimestamp;
      r := SyncView(key, now, eventLog, projectsQuery, fromRaw, nestsQuery);
      if key !in old(accounts) {
        FreshViewWindowEmpty(general.notificationsCache, mark, now);
        NothingFiltered(general.memo.accountInvolved, store.seen, key, LimitForAccountNotifications);
      }
      forall k | k in old(accounts) && k != key && k in accounts
        ensures accounts[k] == old(accounts[k])
      {
        ViewsDistinct(k, key);
      }
    }

    /**
     * The part of `syncAccountNotifications` after the view is found: the general feed syncs;
     * if it reports nothing, nothing else happens; otherwise the view syncs the cache window
     * after its mark. No other view and no registry entry changes.
     */
    method SyncView(key: string, now: int,
                    eventLog: (int, int) -> Option<seq<RawNotification>>,
                    projectsQuery: seq<string> -> Option<seq<ProjectData>>,
                    fromRaw: seq<RawNotification> -> Option<seq<Notification>>,
                    nestsQuery: string -> Option<seq<string>>)
      returns (r: bool)
      requires Valid() && key in accounts
      modifies general, general.memo, accounts[key]
      ensures Valid()
      ensures accounts[key].nextTimestamp == old(accounts[key].nextTimestamp)
      ensures general.SyncedFeed(now, eventLog, projectsQuery, fromRaw)
      ensures general.memo.accountInvolved ==
        if GeneralSynced(old(general.lastSyncTimestamp), now, eventLog, projectsQuery, fromRaw)
        then StoredNests(old(general.memo.accountInvolved), key, nestsQuery) else old(general.memo.accountInvolved)
      ensures general.memo.accountFirstStakeTimestamp == old(general.memo.accountFirstStakeTimestamp)
      ensures var view := accounts[key];
        var synced := GeneralSynced(old(general.lastSyncTimestamp), now, eventLog, projectsQuery, fromRaw);
        !synced ==>
          && !r
          && view.notifications == old(view.notifications)
          && view.lastSyncTimestamp == old(view.lastSyncTimestamp)
      ensures var view := accounts[key];
        var synced := GeneralSynced(old(general.lastSyncTimestamp), now, eventLog, projectsQuery, fromRaw);
        var batch := AccountFiltered(general.memo.accountInvolved, store.seen, key,
                       SyncWindow(general.notificationsCache, old(view.lastSyncTimestamp), now),
                       LimitForAccountNotifications);
        synced ==>
          && r == (batch != [])
          && view.notifications == batch + old(view.notifications)
          && view.lastSyncTimestamp == if r then Some(now) else old(view.lastSyncTimestamp)
    {
      var view := accounts[key];
      var synced := general.SyncNotifications(now, eventLog, projectsQuery, fromRaw);
      if !synced {
        return false;
      }
      var ns: seq<Notification> := [];
      if view.lastSyncTimestamp.Some? {
        ns := general.GetNotifications(view.lastSyncTimestamp.value, now);
      }
      r := view.SyncNotifications(ns, now, nestsQuery);
    }

    /** Distinct keys hold distinct views, since each view's account is its key. */
    lemma ViewsDistinct(k1: string, k2: string)
      requires Valid() && k1 in accounts && k2 in accounts && k1 != k2
      ensures accounts[k1] != accounts[k2]
    {
    }
  }
}
