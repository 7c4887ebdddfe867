/**
 * The pull view of one account (src/services/account-notifications.ts): a newest-first list
 * grown by syncs, range queries, a paging cursor, and read marking.
 */
module AccountView {
  import opened Base
  import opened NotificationTypes
  import opened GraphService
  import opened ReadState
  import opened AccountFilter
  import opened GeneralFeed

  /** The cap `syncNotifications` passes to the account filter. */
  const LimitForAccountNotifications: int := 100

  predicate After(t: int, n: Notification) { n.timestamp > t }

  /** `getNotificationsSince(t)` over a list. */
  function Since(ns: seq<Notification>, t: int): seq<Notification>
  {
    Filter(n => After(t, n), ns)
  }

  /** `getNotificationsTo(t)` over a list. */
  function To(ns: seq<Notification>, t: int): seq<Notification>
  {
    Filter(n => AtOrBefore(t, n), ns)
  }

  /** `Since(t)` and `To(t)` split the list: every entry lands in exactly one of them, by its timestamp. */
  lemma SinceToSplit(ns: seq<Notification>, t: int)
    ensures |Since(ns, t)| + |To(ns, t)| == |ns|
    ensures forall i :: 0 <= i < |Since(ns, t)| ==> Since(ns, t)[i].timestamp > t
    ensures forall i :: 0 <= i < |To(ns, t)| ==> To(ns, t)[i].timestamp <= t
    ensures forall i :: 0 <= i < |ns| ==> ns[i] in Since(ns, t) || ns[i] in To(ns, t)
  {
    FilterSplit((n: Notification) => After(t, n), (n: Notification) => AtOrBefore(t, n), ns);
  }

  /** The page `getNextNotifications(limit)` returns for cursor `next`. */
  function NextPage(ns: seq<Notification>, next: int, limit: int): seq<Notification>
  {
    Slice(To(ns, next), limit)
  }

  /** The cursor after a page: one below the page's oldest timestamp, or `DateLimit` after an empty page. */
  function NextCursor(page: seq<Notification>): int
  {
    if page == [] then DateLimit else page[|page| - 1].timestamp - 1
  }

  /**
   * A page is a prefix of the entries at or before the cursor, at most `limit` long for a
   * non-negative `limit`, and everything on it is at or before the cursor.
   */
  lemma NextPageBounds(ns: seq<Notification>, next: int, limit: int)
    ensures NextPage(ns, next, limit) <= To(ns, next)
    ensures 0 <= limit ==> |NextPage(ns, next, limit)| <= limit
    ensures 0 <= limit && limit <= |To(ns, next)| ==> |NextPage(ns, next, limit)| == limit
    ensures forall i :: 0 <= i < |NextPage(ns, next, limit)| ==> NextPage(ns, next, limit)[i].timestamp <= next
    ensures Subseq(NextPage(ns, next, limit), ns)
  {
    var to := To(ns, next);
    SubseqPrefix(to, |NextPage(ns, next, limit)|, ns);
  }

  /** Paging moves backwards in time: the following page holds only entries older than this page's last. */
  lemma NextPageOlder(ns: seq<Notification>, next: int, limit: int, limit2: int, i: nat)
    requires NextPage(ns, next, limit) != []
    requires i < |NextPage(ns, NextCursor(NextPage(ns, next, limit)), limit2)|
    ensures var page := NextPage(ns, next, limit);
      NextPage(ns, NextCursor(page), limit2)[i].timestamp < page[|page| - 1].timestamp
  {
    NextPageBounds(ns, NextCursor(NextPage(ns, next, limit)), limit2);
  }

  /** Once the cursor is pinned at `DateLimit`, a list with only later entries keeps yielding empty pages. */
  lemma PinnedCursorStaysEmpty(ns: seq<Notification>, limit: int)
    requires forall i :: 0 <= i < |ns| ==> ns[i].timestamp > DateLimit
    ensures NextPage(ns, DateLimit, limit) == []
    ensures NextCursor(NextPage(ns, DateLimit, limit)) == DateLimit
  {
  }

  class AccountNotifications {
    var account: string
    /** Newest first. */
    var notifications: seq<Notification>
    var nextTimestamp: int
    /** Undefined until a sync brings something. */
    var lastSyncTimestamp: Option<int>
    const memo: MemCache
    const store: ReadStore

    /** `createInstance` + `init`: the account is lower-cased, the seed list synced, the cursor set to `now`. */
    constructor Create(account: string, all: seq<Notification>, now: int,
                       nestsQuery: string -> Option<seq<string>>, memo: MemCache, store: ReadStore)
      modifies memo
      ensures this.account == Lower(account) && this.memo == memo && this.store == store
      ensures memo.accountInvolved == StoredNests(old(memo.accountInvolved), Lower(account), nestsQuery)
      ensures notifications == AccountFiltered(memo.accountInvolved, store.seen, Lower(account), all,
                                               LimitForAccountNotifications)
      ensures lastSyncTimestamp == if notifications == [] then None else Some(now)
      ensures nextTimestamp == now
      ensures memo.projectName == old(memo.projectName) && memo.projectLogo == old(memo.projectLogo)
      ensures memo.accountFirstStakeTimestamp == old(memo.accountFirstStakeTimestamp)
    {
      this.account := Lower(account);
      this.memo := memo;
      this.store := store;
      notifications := [];
      nextTimestamp := 0;
      lastSyncTimestamp := None;
      new;
      var _ := SyncNotifications(all, now, nestsQuery);
      nextTimestamp := now;
    }

    /**
     * `syncNotifications`: refreshes the account's involvement, filters the batch (at most
     * 100 kept) and puts it in front of the old list; the sync mark moves to `now` only when
     * something was added, and the result says whether it was.
     */
    method SyncNotifications(ns: seq<Notification>, now: int, nestsQuery: string -> Option<seq<string>>)
      returns (added: bool)
      modifies this, memo
      ensures memo.accountInvolved == StoredNests(old(memo.accountInvolved), account, nestsQuery)
      ensures var batch := AccountFiltered(memo.accountInvolved, store.seen, account, ns, LimitForAccountNotifications);
        && notifications == batch + old(notifications)
        && added == (batch != [])
        && |batch| <= LimitForAccountNotifications
      ensures lastSyncTimestamp == if added then Some(now) else old(lastSyncTimestamp)
      ensures account == old(account) && nextTimestamp == old(nextTimestamp)
      ensures memo.projectName == old(memo.projectName) && memo.projectLogo == old(memo.projectLogo)
      ensures memo.accountFirstStakeTimestamp == old(memo.accountFirstStakeTimestamp)
    {
      memo.FetchAccountNests(account, nestsQuery);
      var batch := FilterAccountNotifications(account, ns, LimitForAccountNotifications, memo, store);
      AccountFilteredLimit(memo.accountInvolved, store.seen, account, ns, LimitForAccountNotifications);
      notifications := batch + notifications;
      if |batch| > 0 {
        lastSyncTimestamp := Some(now);
      }
      added := |batch| > 0;
    }

    function GetNotifications(from: int, to: int): (r: seq<Notification>)
      reads this
      ensures r == Window(notifications, from, to)
    {
      Window(notifications, from, to)
    }

    function GetNotificationsSince(t: int): (r: seq<Notification>)
      reads this
      ensures forall i :: 0 <= i < |r| ==> r[i].timestamp > t
      ensures Subseq(r, notifications)
      ensures forall i :: 0 <= i < |notifications| && notifications[i].timestamp > t ==> notifications[i] in r
    {
      Since(notifications, t)
    }

    function GetNotificationsTo(t: int): (r: seq<Notification>)
      reads this
      ensures forall i :: 0 <= i < |r| ==> r[i].timestamp <= t
      ensures Subseq(r, notifications)
      ensures forall i :: 0 <= i < |notifications| && notifications[i].timestamp <= t ==> notifications[i] in r
    {
      To(notifications, t)
    }

    /** `getNextNotifications(limit)`: the page below the cursor, then the cursor moves past it. */
    method GetNextNotifications(limit: int) returns (page: seq<Notification>)
      modifies this
      ensures page == NextPage(notifications, old(nextTimestamp), limit)
      ensures nextTimestamp == NextCursor(page)
      ensures notifications == old(notifications) && account == old(account)
      ensures lastSyncTimestamp == old(lastSyncTimestamp)
    {
      var next := Slice(To(notifications, nextTimestamp), limit);
      if |next| == 0 {
        nextTimestamp := DateLimit;
        return [];
      }
      nextTimestamp := next[|next| - 1].timestamp - 1;
      return next;
    }

    method ResetNextNotifications(now: int)
      modifies this
      ensures nextTimestamp == now
      ensures notifications == old(notifications) && account == old(account)
      ensures lastSyncTimestamp == old(lastSyncTimestamp)
    {
      nextTimestamp := now;
    }

    /** `markNotificationsAsRead(t)`: clears the flag on the entries at `t` and records `t` as seen. */
    method MarkNotificationsAsRead(t: int)
      modifies this, store
      ensures notifications == MarkedRead(old(notifications), [t])
      ensures store.seen == WithSeen(old(store.seen), account, [t])
      ensures store.seen == old(store.seen)[account := SeenSet(old(store.seen), account) + {t}]
      ensures account == old(account) && nextTimestamp == old(nextTimestamp)
      ensures lastSyncTimestamp == old(lastSyncTimestamp)
    {
      notifications := ClearUnread(notifications, [t]);
      store.AddNotificationTimestamps(account, [t]);
      assert (set x | x in [t]) == {t};
    }

    /** `markAllNotificationsAsRead`: nothing is left unread and every timestamp is recorded as seen. */
    method MarkAllNotificationsAsRead()
      modifies this, store
      ensures notifications == MarkedRead(old(notifications), Timestamps(old(notifications)))
      ensures store.seen == WithSeen(old(store.seen), account, Timestamps(old(notifications)))
      ensures UnreadNotificationsNumber() == 0
      ensures forall i :: 0 <= i < |notifications| ==> store.Has(account, notifications[i].timestamp)
      ensures account == old(account) && nextTimestamp == old(nextTimestamp)
      ensures lastSyncTimestamp == old(lastSyncTimestamp)
    {
      var ts := Timestamps(notifications);
      notifications := ClearUnread(notifications, ts);
      store.AddNotificationTimestamps(account, ts);
      MarkAllLeavesNoneUnread(old(notifications));
      forall i | 0 <= i < |notifications|
        ensures notifications[i].timestamp in ts
      {
        assert ts[i] == old(notifications)[i].timestamp;
      }
    }

    function UnreadNotificationsNumber(): (n: nat)
      reads this
      ensures n <= |notifications|
      ensures n == 0 <==> forall i :: 0 <= i < |notifications| ==> !notifications[i].isUnread
    {
      CountZero(IsUnread, notifications);
      UnreadCount(notifications)
    }
  }
}
