/**
 * Read state: the per-account set of timestamps already seen (kept by the browser's local
 * storage in the source) and the mark-read vocabulary the account views share.
 */
module ReadState {
  import opened Base
  import opened NotificationTypes

  /** Whether `timestamp` is recorded as seen for `account`. */
  function Seen(seen: map<string, set<int>>, account: string, timestamp: int): bool
  {
    account in seen && timestamp in seen[account]
  }

  function SeenSet(seen: map<string, set<int>>, account: string): set<int>
  {
    if account in seen then seen[account] else {}
  }

  /** The timestamps of a list, as a set. */
  function AsSet(ts: seq<int>): (r: set<int>)
    ensures forall t :: t in r <==> t in ts
  {
    set t | t in ts
  }

  /** The store after `timestamps` are recorded as seen for `account`. */
  function WithSeen(seen: map<string, set<int>>, account: string, timestamps: seq<int>): map<string, set<int>>
  {
    seen[account := SeenSet(seen, account) + AsSet(timestamps)]
  }

  /** The seen-timestamps store, one set per account key. */
  class ReadStore {
    var seen: map<string, set<int>>

    constructor ()
      ensures seen == map[]
    {
      seen := map[];
    }

    /** `hasNotificationTimestamps` for one timestamp. */
    function Has(account: string, timestamp: int): (r: bool)
      reads this
      ensures r <==> account in seen && timestamp in seen[account]
    {
      Seen(seen, account, timestamp)
    }

    /** `addNotificationTimestamps`: records the timestamps as seen; nothing is ever forgotten. */
    method AddNotificationTimestamps(account: string, timestamps: seq<int>)
      modifies this
      ensures seen == WithSeen(old(seen), account, timestamps)
      ensures forall t :: t in timestamps ==> Has(account, t)
      ensures forall a, t :: old(Seen(seen, a, t)) ==> Seen(seen, a, t)
    {
      seen := WithSeen(seen, account, timestamps);
    }
  }

  function TimestampOf(n: Notification): int { n.timestamp }

  function IsUnread(n: Notification): bool { n.isUnread }

  /** `notifications.map(n => n.timestamp)` */
  function Timestamps(ns: seq<Notification>): (ts: seq<int>)
    ensures |ts| == |ns|
  {
    MapSeq(TimestampOf, ns)
  }

  /** The list after `forEach(n => { if (timestamps.includes(n.timestamp)) n.isUnread = false })`. */
  function MarkedRead(ns: seq<Notification>, timestamps: seq<int>): (r: seq<Notification>)
    ensures |r| == |ns|
  {
    seq(|ns|, i requires 0 <= i < |ns| =>
      if ns[i].timestamp in timestamps then ns[i].(isUnread := false) else ns[i])
  }

  /** The `forEach` pass that clears `isUnread` on every entry whose timestamp is listed. */
  method ClearUnread(ns: seq<Notification>, timestamps: seq<int>) returns (r: seq<Notification>)
    ensures r == MarkedRead(ns, timestamps)
  {
    r := ns;
    for i := 0 to |ns|
      invariant |r| == |ns|
      invariant forall j :: 0 <= j < i ==> r[j] == MarkedRead(ns, timestamps)[j]
      invariant forall j :: i <= j < |ns| ==> r[j] == ns[j]
    {
      if ns[i].timestamp in timestamps {
        r := r[i := ns[i].(isUnread := false)];
      }
    }
  }

  /** `notifications.filter(n => n.isUnread).length` */
  function UnreadCount(ns: seq<Notification>): (n: nat)
    ensures n <= |ns|
  {
    Count(IsUnread, ns)
  }

  /** Marking changes nothing but `isUnread`, and only on the entries whose timestamp is listed. */
  lemma MarkedReadChangesOnlyListed(ns: seq<Notification>, timestamps: seq<int>, i: nat)
    requires i < |ns|
    ensures MarkedRead(ns, timestamps)[i].(isUnread := ns[i].isUnread) == ns[i]
    ensures ns[i].timestamp !in timestamps ==> MarkedRead(ns, timestamps)[i] == ns[i]
    ensures ns[i].timestamp in timestamps ==> !MarkedRead(ns, timestamps)[i].isUnread
  {
  }

  /** Marking every entry's own timestamp leaves no unread entry. */
  lemma MarkAllLeavesNoneUnread(ns: seq<Notification>)
    ensures UnreadCount(MarkedRead(ns, Timestamps(ns))) == 0
  {
    var r := MarkedRead(ns, Timestamps(ns));
    forall i | 0 <= i < |r| ensures !IsUnread(r[i]) {
      assert Timestamps(ns)[i] == ns[i].timestamp;
    }
    CountZero(IsUnread, r);
  }

  predicate AtOrBefore(limit: int, n: Notification) { n.timestamp <= limit }

  /** The timestamps `markNotificationsAsReadTo(limit)` marks: those of entries at or before `limit`. */
  function TimestampsTo(ns: seq<Notification>, limit: int): seq<int>
  {
    Timestamps(Filter(n => AtOrBefore(limit, n), ns))
  }

  /**
   * Marking the timestamps up to `limit` reads exactly the entries at or before `limit`:
   * afterwards an entry is unread iff it was unread and is newer than `limit`.
   */
  lemma MarkedReadTo(ns: seq<Notification>, limit: int, i: nat)
    requires i < |ns|
    ensures MarkedRead(ns, TimestampsTo(ns, limit))[i].isUnread <==> ns[i].isUnread && ns[i].timestamp > limit
  {
    var f := Filter(n => AtOrBefore(limit, n), ns);
    var ts := Timestamps(f);
    if ns[i].timestamp <= limit {
      assert ns[i] in f;
      var j :| 0 <= j < |f| && f[j] == ns[i];
      assert ts[j] == ns[i].timestamp;
    }
  }

  /** Unread entries of a prepended batch add up: a fresh unread entry raises the count by one. */
  lemma UnreadCountPrepend(batch: seq<Notification>, ns: seq<Notification>)
    ensures UnreadCount(batch + ns) == UnreadCount(batch) + UnreadCount(ns)
  {
    CountAppend(IsUnread, batch, ns);
  }
}
