/** The unread flag from the read store (src/services/filters/unread-notifications.ts). */
module UnreadNotifications {
  import opened Base
  import opened NotificationTypes
  import opened ReadState

  /** A notification with `isUnread` set from the store: unread iff its timestamp was never seen. */
  function WithReadState(seen: map<string, set<int>>, account: string, n: Notification): Notification
  {
    n.(isUnread := !Seen(seen, account, n.timestamp))
  }

  /** The list the source's loop leaves behind. */
  function MarkedUnread(seen: map<string, set<int>>, account: string, ns: seq<Notification>)
    : (r: seq<Notification>)
    ensures |r| == |ns|
  {
    seq(|ns|, i requires 0 <= i < |ns| => WithReadState(seen, account, ns[i]))
  }

  /**
   * Only `isUnread` changes, its value is "not seen", and notifications sharing a timestamp
   * get the same flag.
   */
  lemma MarkedUnreadFlags(seen: map<string, set<int>>, account: string, ns: seq<Notification>, i: nat, j: nat)
    requires i < |ns| && j < |ns|
    ensures MarkedUnread(seen, account, ns)[i].(isUnread := ns[i].isUnread) == ns[i]
    ensures MarkedUnread(seen, account, ns)[i].isUnread == !Seen(seen, account, ns[i].timestamp)
    ensures ns[i].timestamp == ns[j].timestamp ==>
              MarkedUnread(seen, account, ns)[i].isUnread == MarkedUnread(seen, account, ns)[j].isUnread
  {
  }

  lemma MarkedUnreadAppend(seen: map<string, set<int>>, account: string, a: seq<Notification>, b: seq<Notification>)
    ensures MarkedUnread(seen, account, a + b) == MarkedUnread(seen, account, a) + MarkedUnread(seen, account, b)
  {
  }

  /** `filterUnreadNotifications`: the same list, same length and order, with the flags set. */
  method FilterUnreadNotifications(account: string, ns: seq<Notification>, store: ReadStore)
    returns (r: seq<Notification>)
    ensures r == MarkedUnread(store.seen, account, ns)
  {
    r := [];
    for i := 0 to |ns|
      invariant |r| == i
      invariant forall j :: 0 <= j < i ==> r[j] == WithReadState(store.seen, account, ns[j])
    {
      var n := ns[i];
      r := r + [n.(isUnread := !store.Has(account, n.timestamp))];
    }
  }
}
