/**
 * The per-account filter (src/services/filters/account-notifiactions.ts): a decision per
 * event kind, a `limit` on the number kept, then the unread flags from the read store.
 */
module AccountFilter {
  import opened Base
  import opened NotificationTypes
  import opened EventTypes
  import opened ProjectPhase
  import opened GraphService
  import opened ReadState
  import opened UnreadNotifications

  /** The `involved` helper: false for an absent project, true for a null one, else the cache. */
  function Involved(involved: map<string, bool>, account: string, n: Notification): bool
  {
    match n.project
    case Undefined => false
    case Null => true
    case Address(address, _, _) => IsInvolvedIn(involved, address, account)
  }

  /** Whether the loop's `switch` pushes `n` (ignoring the limit). */
  function Admits(involved: map<string, bool>, account: string, n: Notification): bool
  {
    match FromCode(n.eventType)
    case Some(NewProjectOnDealFlow) => true
    case Some(NestIsOpen) => true
    case Some(CountdownSet) => n.countdownNextPhase == Some(PhaseCode(DealFlow)) || Involved(involved, account, n)
    case Some(CountdownHidden) => false
    case Some(CustomNotification) => n.project.Undefined? || Involved(involved, account, n)
    case _ => Involved(involved, account, n)
  }

  function Admitted(involved: map<string, bool>, account: string): Notification -> bool
  {
    n => Admits(involved, account, n)
  }

  /**
   * What the loop collects: the admitted notifications in input order, cut to the first
   * `limit` when `limit` is truthy. A negative limit stops the loop before the first item.
   */
  function Selected(involved: map<string, bool>, account: string, ns: seq<Notification>, limit: int)
    : seq<Notification>
  {
    var all := Filter(Admitted(involved, account), ns);
    if limit == 0 then all else if limit < 0 then [] else Slice(all, limit)
  }

  /** The result of `filterAccountNotifications`. */
  function AccountFiltered(involved: map<string, bool>, seen: map<string, set<int>>, account: string,
                           ns: seq<Notification>, limit: int): seq<Notification>
  {
    MarkedUnread(seen, account, Selected(involved, account, ns, limit))
  }

  /** One turn of the loop's `switch`: whether `n` is pushed. */
  method Decide(account: string, n: Notification, memo: MemCache) returns (push: bool)
    ensures push == Admits(memo.accountInvolved, account, n)
  {
    var involved := match n.project
      case Undefined => false
      case Null => true
      case Address(address, _, _) => memo.IsAccountInvolved(address, account);
    match FromCode(n.eventType) {
      case Some(NewProjectOnDealFlow) =>
        push := true;
      case Some(NestIsOpen) =>
        push := true;
      case Some(CountdownSet) =>
        push := n.countdownNextPhase == Some(PhaseCode(DealFlow)) || involved;
      case Some(CountdownHidden) =>
        push := false;
      case Some(CustomNotification) =>
        push := n.project.Undefined? || involved;
      case _ =>
        push := involved;
    }
  }

  /** Where the loop stops, what it has collected is what `Selected` describes. */
  lemma {:induction false} LoopExit(p: Notification -> bool, ns: seq<Notification>, i: nat, kept: seq<Notification>, limit: int)
    requires i <= |ns| && kept == Filter(p, ns[..i])
    requires limit > 0 ==> |kept| <= limit
    requires limit < 0 ==> i == 0
    requires i < |ns| ==> limit != 0 && |kept| >= limit
    ensures kept == (if limit == 0 then Filter(p, ns) else if limit < 0 then [] else Slice(Filter(p, ns), limit))
  {
    assert ns == ns[..i] + ns[i..];
    FilterAppend(p, ns[..i], ns[i..]);
  }

  /** `filterAccountNotifications(account, notifications, limit)`; a `limit` of 0 stands for undefined. */
  method FilterAccountNotifications(account: string, ns: seq<Notification>, limit: int,
                                    memo: MemCache, store: ReadStore)
    returns (r: seq<Notification>)
    ensures r == AccountFiltered(memo.accountInvolved, store.seen, account, ns, limit)
  {
    if |ns| == 0 {
      return [];
    }
    ghost var admitted := Admitted(memo.accountInvolved, account);
    var kept: seq<Notification> := [];
    var i := 0;
    while i < |ns|
      invariant 0 <= i <= |ns|
      invariant kept == Filter(admitted, ns[..i])
      invariant limit > 0 ==> |kept| <= limit
      invariant limit < 0 ==> i == 0
    {
      if limit != 0 && |kept| >= limit {
        break;
      }
      var n := ns[i];
      var push := Decide(account, n, memo);
      FilterStep(admitted, ns, i);
      if push {
        kept := kept + [n];
      }
      i := i + 1;
    }
    LoopExit(admitted, ns, i, kept, limit);
    r := FilterUnreadNotifications(account, kept, store);
  }

  /** The kept notifications come from the input, in input order. */
  lemma SelectedIsSubsequence(involved: map<string, bool>, account: string, ns: seq<Notification>, limit: int)
    ensures Subseq(Selected(involved, account, ns, limit), ns)
  {
    var all := Filter(Admitted(involved, account), ns);
    if limit > 0 {
      SubseqPrefix(all, |Slice(all, limit)|, ns);
    }
  }

  /**
   * The limit: a truthy positive `limit` caps the result and keeps the first admitted items,
   * 0 (undefined) keeps every admitted item, a negative one keeps nothing; empty input gives [].
   */
  lemma AccountFilteredLimit(involved: map<string, bool>, seen: map<string, set<int>>, account: string,
                             ns: seq<Notification>, limit: int)
    ensures var r := AccountFiltered(involved, seen, account, ns, limit);
      var all := Filter(Admitted(involved, account), ns);
      && (ns == [] ==> r == [])
      && (limit > 0 ==> |r| <= limit && Selected(involved, account, ns, limit) <= all)
      && (limit > 0 && |all| >= limit ==> |r| == limit)
      && (limit == 0 ==> |r| == |all|)
      && (limit < 0 ==> r == [])
  {
  }

  /** A countdown-hidden event never reaches the account, whatever the limit. */
  lemma CountdownHiddenNeverKept(involved: map<string, bool>, seen: map<string, set<int>>, account: string,
                                 ns: seq<Notification>, limit: int, j: nat)
    requires j < |AccountFiltered(involved, seen, account, ns, limit)|
    ensures AccountFiltered(involved, seen, account, ns, limit)[j].eventType != Code(CountdownHidden)
  {
    var sel := Selected(involved, account, ns, limit);
    var all := Filter(Admitted(involved, account), ns);
    assert sel[j] in all;
  }

  /**
   * The decision table, without a limit: an input notification reaches the account (with its
   * unread flag set) exactly when the rule of its kind admits it.
   */
  lemma KeptIff(involved: map<string, bool>, seen: map<string, set<int>>, account: string,
                ns: seq<Notification>, n: Notification)
    requires n in ns
    ensures var kept := WithReadState(seen, account, n) in AccountFiltered(involved, seen, account, ns, 0);
      && (n.eventType == Code(NewProjectOnDealFlow) || n.eventType == Code(NestIsOpen) ==> kept)
      && (n.eventType == Code(CountdownHidden) ==> !kept)
      && (n.eventType == Code(CountdownSet) ==>
            (kept <==> n.countdownNextPhase == Some(PhaseCode(DealFlow)) || Involved(involved, account, n)))
      && (n.eventType == Code(CustomNotification) ==>
            (kept <==> n.project.Undefined? || Involved(involved, account, n)))
      && (n.eventType !in {0, 1, 7, 8, 9} ==> (kept <==> Involved(involved, account, n)))
      && (n.project.Undefined? ==> !Involved(involved, account, n))
      && (n.project.Null? ==> Involved(involved, account, n))
  {
    KeptIffAdmits(involved, seen, account, ns, n);
  }

  /** Without a limit, an input notification reaches the account exactly when the switch pushes it. */
  lemma KeptIffAdmits(involved: map<string, bool>, seen: map<string, set<int>>, account: string,
                      ns: seq<Notification>, n: Notification)
    requires n in ns
    ensures WithReadState(seen, account, n) in AccountFiltered(involved, seen, account, ns, 0)
            <==> Admits(involved, account, n)
  {
    var all := Filter(Admitted(involved, account), ns);
    var r := AccountFiltered(involved, seen, account, ns, 0);
    var w := WithReadState(seen, account, n);
    if Admits(involved, account, n) {
      var j :| 0 <= j < |all| && all[j] == n;
      assert r[j] == w;
    }
    if w in r {
      var j :| 0 <= j < |r| && r[j] == w;
      assert all[j].(isUnread := n.isUnread) == n;
      assert Admits(involved, account, all[j]);
    }
  }

  /**
   * A worked case: a nest-opened event, a moved-to-analysis event of a project the account
   * is not involved in, and a custom notification with a null project, without a limit,
   * leave the first and the third.
   */
  lemma MixedBatchExample(involved: map<string, bool>, seen: map<string, set<int>>, account: string,
                          a: Notification, b: Notification, c: Notification)
    requires a.eventType == Code(NestIsOpen)
    requires b.eventType == Code(MovedToAnalysis) && b.project.Address?
    requires !IsInvolvedIn(involved, b.project.address, account)
    requires c.eventType == Code(CustomNotification) && c.project.Null?
    ensures AccountFiltered(involved, seen, account, [a, b, c], 0) ==
            [WithReadState(seen, account, a), WithReadState(seen, account, c)]
  {
    var p := Admitted(involved, account);
    assert [a, b, c][1..] == [b, c] && [b, c][1..] == [c];
    assert Filter(p, [c]) == [c];
    assert Filter(p, [b, c]) == [c];
    assert Filter(p, [a, b, c]) == [a, c];
  }
}
