# Colony notification engine — a Dafny model

This project models the notification engine of the Colony notification library
(`src/services/`). The engine has five parts:

- **General feed.** A process-wide, newest-first cache of notifications, loaded from the
  event log from 1 February 2024 onwards and extended by periodic syncs. It can be queried
  by half-open time windows `(from, to]`.
- **Memo cache.** The graph service's cache of project names, project logos, account
  involvement in a project (its "nest") and each account's first-stake time. Every lookup
  lower-cases its key.
- **Account filter and classifier.**
  - The account filter decides which notifications reach an account, by event kind and
    involvement, under an optional cap. It then sets each kept notification's unread flag
    from the read store.
  - The classifier turns each raw event into a readable message, or drops it.
- **Account views.** Two kinds of per-account view sit on top of the feed:
  - the account notifications object, with windowed queries, a paging cursor and
    mark-as-read;
  - the notification stream, with options, first-stake gating, a capped list, automatic
    mark-as-read of old entries, a shown window (`loadSize`) and a sync timer.
- **Service facade.** It creates account views lazily, one per lower-cased account.

Classes keep the source's form: `MemCache`, `ReadStore`, `GeneralNotifications`,
`AccountNotifications`, `NotificationStream` and `NotificationService` are Dafny classes
whose methods update their fields. Each method's contract states its result and the new value
of every field it may change, in terms of the old state and of specification functions.
Two-state predicates name what several methods share: `SettingsKept` (a stream's options,
account and timer are unchanged), `SyncedBy` (what a stream's sync leaves) and `OthersKept`
(every other account view keeps its list, cursor and mark). The filters and the event and phase mappings are pure functions with
lemmas.

The environment is modelled explicitly:

- Network requests, the clock and the timer are parameters. A query is a function from its
  variables to `Option` of the response, with `None` for a request that threw. `now` is the
  clock reading, and `timerId` is the timer.
- JavaScript semantics are written out:
  - `slice` with a negative end;
  - truthiness (`limit` 0 means no cap, and a first stake of 0 is falsy);
  - the TypeError a null project raises;
  - `timestamp > undefined` being false.

The read store ("local storage" in the source) is a map from account to the set of
timestamps already seen. The source's `LocalStorage` class does not define the add and
query operations that the views call, so their meaning is taken from their call sites:
record these timestamps as seen, and tell which are present. The first-stake and nest
lookups are called on `EarlyStageService`, which in the source does not define them. They
are routed to the graph service's memo cache that defines them: the nests query fills the
involvement map, and the first stake the facade sees is a parameter.

## Model

| member | source | states |
|---|---|---|
| EventTypes.Code | src/services/types/event-type.ts:1-12 | every event kind has its enum number, all within 0..9 |
| EventTypes.FromCode | src/services/types/event-type.ts:1-12 | a number names a kind iff it lies in 0..9, and then it is that kind's number |
| EventTypes.CodeRoundTrip | src/services/types/event-type.ts:1-12 | decoding a kind's number gives the kind back |
| EventTypes.MapEventType | src/services/types/event-type.ts:30-82 | each fixed kind maps to its message; kinds 5, 7 and 9 succeed iff their optional field is present and then embed it (the symbol, the ISO date of timestamp×1000, the custom text); any other number is an "Invalid event type" error |
| EventTypes.MapEventTypeReadsOnlyNeededField | src/services/types/event-type.ts:19-23 | the message depends only on the kind and the one optional field that kind needs |
| EventTypes.FixedMessagesDistinct | src/services/types/event-type.ts:34-71 | distinct fixed kinds have distinct messages |
| ProjectPhase.PhaseCode | src/services/types/project-phase.ts:1-9 | each phase has its enum number in 0..6 |
| ProjectPhase.PhaseCodeInjective | src/services/types/project-phase.ts:1-9 | distinct phases have distinct numbers |
| ProjectPhase.MapProjectPhase | src/services/types/project-phase.ts:11-21 | succeeds exactly for phases 2..6, each with its display name; Rejected, Pending and unknown numbers give "Invalid phase" |
| ProjectPhase.MapProjectPhaseInjective | src/services/types/project-phase.ts:11-21 | distinct valid phases have distinct names |
| EventMessage.DigitRun | src/services/filters/event-message.ts:18 | the greedy `\d+` run at a position: all digits, stopped by a non-digit or the end |
| EventMessage.FindPhaseTag | src/services/filters/event-message.ts:18 | the leftmost position where `[p<digits>]` matches, or none when it matches nowhere |
| EventMessage.PhaseTagDigits | src/services/filters/event-message.ts:18 | a match yields a non-empty run of digits |
| EventMessage.DecimalString | src/services/filters/event-message.ts:23 | the numeral of a natural number is a non-empty run of digits |
| EventMessage.DecimalRoundTrip | src/services/filters/event-message.ts:23 | parseInt of a number's numeral gives the number back |
| EventMessage.DigitRunExact | src/services/filters/event-message.ts:18 | a maximal run of k digits is exactly what the greedy match takes |
| EventMessage.PhaseTagRoundTrip | src/services/filters/event-message.ts:18 | a phase id that starts with `[p<n>]` yields exactly n's digits |
| EventMessage.GetCountdownNextPhase | src/services/filters/event-message.ts:5-27 | null without content; a phase is returned only for a parsable "nextPhase" payload, and it is non-negative |
| EventMessage.CountdownNextPhaseOfTag | src/services/filters/event-message.ts:11-23 | a "nextPhase" payload whose phase id opens with `[p<n>]` names phase n |
| EventMessage.NextPhaseOfPhaseId | src/services/filters/event-message.ts:13-23 | for a "nextPhase" payload the result is null iff the phase id has no tag, and otherwise parseInt of the tag's digits |
| EventMessage.TagDigitsAt | src/services/filters/event-message.ts:18 | once the leftmost match is at i, the captured group is the digit run after `[p` at i |
| EventMessage.LeftmostMatch | src/services/filters/event-message.ts:18 | the search finds the first position where `[p<digits>]` matches |
| EventMessage.CountdownNextPhaseOfPhaseId | src/services/filters/event-message.ts:13-23 | for a "nextPhase" payload with phase id p: a phase is returned iff `[p<digits>]` matches somewhere in p, and it is parseInt of the digits of the leftmost match, whatever text precedes it |
| EventMessage.DecimalLeadingZero | src/services/filters/event-message.ts:23 | parseInt ignores a leading zero, so `[p007]` names phase 7 |
| EventMessage.CountdownSetEventMessage | src/services/filters/event-message.ts:30-46 | no phase, Pending or Rejected gives null; otherwise a countdown-set event gets the dated message |
| EventMessage.CustomNotificationEventMessage | src/services/filters/event-message.ts:49-58 | null without content; a custom event's message is its content text verbatim |
| EventMessage.NotificationEventMessage | src/services/filters/event-message.ts:61-94 | an unknown kind is an "Invalid event type" error; a hidden countdown gives null; kinds 0–4 and 6 give their fixed message; a custom event gives its content or null |
| EventMessage.CountdownSetMessage | src/services/filters/event-message.ts:78-79 | a countdown-set event is null for a missing, Pending or Rejected phase, else "Countdown set to" its ISO date |
| EventMessage.AvailableOnPortfolioMessage | src/services/filters/event-message.ts:72-75 | succeeds iff the additional data parses with a token symbol, and the message is symbol + " now available on Portfolio"; otherwise an error |
| GraphService.LookupLower | src/services/graph-service.ts:127-134 | a lookup finds an entry iff the lower-cased key is cached, and returns that entry |
| GraphService.LookupCaseInsensitive | src/services/graph-service.ts:127-134 | every case variant of a key finds the same entry |
| GraphService.InvolvementKey | src/services/graph-service.ts:11-12 | the involvement key is the project id followed by the account |
| GraphService.NestEntries | src/services/graph-service.ts:95-100 | one `(project + account, true)` entry per returned project, in order |
| GraphService.PutKeys | src/services/graph-service.ts:73-76 | after the map updates, the keys are the old keys plus the keys written |
| GraphService.PutOther | src/services/graph-service.ts:73-76 | a key that no update writes keeps its old value |
| GraphService.PutLast | src/services/graph-service.ts:73-76 | a key holds the value of the last entry that writes it |
| GraphService.PutTrue | src/services/graph-service.ts:95-100 | writing only `true` never clears a flag, and every written key reads true |
| GraphService.FetchNoProjects | src/services/graph-service.ts:60-62 | fetching project data for no projects changes neither cache |
| GraphService.FetchedProjectNamed | src/services/graph-service.ts:73-76 | each returned project's name is cached under its id (the last entry for an id wins) |
| GraphService.FetchKeepsOtherNames | src/services/graph-service.ts:73-76 | ids that no returned project carries keep their cached names |
| GraphService.InvolvementMonotone | src/services/graph-service.ts:79-101 | fetching an account's nests never turns an involved pair uninvolved |
| GraphService.FetchedNestInvolved | src/services/graph-service.ts:79-101 | a lower-case project id returned for the account makes that pair involved, whatever the account's case |
| GraphService.FetchRawNotifications | src/services/graph-service.ts:36-54 | a failing request yields an empty batch; otherwise the response |
| GraphService.MemCache.constructor | src/services/graph-service.ts:7-14 | the four caches start empty |
| GraphService.MemCache.ProjectName | src/services/graph-service.ts:127-134 | the cached name of the lower-cased project, null when absent |
| GraphService.MemCache.ProjectLogo | src/services/graph-service.ts:136-143 | the cached logo of the lower-cased project, null when absent |
| GraphService.MemCache.IsAccountInvolved | src/services/graph-service.ts:147-155 | true iff the key "lower-cased nest + lower-cased account" is cached, and then it is the cached flag; false when absent |
| GraphService.MemCache.AccountFirstStakeTimestamp | src/services/graph-service.ts:158-165 | the cached first stake of the lower-cased account, null when absent |
| GraphService.MemCache.FetchProjectData | src/services/graph-service.ts:57-77 | the name and logo caches gain every returned project (no request for an empty list); a failed request reports failure; the other caches are unchanged |
| GraphService.MemCache.FetchAccountNests | src/services/graph-service.ts:79-101 | the involvement cache gains `(project + account, true)` for every returned nest; a null account changes nothing; the other caches are unchanged |
| GraphService.MemCache.FetchAccountFirstStakeTimestamp | src/services/graph-service.ts:103-123 | with no stake event it returns null and caches nothing; otherwise it caches and returns the first event's time |
| ReadState.AsSet | src/services/local-storage.ts:1-37 | the set holds exactly the listed timestamps |
| ReadState.ReadStore.constructor | src/services/local-storage.ts:1-37 | the store starts with nothing seen |
| ReadState.ReadStore.Has | src/services/filters/unread-notifications.ts:9-12 | a timestamp is present iff it is recorded for the account |
| ReadState.ReadStore.AddNotificationTimestamps | src/services/notification-stream.ts:182 | the listed timestamps become seen for the account, and nothing seen is forgotten |
| ReadState.ClearUnread | src/services/notification-stream.ts:176-180 | the pass yields the list with the listed timestamps marked read |
| ReadState.UnreadCount | src/services/notification-stream.ts:171-173 | the unread count never exceeds the list's length |
| ReadState.MarkedReadChangesOnlyListed | src/services/notification-stream.ts:176-180 | marking changes only `isUnread`, only on listed timestamps, and clears it there |
| ReadState.MarkAllLeavesNoneUnread | src/services/notification-stream.ts:190-193 | marking every entry's own timestamp leaves nothing unread |
| ReadState.MarkedReadTo | src/services/notification-stream.ts:195-200 | after marking up to t, an entry is unread iff it was unread and is newer than t |
| ReadState.UnreadCountPrepend | src/services/notification-stream.ts:171-173 | unread counts add up over a prepended batch |
| UnreadNotifications.MarkedUnread | src/services/filters/unread-notifications.ts:5-20 | the flagged list has the input's length |
| UnreadNotifications.MarkedUnreadFlags | src/services/filters/unread-notifications.ts:15-17 | only `isUnread` changes, it is "not seen", and entries that share a timestamp get the same flag |
| UnreadNotifications.MarkedUnreadAppend | src/services/filters/unread-notifications.ts:15-17 | flagging distributes over concatenation |
| UnreadNotifications.FilterUnreadNotifications | src/services/filters/unread-notifications.ts:5-20 | the same list, in the same order, with each flag set from the store |
| ProjectNameFilter.FilterProjectsNames | src/services/filters/project-name.ts:5-14 | the result is no longer than the input, every kept entry carries its cached name, and nothing is kept when no nest is named |
| ProjectNameFilter.FilterProjectsNamesShape | src/services/filters/project-name.ts:5-14 | the result is the named entries in input order, renamed, and a subsequence of the renamed input |
| ProjectNameFilter.NamedKeptIff | src/services/filters/project-name.ts:7-10 | an entry survives iff its nest has a cached name |
| ProjectNameFilter.FilterProjectsNamesIdempotent | src/services/filters/project-name.ts:5-14 | filtering twice is filtering once |
| ProjectDataFilter.FillProjectsData | src/services/filters/project-data.ts:6-32 | an error iff some entry has a null project and is not custom (the TypeError); otherwise no kept entry lacks a project, null projects are custom, and addressed ones carry their cached name and logo |
| ProjectDataFilter.FillStep | src/services/filters/project-data.ts:7-31 | the head contributes its filled copy exactly when the callback keeps it |
| ProjectDataFilter.FillProjectsDataShape | src/services/filters/project-data.ts:6-32 | without an error, the result is the kept entries in input order with their data filled in |
| ProjectDataFilter.AddressedKeptIff | src/services/filters/project-data.ts:19-30 | an addressed entry survives iff both its name and its logo are cached |
| AccountFilter.Decide | src/services/filters/account-notifiactions.ts:60-90 | the switch pushes a notification iff the admission rule holds for it |
| AccountFilter.LoopExit | src/services/filters/account-notifiactions.ts:49-52 | wherever the capped loop stops, it has collected the cap's prefix of the admitted entries |
| AccountFilter.FilterAccountNotifications | src/services/filters/account-notifiactions.ts:9-96 | the result is the admitted entries, cut to the cap and flagged from the store |
| AccountFilter.SelectedIsSubsequence | src/services/filters/account-notifiactions.ts:49-91 | the kept entries come from the input, in input order |
| AccountFilter.AccountFilteredLimit | src/services/filters/account-notifiactions.ts:14-16 | empty input gives nothing; a positive cap bounds the result and is reached when enough entries are admitted; 0 keeps every admitted entry; a negative cap keeps nothing |
| AccountFilter.CountdownHiddenNeverKept | src/services/filters/account-notifiactions.ts:78-79 | a hidden-countdown event never reaches the account |
| AccountFilter.KeptIff | src/services/filters/account-notifiactions.ts:60-90 | without a cap, an entry is kept iff its kind admits it: deal-flow and open-nest always; a countdown set to Deal Flow always; a hidden countdown never; a custom event without a project always; anything else only when the account is involved |
| AccountFilter.KeptIffAdmits | src/services/filters/account-notifiactions.ts:49-93 | without a cap, an entry is kept iff the switch pushes it |
| AccountFilter.MixedBatchExample | src/services/filters/account-notifiactions.ts:60-90 | an open-nest event and a global custom event are kept, and an event from a project the account is not in is dropped |
| GeneralFeed.WindowContents | src/services/general-notifications.ts:52-59 | an empty or inverted window is empty; otherwise it holds exactly the entries with `from < timestamp <= to`, in order |
| GeneralFeed.WindowMonotone | src/services/general-notifications.ts:52-59 | widening the upper end only adds entries |
| GeneralFeed.WindowPrepend | src/services/general-notifications.ts:52-59 | the window of a prepended batch is the batch's window in front of the old window |
| GeneralFeed.Nests | src/services/general-notifications.ts:16 | the project nest of every raw event, in order |
| GeneralFeed.Distinct | src/services/general-notifications.ts:16 | the same values without repeats, no longer, and the first one kept first |
| GeneralFeed.DistinctFirstOccurrence | src/services/general-notifications.ts:16 | the values keep first-occurrence order: whatever precedes a value in the result occurs in the input before any occurrence of that value |
| GeneralFeed.RawFiltered | src/services/general-notifications.ts:13-24 | a failed project request or a failed conversion yields an empty batch; when both succeed, the batch is exactly the conversion's result |
| GeneralFeed.GeneralNotifications.Create | src/services/general-notifications.ts:26-34 | the cache is the filtered batch of `(DateLimit, now]` and the mark is `now`, even when nothing came |
| GeneralFeed.GeneralNotifications.FilterRawNotifications | src/services/general-notifications.ts:13-24 | the batch's projects' names and logos are cached, and the result is the filtered batch |
| GeneralFeed.GeneralNotifications.GetNotifications | src/services/general-notifications.ts:52-59 | the cache's `(from, to]` window |
| GeneralFeed.GeneralNotifications.GetNotificationsSince | src/services/general-notifications.ts:62-65 | the window from `since` up to the clock reading |
| GeneralFeed.GeneralNotifications.GetNotificationsTo | src/services/general-notifications.ts:68-70 | the window from `DateLimit` up to `to` |
| GeneralFeed.GeneralNotifications.GetAllNotifications | src/services/general-notifications.ts:73-75 | the whole cache |
| GeneralFeed.GeneralNotifications.SyncNotifications | src/services/general-notifications.ts:78-94 | reports new entries iff the raw and the filtered batch are both non-empty; then the batch goes in front of the untouched old cache and the mark moves to its newest timestamp; otherwise neither the cache nor the mark changes; project names and logos are unchanged for an empty raw batch and otherwise are the stored answers of the projects query for the raw batch's distinct projects (`SyncedFeed`) |
| AccountView.SinceToSplit | src/services/account-notifications.ts:79-85 | `Since(t)` and `To(t)` split the list by timestamp with nothing lost |
| AccountView.NextPageBounds | src/services/account-notifications.ts:87-89 | a page is a prefix of the entries at or before the cursor, at most `limit` long, and full when enough entries exist |
| AccountView.NextPageOlder | src/services/account-notifications.ts:96-97 | the following page holds only entries older than this page's last |
| AccountView.PinnedCursorStaysEmpty | src/services/account-notifications.ts:91-93 | once the cursor is pinned at `DateLimit`, a list of later entries keeps yielding empty pages |
| AccountView.AccountNotifications.Create | src/services/account-notifications.ts:48-68 | the account is lower-cased, the seed list is filtered with the cap and freshly fetched nests, the mark is set iff something was kept, and the cursor is `now` |
| AccountView.AccountNotifications.SyncNotifications | src/services/account-notifications.ts:25-46 | nests are refreshed, the filtered batch goes in front of the list, the mark moves to `now` iff the batch is non-empty, and that is the answer |
| AccountView.AccountNotifications.GetNotifications | src/services/account-notifications.ts:70-77 | the list's `(from, to]` window |
| AccountView.AccountNotifications.GetNotificationsSince | src/services/account-notifications.ts:79-81 | exactly the entries newer than t, in order |
| AccountView.AccountNotifications.GetNotificationsTo | src/services/account-notifications.ts:83-85 | exactly the entries at or before t, in order |
| AccountView.AccountNotifications.GetNextNotifications | src/services/account-notifications.ts:87-100 | returns the page below the cursor; the cursor moves one below the page's oldest entry, or to `DateLimit` after an empty page |
| AccountView.AccountNotifications.ResetNextNotifications | src/services/account-notifications.ts:102-104 | the cursor returns to `now`, and nothing else changes |
| AccountView.AccountNotifications.MarkNotificationsAsRead | src/services/account-notifications.ts:107-119 | the entries at t are read, the store gains exactly t for the account, and the cursor and mark are unchanged |
| AccountView.AccountNotifications.MarkAllNotificationsAsRead | src/services/account-notifications.ts:121-128 | every entry is read, the store gains exactly the list's timestamps for the account, and the cursor and mark are unchanged |
| AccountView.AccountNotifications.UnreadNotificationsNumber | src/services/account-notifications.ts:130-132 | zero iff no entry is unread, and never more than the list's length |
| NotificationStreams.OrDefault | src/services/notification-stream.ts:107-108 | an absent option takes its default |
| NotificationStreams.StartMark | src/services/notification-stream.ts:71-78 | a set mark stands; a zero mark takes a truthy first stake; the sync starts nowhere iff there is neither |
| NotificationStreams.ReadTo | src/services/notification-stream.ts:195-200 | marking up to t keeps the list's length |
| NotificationStreams.ReadToClears | src/services/notification-stream.ts:195-200 | afterwards an entry is unread iff it was unread and is newer than t, and nothing else in it changes |
| NotificationStreams.CappedPrepend | src/services/notification-stream.ts:92-94 | the capped list is within a non-negative cap, is a prefix of batch followed by old list, and keeps the old list's order |
| NotificationStreams.SyncedList | src/services/notification-stream.ts:92-97 | after a sync the list is within the cap, nothing at or before the read horizon is unread, and every entry is a batch or old entry |
| NotificationStreams.NotificationStream.Create | src/services/notification-stream.ts:116-149 | the options or their defaults are set, with the page size left undefined for a falsy one; the account is lower-cased and its first stake looked up and cached; a non-staking account gets nothing; otherwise the first sync prepends the filtered window after the first stake, marks old entries read in the list and the store, refreshes the nests and sets the mark; the timer runs and nothing is shown |
| NotificationStreams.NotificationStream.Prepend | src/services/notification-stream.ts:80-94 | nests are refreshed, and the batch is the cache window since the mark, filtered and put in front of the list under the cap |
| NotificationStreams.NotificationStream.SyncNotifications | src/services/notification-stream.ts:68-105 | with neither a mark nor a truthy first stake nothing changes; otherwise the nests are refreshed, the batch is the filtered cache window after the mark, the list is the batch prepended and capped with entries up to `now - markAsReadLimit` marked read in the list and the store, and the mark moves to `now` iff the batch is non-empty; the options and the shown window are unchanged |
| NotificationStreams.NotificationStream.SetOptions | src/services/notification-stream.ts:107-114 | each option or its default is set; a truthy merged page size replaces the current one, a falsy one leaves it (undefined at first); nothing is shown |
| NotificationStreams.NotificationStream.Reset | src/services/notification-stream.ts:158-163 | a truthy page size replaces the current one, a falsy one leaves it, and nothing is shown |
| NotificationStreams.NotificationStream.LoadMore | src/services/notification-stream.ts:153-156 | one more page is shown and the hook gets the first `loadSize` entries (all if fewer); with an undefined page size `loadSize` becomes NaN and the hook gets nothing |
| NotificationStreams.NotificationStream.GetNotificationsLength | src/services/notification-stream.ts:165-167 | the list's length |
| NotificationStreams.NotificationStream.UnreadNotificationsNumber | src/services/notification-stream.ts:171-173 | zero iff no entry is unread, and never more than the list's length |
| NotificationStreams.NotificationStream.UpdateReadStatus | src/services/notification-stream.ts:175-183 | the listed timestamps' entries are read, the store gains exactly those timestamps for the account, and nothing else changes |
| NotificationStreams.NotificationStream.MarkNotificationAsRead | src/services/notification-stream.ts:186-188 | the entries at t are read, the store gains exactly t for the account, and the mark, the shown window, the options and the timer are unchanged |
| NotificationStreams.NotificationStream.MarkAllNotificationsAsRead | src/services/notification-stream.ts:190-193 | every entry is read, the store gains exactly the list's timestamps for the account, and the mark, the shown window, the options and the timer are unchanged |
| NotificationStreams.NotificationStream.MarkNotificationsAsReadTo | src/services/notification-stream.ts:195-200 | the entries at or before t are read, the store gains exactly their timestamps for the account, and nothing else changes |
| NotificationStreams.NotificationStream.SetupSyncInterval | src/services/notification-stream.ts:204-219 | any running timer is replaced by the new one |
| NotificationStreams.NotificationStream.ClearSyncInterval | src/services/notification-stream.ts:221-226 | no timer runs afterwards, and clearing a stopped stream changes nothing |
| NotificationStreams.NotificationStream.StopSyncing | src/services/notification-stream.ts:229-231 | no timer runs afterwards, and stopping a stopped stream changes nothing; the list, account, mark, shown window, page size, first stake and the three options are unchanged |
| NotificationStreams.NotificationStream.Tick | src/services/notification-stream.ts:207-217 | reports exactly whether the general sync brought new entries; the general cache, mark, project names and logos end as the general `SyncNotifications` leaves them (`SyncedFeed`); if nothing came, the stream, the store and the involvement map are unchanged; if so, the stream syncs against the grown cache as `SyncNotifications` does; the shown window grows by the batch's size, the hook gets the first `loadSize` entries iff the batch is non-empty, and first stakes and settings are unchanged |
| NotificationServices.FreshViewWindowEmpty | src/services/notification-service.ts:92-95 | a view whose mark is `now` or undefined is handed an empty window |
| NotificationServices.NothingFiltered | src/services/filters/account-notifiactions.ts:14-16 | an empty batch passes nothing through the account filter |
| NotificationServices.NotificationService.Create | src/services/notification-service.ts:11-26 | the service starts with the given general feed and no account views |
| NotificationServices.NotificationService.UpdateAccount | src/services/notification-service.ts:28-52 | returns the view registered under the lower-cased account; an existing view is returned unchanged; otherwise a fresh view is seeded from the cache after a truthy first stake and registered, with nests refreshed |
| NotificationServices.NotificationService.UnreadNotificationsNumber | src/services/notification-service.ts:54-57 | the unread count of that account's view; the registry gains at most that view, which holds the list, cursor and mark `UpdateAccount` gives it; the memo cache changes only by a new view's nests fetch (`MemoUpdated`); every other view keeps its list, cursor and mark |
| NotificationServices.NotificationService.MarkAccountNotificationsAsRead | src/services/notification-service.ts:59-62 | the registry gains at most that account's view; the entries at t are read in it, the store gains exactly t for the account, the view's cursor and mark are those `UpdateAccount` gives it, the memo cache changes only by a new view's nests fetch (`MemoUpdated`), and every other view keeps its list, cursor and mark |
| NotificationServices.NotificationService.MarkAllAccountNotificationsAsRead | src/services/notification-service.ts:64-67 | the registry gains at most that account's view; every entry of it is read, the store gains exactly the view's timestamps for the account, the view's cursor and mark are those `UpdateAccount` gives it, the memo cache changes only by a new view's nests fetch (`MemoUpdated`), and every other view keeps its list, cursor and mark |
| NotificationServices.NotificationService.GetNextNotifications | src/services/notification-service.ts:71-74 | the registry gains at most that account's view; its next page, with its cursor moved past the page; its list and mark are those `UpdateAccount` gives it, the memo cache changes only by a new view's nests fetch (`MemoUpdated`), and every other view keeps its list, cursor and mark |
| NotificationServices.NotificationService.ResetNextNotifications | src/services/notification-service.ts:77-80 | the registry gains at most that account's view; its cursor returns to `now`; its list and mark are those `UpdateAccount` gives it, the memo cache changes only by a new view's nests fetch (`MemoUpdated`), and every other view keeps its list, cursor and mark |
| NotificationServices.NotificationService.SyncAccountNotifications | src/services/notification-service.ts:82-98 | the general cache, mark, names and logos end as the general sync leaves them (`SyncedFeed`); false with the view as `UpdateAccount` made it when that sync brings nothing; otherwise the cache window after the view's mark is synced into the view, its nests are fetched again, and the answer is whether it added anything; the view's cursor is unchanged; first stakes are unchanged; every other view keeps its list, cursor and mark; a view created by this call answers false (see Left out) |
| NotificationServices.NotificationService.SyncView | src/services/notification-service.ts:85-97 | the general sync as `SyncedFeed` states it, then, if it brought entries, the view's sync of the cache window after its mark with its nests fetched again; the view's cursor and first stakes are unchanged |
| NotificationServices.NotificationService.MarkView | src/services/notification-service.ts:59-62 | the mark-one step on a registered view: exactly t is read in it and in the store, its cursor and mark are unchanged, and every other view keeps its list, cursor and mark |
| NotificationServices.NotificationService.MarkAllView | src/services/notification-service.ts:64-67 | the mark-all step on a registered view: every entry is read, the store gains exactly its timestamps, cursor and mark are unchanged, and every other view keeps its list, cursor and mark |
| NotificationServices.NotificationService.NextView | src/services/notification-service.ts:71-74 | the paging step on a registered view: the next page after its cursor, the cursor moved past it, list and mark unchanged, and every other view kept |
| NotificationServices.NotificationService.ViewsDistinct | src/services/notification-service.ts:11 | distinct account keys hold distinct views |

## Left out

- In the source, notification objects are shared by reference, and the flag updates made by `forEach` are visible through every list that holds them. The model copies notifications by value, so updates made through one list are not seen through another, as they are in the source.
- `await`, promises and concurrent interval callbacks are not modelled. Each operation runs to completion, and one run of the timer is the explicit `Tick` method.
- `setInterval` and `clearInterval` are not modelled: the timer handle is a parameter, and only whether a timer runs is tracked.
- The clock is a parameter `now`. Where the source reads `Date.now()` more than once in one call, the model reads it once.
- SyncAccountNotifications: the clause that a view created by the same call answers false holds only because the clock is read once. In the source, the new view reads `Date.now()` for its cursor and mark before it awaits the nests request, and the facade reads it again afterwards. Events the general sync brings with timestamps between the two readings can then reach the new view, which answers true.
- `toLowerCase` covers ASCII letters only. The Unicode case mapping is not modelled.
- `Date.prototype.toISOString` is an uninterpreted function of the instant.
- `JSON.parse` is an uninterpreted function that keeps only the fields the classifier reads.
- `fromRawNotifications` is a parameter, `None` when it throws, because `src/services/types/notification.ts` in the source does not define it.
- The `project`, `isUnread` and `content` fields of a notification are modelled as the callers use them; the source's `Notification` interface does not declare the first two.
- `LocalStorage` persistence (JSON serialisation, the browser's storage and its key format) is not modelled. The read store is an in-memory map of sets, because the source's `LocalStorage` class does not define the add and query operations its callers use.
- In the nests and first-stake queries, a request that rejects would make the calling operation reject. This is not modelled: those queries are assumed to answer, and only a null `account` or an empty event list is modelled.
- `EarlyStageService.fetchAccountFirstStakeTimestamp` and `accountFirstStakeTimestamp`, as called by the facade, are not part of this model. The first stake the facade sees is a parameter, because the source's `EarlyStageService` does not define them.
- `EarlyStageService.fetchAccountNests`, `projectName` and `projectLogo` are read as the graph service's operations of the same name.
- The blockchain service, the configuration, the GraphQL query texts and the React components are not part of this model.
- The notification hook is modelled as the list that `LoadMore` and `Tick` return. The hook's own effects are not modelled.
- An option given explicitly as `undefined` overrides its default in the source's object spread. The model treats it as absent.
- A stream's `pageSize` and `loadSize` can be any JavaScript number. The model uses integers, with `None` standing for `undefined` (a page size never set truthily) and for `NaN` (what adding an undefined page size makes of `loadSize`). Fractional and infinite values are not modelled.
- Where the code and its documentation disagree, the model follows the code:
  - a countdown message embeds only the date, not a phase name;
  - events of the default kinds are gated only by the account's involvement;
  - the comment on the feed's start date says 1 January 2024, but `Date.UTC(2024, 1, 1)` is 1 February 2024, which the model uses.
