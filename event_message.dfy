/**
 * The event classifier's message rendering (src/services/filters/event-message.ts): the
 * countdown payload's next phase, and the message of every event kind, or null when the
 * event is dropped.
 */
module EventMessage {
  import opened Base
  import opened NotificationTypes
  import opened EventTypes
  import opened ProjectPhase

  // ---------------------------------------------------------------------------
  // JSON.parse, not interpreted here: only the fields the classifier reads are kept.

  /**
   * A countdown payload after JSON.parse: its `type` and its `phaseId`, each present only
   * when it is a string (any other `phaseId` makes `.match` throw).
   */
  datatype ContentJson = ContentJson(kind: Option<string>, phaseId: Option<string>)

  /** JSON.parse of a content text; `None` when it throws or yields a value without properties. */
  const ParseContent: string -> Option<ContentJson>

  /** `JSON.parse(additionalData).ceToken`: its `symbol` field, which may be undefined. */
  datatype TokenData = TokenData(ceTokenSymbol: Option<string>)

  /** `None` when JSON.parse throws or the parsed value has no `ceToken` (a TypeError). */
  const ParseAdditionalData: string -> Option<TokenData>

  // ---------------------------------------------------------------------------
  // The regular expression /\[p(\d+)\]/ and parseInt

  predicate IsDigit(c: char)
  {
    '0' <= c <= '9'
  }

  /** Length of the longest run of digits starting at `i` (what the greedy `\d+` takes). */
  function DigitRun(s: string, i: nat): (k: nat)
    requires i <= |s|
    ensures i + k <= |s|
    ensures forall j :: i <= j < i + k ==> IsDigit(s[j])
    ensures i + k < |s| ==> !IsDigit(s[i + k])
    decreases |s| - i
  {
    if i < |s| && IsDigit(s[i]) then 1 + DigitRun(s, i + 1) else 0
  }

  /** The pattern matches at `i`: `[p`, one or more digits, then `]`. */
  predicate MatchAt(s: string, i: nat)
  {
    i + 2 <= |s| && s[i] == '[' && s[i + 1] == 'p' &&
    var k := DigitRun(s, i + 2);
    1 <= k && i + 2 + k < |s| && s[i + 2 + k] == ']'
  }

  /** `i` is the leftmost position of `s` where the pattern matches. */
  predicate LeftmostMatchAt(s: string, i: nat)
  {
    i < |s| && MatchAt(s, i) && forall j :: 0 <= j < i ==> !MatchAt(s, j)
  }

  /** The leftmost position at or after `from` where the pattern matches. */
  function FindPhaseTag(s: string, from: nat): (r: Option<nat>)
    requires from <= |s|
    ensures r.Some? ==> from <= r.value < |s| && MatchAt(s, r.value)
    ensures r.Some? ==> forall j :: from <= j < r.value ==> !MatchAt(s, j)
    ensures r.None? ==> forall j :: from <= j < |s| ==> !MatchAt(s, j)
    decreases |s| - from
  {
    if from == |s| then None
    else if MatchAt(s, from) then Some(from)
    else FindPhaseTag(s, from + 1)
  }

  /** `phaseId.match(/\[p(\d+)\]/)?.[1]`: the digits of the first match. */
  function PhaseTagDigits(s: string): (r: Option<string>)
    ensures r.Some? ==> |r.value| >= 1 && forall j :: 0 <= j < |r.value| ==> IsDigit(r.value[j])
  {
    match FindPhaseTag(s, 0)
    case None => None
    case Some(i) => Some(s[i + 2 .. i + 2 + DigitRun(s, i + 2)])
  }

  function DigitValue(c: char): nat
  {
    if IsDigit(c) then c as int - '0' as int else 0
  }

  /** parseInt of a string of decimal digits. */
  function DecimalValue(ds: string): nat
  {
    if ds == [] then 0 else 10 * DecimalValue(ds[..|ds| - 1]) + DigitValue(ds[|ds| - 1])
  }

  /** The decimal numeral of `n`, without leading zeros. */
  function DecimalString(n: nat): (ds: string)
    ensures |ds| >= 1 && forall j :: 0 <= j < |ds| ==> IsDigit(ds[j])
  {
    if n < 10 then [('0' as int + n) as char]
    else DecimalString(n / 10) + [('0' as int + n % 10) as char]
  }

  lemma {:induction false} DecimalRoundTrip(n: nat)
    ensures DecimalValue(DecimalString(n)) == n
  {
    var ds := DecimalString(n);
    if n >= 10 {
      assert ds[..|ds| - 1] == DecimalString(n / 10);
      DecimalRoundTrip(n / 10);
    }
  }

  lemma {:induction false} DigitRunExact(s: string, i: nat, k: nat)
    requires i + k <= |s|
    requires forall j :: i <= j < i + k ==> IsDigit(s[j])
    requires i + k < |s| ==> !IsDigit(s[i + k])
    ensures DigitRun(s, i) == k
    decreases k
  {
    if k > 0 {
      DigitRunExact(s, i + 1, k - 1);
    }
  }

  /** A phase id that starts with a tag yields exactly that tag's digits. */
  lemma PhaseTagRoundTrip(n: nat, suffix: string)
    ensures PhaseTagDigits("[p" + DecimalString(n) + "]" + suffix) == Some(DecimalString(n))
  {
    var ds := DecimalString(n);
    var s := "[p" + ds + "]" + suffix;
    DigitRunExact(s, 2, |ds|);
    assert MatchAt(s, 0);
    assert s[2 .. 2 + |ds|] == ds;
  }

  // ---------------------------------------------------------------------------
  // Messages

  /** `getCountdownNextPhase`: the phase number a countdown payload names, or null. */
  function GetCountdownNextPhase(raw: RawNotification): (r: Option<int>)
    ensures raw.content.None? ==> r.None?
    ensures r.Some? ==> 0 <= r.value
    ensures r.Some? ==> ParseContent(raw.content.value.content).Some?
    ensures r.Some? ==> ParseContent(raw.content.value.content).value.kind == Some("nextPhase")
  {
    match raw.content
    case None => None
    case Some(c) =>
      match ParseContent(c.content)
      case None => None
      case Some(json) =>
        if json.kind != Some("nextPhase") then None
        else if json.phaseId.None? then None
        else
          match PhaseTagDigits(json.phaseId.value)
          case None => None
          case Some(ds) => Some(DecimalValue(ds))
  }

  /** A payload of type "nextPhase" whose phase id opens with `[p<n>]` names phase `n`. */
  lemma CountdownNextPhaseOfTag(raw: RawNotification, n: nat, suffix: string)
    requires raw.content.Some?
    requires ParseContent(raw.content.value.content) ==
             Some(ContentJson(Some("nextPhase"), Some("[p" + DecimalString(n) + "]" + suffix)))
    ensures GetCountdownNextPhase(raw) == Some(n)
  {
    PhaseTagRoundTrip(n, suffix);
    DecimalRoundTrip(n);
  }

  /** For a "nextPhase" payload the result is the value of the tag digits of its phase id. */
  lemma NextPhaseOfPhaseId(raw: RawNotification, p: string)
    requires raw.content.Some?
    requires ParseContent(raw.content.value.content) == Some(ContentJson(Some("nextPhase"), Some(p)))
    ensures PhaseTagDigits(p).None? ==> GetCountdownNextPhase(raw).None?
    ensures PhaseTagDigits(p).Some? ==> GetCountdownNextPhase(raw) == Some(DecimalValue(PhaseTagDigits(p).value))
  {
  }

  /** The digits `PhaseTagDigits` takes once the leftmost match is known. */
  lemma TagDigitsAt(s: string, i: nat)
    requires FindPhaseTag(s, 0) == Some(i)
    ensures i + 2 <= |s|
    ensures PhaseTagDigits(s) == Some(s[i + 2 .. i + 2 + DigitRun(s, i + 2)])
  {
  }

  /** The search from `from` finds `i` when `i` is the first match at or after `from`. */
  lemma LeftmostMatch(s: string, from: nat, i: nat)
    requires from <= i < |s| && MatchAt(s, i)
    requires forall j :: from <= j < i ==> !MatchAt(s, j)
    ensures FindPhaseTag(s, from) == Some(i)
  {
    var t := FindPhaseTag(s, from);
    assert t.Some?;
    assert t.value >= i;
    assert t.value <= i;
  }

  /**
   * A payload of type "nextPhase" with phase id `p` has a next phase exactly when the pattern
   * matches somewhere in `p`, and then it is the value of the digits of the leftmost match,
   * whatever text comes before the tag.
   */
  lemma CountdownNextPhaseOfPhaseId(raw: RawNotification, p: string)
    requires raw.content.Some?
    requires ParseContent(raw.content.value.content) == Some(ContentJson(Some("nextPhase"), Some(p)))
    ensures GetCountdownNextPhase(raw).Some? <==> exists i :: 0 <= i < |p| && MatchAt(p, i)
    ensures forall i: nat :: LeftmostMatchAt(p, i) ==>
      GetCountdownNextPhase(raw) == Some(DecimalValue(p[i + 2 .. i + 2 + DigitRun(p, i + 2)]))
  {
    NextPhaseOfPhaseId(raw, p);
    forall i: nat | LeftmostMatchAt(p, i)
      ensures GetCountdownNextPhase(raw) == Some(DecimalValue(p[i + 2 .. i + 2 + DigitRun(p, i + 2)]))
    {
      LeftmostMatch(p, 0, i);
      TagDigitsAt(p, i);
    }
    if FindPhaseTag(p, 0).Some? {
      assert MatchAt(p, FindPhaseTag(p, 0).value);
    }
  }

  /** parseInt ignores leading zeros: `[p007]` names phase 7. */
  lemma {:induction false} DecimalLeadingZero(ds: string)
    ensures DecimalValue("0" + ds) == DecimalValue(ds)
    decreases |ds|
  {
    if ds != [] {
      assert ("0" + ds)[..|"0" + ds| - 1] == "0" + ds[..|ds| - 1];
      DecimalLeadingZero(ds[..|ds| - 1]);
    }
  }

  /** `countdownSetEventMessage`: Pending and Rejected phases, and payloads without a phase, are dropped. */
  function CountdownSetEventMessage(raw: RawNotification): (r: Result<Option<string>>)
    ensures GetCountdownNextPhase(raw).None? ==> r == Ok(None)
    ensures GetCountdownNextPhase(raw) == Some(PhaseCode(Pending)) ==> r == Ok(None)
    ensures GetCountdownNextPhase(raw) == Some(PhaseCode(Rejected)) ==> r == Ok(None)
    ensures raw.eventType == Code(CountdownSet) && r.Ok? && r.value.Some? ==>
              r.value.value == "Countdown set to " + IsoOf(raw.timestamp * 1000)
  {
    var phaseId := GetCountdownNextPhase(raw);
    if phaseId.None? then Ok(None)
    else if phaseId.value == PhaseCode(Pending) || phaseId.value == PhaseCode(Rejected) then Ok(None)
    else
      match MapEventType(raw.eventType, EventTypeOpt(None, Some(raw.timestamp), None))
      case Err(e) => Err(e)
      case Ok(m) => Ok(Some(m))
  }

  /** `customNotificationEventMessage`: the content text verbatim, or null without content. */
  function CustomNotificationEventMessage(raw: RawNotification): (r: Result<Option<string>>)
    ensures raw.content.None? ==> r == Ok(None)
    ensures raw.eventType == Code(CustomNotification) && raw.content.Some? ==>
              r == Ok(Some(raw.content.value.content))
  {
    if raw.content.None? then Ok(None)
    else
      match MapEventType(raw.eventType, EventTypeOpt(None, None, Some(raw.content.value.content)))
      case Err(e) => Err(e)
      case Ok(m) => Ok(Some(m))
  }

  /**
   * `notificationEventMessage`: `Ok(Some(m))` is a message, `Ok(None)` the source's null (the
   * event is dropped), `Err` an error the function lets escape.
   */
  function NotificationEventMessage(raw: RawNotification): (r: Result<Option<string>>)
    ensures FromCode(raw.eventType).None? ==> r == Err("Invalid event type")
    ensures raw.eventType == Code(CountdownHidden) ==> r == Ok(None)
    ensures raw.eventType in {0, 1, 2, 3, 4, 6} ==>
              r == Ok(Some(FixedMessage(FromCode(raw.eventType).value).value))
    ensures raw.eventType == Code(CustomNotification) ==>
              r == if raw.content.None? then Ok(None) else Ok(Some(raw.content.value.content))
  {
    match FromCode(raw.eventType)
    case Some(AvailableOnPortfolio) =>
      (match ParseAdditionalData(raw.additionalData)
       case None => Err("Cannot read properties of undefined (reading 'symbol')")
       case Some(token) =>
         match MapEventType(raw.eventType, EventTypeOpt(token.ceTokenSymbol, None, None))
         case Err(e) => Err(e)
         case Ok(m) => Ok(Some(m)))
    case Some(CountdownSet) => CountdownSetEventMessage(raw)
    case Some(CountdownHidden) => Ok(None)
    case Some(CustomNotification) => CustomNotificationEventMessage(raw)
    case _ =>
      match MapEventType(raw.eventType, NoOpt)
      case Err(e) => Err(e)
      case Ok(m) => Ok(Some(m))
  }

  /** A countdown-set event is dropped for a missing, Pending or Rejected next phase, else dated. */
  lemma CountdownSetMessage(raw: RawNotification)
    requires raw.eventType == Code(CountdownSet)
    ensures var phase := GetCountdownNextPhase(raw);
      NotificationEventMessage(raw) ==
        if phase.None? || phase.value == PhaseCode(Pending) || phase.value == PhaseCode(Rejected)
        then Ok(None)
        else Ok(Some("Countdown set to " + IsoOf(raw.timestamp * 1000)))
  {
  }

  /**
   * An available-on-portfolio event names its token's symbol; unparsable data or a missing
   * symbol is an error.
   */
  lemma AvailableOnPortfolioMessage(raw: RawNotification)
    requires raw.eventType == Code(AvailableOnPortfolio)
    ensures var token := ParseAdditionalData(raw.additionalData);
      var r := NotificationEventMessage(raw);
      && (r.Ok? <==> token.Some? && token.value.ceTokenSymbol.Some?)
      && (r.Ok? ==> r.value == Some(token.value.ceTokenSymbol.value + " now available on Portfolio"))
  {
  }
}
