/** Event kinds and their readable messages (src/services/types/event-type.ts). */
module EventTypes {
  import opened Base

  datatype EventType =
    | NewProjectOnDealFlow        // 0
    | NestIsOpen                  // 1
    | MovedToAnalysis             // 2
    | MovedToInvestmentCommittee  // 3
    | ClaimUsdcExcess             // 4
    | AvailableOnPortfolio        // 5
    | TgeAvailableNow             // 6
    | CountdownSet                // 7
    | CountdownHidden             // 8
    | CustomNotification          // 9

  /** The number a TypeScript numeric enum gives each kind. */
  function Code(e: EventType): (c: int)
    ensures 0 <= c <= 9
  {
    match e
    case NewProjectOnDealFlow => 0
    case NestIsOpen => 1
    case MovedToAnalysis => 2
    case MovedToInvestmentCommittee => 3
    case ClaimUsdcExcess => 4
    case AvailableOnPortfolio => 5
    case TgeAvailableNow => 6
    case CountdownSet => 7
    case CountdownHidden => 8
    case CustomNotification => 9
  }

  /** The kind a number stands for; numbers outside 0..9 name no kind. */
  function FromCode(c: int): (r: Option<EventType>)
    ensures r.Some? <==> 0 <= c <= 9
    ensures r.Some? ==> Code(r.value) == c
  {
    if c == 0 then Some(NewProjectOnDealFlow)
    else if c == 1 then Some(NestIsOpen)
    else if c == 2 then Some(MovedToAnalysis)
    else if c == 3 then Some(MovedToInvestmentCommittee)
    else if c == 4 then Some(ClaimUsdcExcess)
    else if c == 5 then Some(AvailableOnPortfolio)
    else if c == 6 then Some(TgeAvailableNow)
    else if c == 7 then Some(CountdownSet)
    else if c == 8 then Some(CountdownHidden)
    else if c == 9 then Some(CustomNotification)
    else None
  }

  lemma CodeRoundTrip(e: EventType)
    ensures FromCode(Code(e)) == Some(e)
  {
  }

  /**
   * The optional parameters of `mapEventType`. An absent `optional` argument is the value
   * with every field `None`, since the source checks `optional === undefined` and the field
   * being undefined in the same branch.
   */
  datatype EventTypeOpt = EventTypeOpt(
    ceTokenSymbol: Option<string>,
    actionTimestamp: Option<int>,
    customMessage: Option<string>)

  const NoOpt := EventTypeOpt(None, None, None)

  /** Date.prototype.toISOString of the instant `ms` milliseconds after the epoch: not interpreted here. */
  const IsoOf: int -> string

  /** The fixed message of a kind that needs no parameter. */
  function FixedMessage(e: EventType): Option<string>
  {
    match e
    case NewProjectOnDealFlow => Some("New project on Deal Flow")
    case NestIsOpen => Some("NEST is now open")
    case MovedToAnalysis => Some("Moved to Analysis")
    case MovedToInvestmentCommittee => Some("Moved to Investment Committee")
    case ClaimUsdcExcess => Some("Claim your USDC excess")
    case TgeAvailableNow => Some("TGE available now")
    case CountdownHidden => Some("Countdown hidden")
    case _ => None
  }

  /** `mapEventType`: a thrown Error becomes `Err` with the error's message. */
  function MapEventType(kind: int, opt: EventTypeOpt): (r: Result<string>)
    ensures FromCode(kind).None? ==> r == Err("Invalid event type")
    ensures kind == 0 ==> r == Ok("New project on Deal Flow")
    ensures kind == 1 ==> r == Ok("NEST is now open")
    ensures kind == 2 ==> r == Ok("Moved to Analysis")
    ensures kind == 3 ==> r == Ok("Moved to Investment Committee")
    ensures kind == 4 ==> r == Ok("Claim your USDC excess")
    ensures kind == 6 ==> r == Ok("TGE available now")
    ensures kind == 8 ==> r == Ok("Countdown hidden")
    ensures kind == 5 ==> (r.Ok? <==> opt.ceTokenSymbol.Some?)
    ensures kind == 5 && r.Ok? ==> r.value == opt.ceTokenSymbol.value + " now available on Portfolio"
    ensures kind == 7 ==> (r.Ok? <==> opt.actionTimestamp.Some?)
    ensures kind == 7 && r.Ok? ==> r.value == "Countdown set to " + IsoOf(opt.actionTimestamp.value * 1000)
    ensures kind == 9 ==> (r.Ok? <==> opt.customMessage.Some?)
    ensures kind == 9 && r.Ok? ==> r.value == opt.customMessage.value
  {
    match FromCode(kind)
    case None => Err("Invalid event type")
    case Some(AvailableOnPortfolio) =>
      if opt.ceTokenSymbol.None? then Err("ceTokenSymbol is required for AvailableOnPortfolio")
      else Ok(opt.ceTokenSymbol.value + " now available on Portfolio")
    case Some(CountdownSet) =>
      if opt.actionTimestamp.None? then Err("actionTimestamp is required for CountdownSet")
      else Ok("Countdown set to " + IsoOf(opt.actionTimestamp.value * 1000))
    case Some(CustomNotification) =>
      if opt.customMessage.None? then Err("customNotification is required for CustomNotification")
      else Ok(opt.customMessage.value)
    case Some(e) => Ok(FixedMessage(e).value)
  }

  /** The one optional field a kind reads (none for the fixed kinds). */
  function NeededField(kind: int, opt: EventTypeOpt): EventTypeOpt
  {
    if kind == 5 then EventTypeOpt(opt.ceTokenSymbol, None, None)
    else if kind == 7 then EventTypeOpt(None, opt.actionTimestamp, None)
    else if kind == 9 then EventTypeOpt(None, None, opt.customMessage)
    else NoOpt
  }

  /** The message depends only on the kind and the one optional field that kind needs. */
  lemma MapEventTypeReadsOnlyNeededField(kind: int, o1: EventTypeOpt, o2: EventTypeOpt)
    requires NeededField(kind, o1) == NeededField(kind, o2)
    ensures MapEventType(kind, o1) == MapEventType(kind, o2)
  {
  }

  /** Distinct kinds with a fixed message have distinct messages, so the message identifies the kind. */
  lemma FixedMessagesDistinct(a: EventType, b: EventType)
    requires FixedMessage(a).Some? && FixedMessage(b).Some? && a != b
    ensures FixedMessage(a) != FixedMessage(b)
  {
  }
}
