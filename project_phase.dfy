/** Project phases and their display names (src/services/types/project-phase.ts). */
module ProjectPhase {
  import opened Base

  datatype Phase =
    | Rejected             // 0
    | Pending              // 1
    | DealFlow             // 2
    | Analysis             // 3
    | InvestmentCommittee  // 4
    | Refunded             // 5
    | Portfolio            // 6

  function PhaseCode(p: Phase): (c: int)
    ensures 0 <= c <= 6
  {
    match p
    case Rejected => 0
    case Pending => 1
    case DealFlow => 2
    case Analysis => 3
    case InvestmentCommittee => 4
    case Refunded => 5
    case Portfolio => 6
  }

  lemma PhaseCodeInjective(p: Phase, q: Phase)
    requires PhaseCode(p) == PhaseCode(q)
    ensures p == q
  {
  }

  /** `mapProjectPhase`: Rejected, Pending and unknown numbers throw "Invalid phase". */
  function MapProjectPhase(phase: int): (r: Result<string>)
    ensures r.Ok? <==> 2 <= phase <= 6
    ensures r.Err? ==> r.error == "Invalid phase"
    ensures phase == PhaseCode(DealFlow) ==> r == Ok("Deal Flow")
    ensures phase == PhaseCode(Analysis) ==> r == Ok("Analysis")
    ensures phase == PhaseCode(InvestmentCommittee) ==> r == Ok("Investment Committee")
    ensures phase == PhaseCode(Refunded) ==> r == Ok("Refunded")
    ensures phase == PhaseCode(Portfolio) ==> r == Ok("Portfolio")
  {
    if phase == 2 then Ok("Deal Flow")
    else if phase == 3 then Ok("Analysis")
    else if phase == 4 then Ok("Investment Committee")
    else if phase == 5 then Ok("Refunded")
    else if phase == 6 then Ok("Portfolio")
    else Err("Invalid phase")
  }

  /** Distinct valid phases get distinct names. */
  lemma MapProjectPhaseInjective(a: int, b: int)
    requires MapProjectPhase(a).Ok? && MapProjectPhase(b).Ok? && a != b
    ensures MapProjectPhase(a).value != MapProjectPhase(b).value
  {
    var na, nb := MapProjectPhase(a).value, MapProjectPhase(b).value;
    assert na[0] != nb[0] || |na| != |nb|;
  }
}
