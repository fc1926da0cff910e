/** GameSettings: the configuration shared between scenes (years, monthly amount, risk tier). */
module Settings {

  import opened Risk

  const DefaultTotalYears: int := 15
  const DefaultMonthlyAmount: int := 10000
  const DefaultRiskType: RiskType := Medium

  /** The tier SetRiskTypeByIndex selects: 0, 1, 2 name Low, Medium, High; any other index means Medium. */
  function RiskTypeFromIndex(index: int): (r: RiskType)
    ensures r == Low <==> index == 0
    ensures r == High <==> index == 2
    ensures r == Medium <==> index != 0 && index != 2
  {
    match index
    case 0 => Low
    case 1 => Medium
    case 2 => High
    case _ => Medium
  }

  class GameSettings {
    var totalYears: int
    var monthlyAmount: int
    var riskType: RiskType

    /** The declared initial values of the three settings. */
    constructor ()
      ensures totalYears == DefaultTotalYears && monthlyAmount == DefaultMonthlyAmount && riskType == DefaultRiskType
    {
      totalYears := DefaultTotalYears;
      monthlyAmount := DefaultMonthlyAmount;
      riskType := DefaultRiskType;
    }

    /** Stores the amount, raising a negative one to 0; the other settings are untouched. */
    method SetMonthlyAmount(amount: int)
      modifies this
      ensures monthlyAmount >= 0
      ensures amount >= 0 ==> monthlyAmount == amount
      ensures amount < 0 ==> monthlyAmount == 0
      ensures totalYears == old(totalYears) && riskType == old(riskType)
    {
      var stored := amount;
      if stored < 0 {
        stored := 0;
      }
      monthlyAmount := stored;
    }

    method SetRiskType(newRiskType: RiskType)
      modifies this
      ensures riskType == newRiskType
      ensures totalYears == old(totalYears) && monthlyAmount == old(monthlyAmount)
    {
      riskType := newRiskType;
    }

    method SetRiskTypeByIndex(index: int)
      modifies this
      ensures riskType == RiskTypeFromIndex(index)
      ensures totalYears == old(totalYears) && monthlyAmount == old(monthlyAmount)
    {
      match index {
        case 0 => riskType := Low;
        case 1 => riskType := Medium;
        case 2 => riskType := High;
        case _ => riskType := Medium;
      }
    }

    method ResetToDefault()
      modifies this
      ensures totalYears == DefaultTotalYears && monthlyAmount == DefaultMonthlyAmount && riskType == DefaultRiskType
    {
      totalYears := DefaultTotalYears;
      monthlyAmount := DefaultMonthlyAmount;
      riskType := DefaultRiskType;
    }
  }
}
