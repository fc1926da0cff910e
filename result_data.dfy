/** ResultData: the finished run, copied by value for the result scene. */
module Results {

  import opened Numerics
  import opened Risk
  import opened Settings
  import opened SimulationCore

  /**
   * Principal as the C# code computes it, `monthlyAmount * 12 * years` in 32-bit `int` arithmetic
   * (12 months written out, not the engine's monthsPerYear); exact whenever the product fits in an int.
   */
  function PrincipalOf(monthlyAmount: int, years: int): (p: int)
    ensures Int32Min <= p <= Int32Max
    ensures Int32Min <= monthlyAmount * 12 * years <= Int32Max ==> p == monthlyAmount * 12 * years
  {
    WrapInt32(monthlyAmount * 12 * years)
  }

  /** With the default settings the principal is 10000 a month for 15 years, 1,800,000. */
  lemma DefaultPrincipal()
    ensures PrincipalOf(DefaultMonthlyAmount, DefaultTotalYears) == 1_800_000
  {
  }

  class ResultData {
    var finalAsset: real
    var principal: real
    var yearlyAssets: seq<real>
    var monthlyAmount: int
    var riskType: RiskType

    constructor ()
      ensures finalAsset == 0.0 && principal == 0.0 && yearlyAssets == [] && monthlyAmount == 0 && riskType == Medium
    {
      finalAsset := 0.0;
      principal := 0.0;
      yearlyAssets := [];
      monthlyAmount := 0;
      riskType := Medium;
    }

    /**
     * Stores the result of the run `simulation` under `settings`. The history is a value copy: later
     * changes to the simulation do not reach it. The new state depends only on the two arguments,
     * so repeating the call with the same arguments changes nothing more.
     */
    method SetResult(simulation: SimulationManager?, settings: GameSettings?)
      modifies this
      ensures simulation == null || settings == null ==> unchanged(this)
      ensures simulation != null && settings != null ==>
        && monthlyAmount == settings.monthlyAmount
        && riskType == settings.riskType
        && finalAsset == simulation.currentAsset
        && principal == PrincipalOf(settings.monthlyAmount, settings.totalYears) as real
        && yearlyAssets == simulation.yearlyAssets
    {
      if simulation == null {
        return;
      }
      if settings == null {
        return;
      }

      monthlyAmount := settings.monthlyAmount;
      riskType := settings.riskType;

      finalAsset := simulation.currentAsset;

      principal := WrapInt32(monthlyAmount * 12 * settings.totalYears) as real;

      yearlyAssets := [];
      var source := simulation.yearlyAssets;
      yearlyAssets := yearlyAssets + source;
    }

    method Clear()
      modifies this
      ensures finalAsset == 0.0 && principal == 0.0 && yearlyAssets == [] && monthlyAmount == 0 && riskType == Medium
    {
      finalAsset := 0.0;
      principal := 0.0;
      yearlyAssets := [];
      monthlyAmount := 0;
      riskType := Medium;
    }
  }
}
