/**
 * SimulationManager: the monthly-compounding projection engine. One call of SimulateOneYear is one
 * simulated year: each month adds the contribution and then applies a random percent change drawn
 * from the risk tier's range. The random draws are passed in.
 */
module SimulationCore {

  import opened Wrappers
  import opened Risk
  import opened Settings

  const DefaultMonthsPerYear: nat := 12
  /** Used when no GameSettings exists and the stored monthly amount is not positive. */
  const FallbackMonthlyAmount: int := 10000

  /** One month: add the contribution, then grow (or shrink) by `percent` per cent. */
  function MonthStep(asset: real, monthly: real, percent: real): real
  {
    (asset + monthly) * (1.0 + percent / 100.0)
  }

  /** The asset after one month step per entry of `percents`, in order, starting from `start`. */
  function Compound(start: real, monthly: real, percents: seq<real>): real
    decreases |percents|
  {
    if percents == [] then start
    else MonthStep(Compound(start, monthly, percents[..|percents| - 1]), monthly, percents[|percents| - 1])
  }

  /** With every monthly change at 0% a year only adds the contributions. */
  lemma {:induction false} CompoundWithoutReturns(start: real, monthly: real, percents: seq<real>)
    requires forall i :: 0 <= i < |percents| ==> percents[i] == 0.0
    ensures Compound(start, monthly, percents) == start + monthly * |percents| as real
    decreases |percents|
  {
    if percents != [] {
      CompoundWithoutReturns(start, monthly, percents[..|percents| - 1]);
    }
  }

  /** Compounding nothing stays nothing: a zero asset with zero contributions stays 0 whatever the returns. */
  lemma {:induction false} CompoundOfNothing(percents: seq<real>)
    ensures Compound(0.0, 0.0, percents) == 0.0
    decreases |percents|
  {
    if percents != [] {
      CompoundOfNothing(percents[..|percents| - 1]);
    }
  }

  /** No month can lose more than 100%, so a non-negative asset with non-negative contributions stays non-negative. */
  lemma {:induction false} CompoundNonNegative(start: real, monthly: real, percents: seq<real>)
    requires start >= 0.0 && monthly >= 0.0
    requires forall i :: 0 <= i < |percents| ==> percents[i] >= -100.0
    ensures Compound(start, monthly, percents) >= 0.0
    decreases |percents|
  {
    if percents != [] {
      var before := percents[..|percents| - 1];
      CompoundNonNegative(start, monthly, before);
      var a := Compound(start, monthly, before);
      var g := 1.0 + percents[|percents| - 1] / 100.0;
      assert a + monthly >= 0.0 && g >= 0.0;
      assert (a + monthly) * g >= 0.0;
    }
  }

  /**
   * The year's change in percent: 0 when the year started at or below 0 (which avoids dividing by
   * zero in the first year), otherwise the relative change of the asset.
   */
  function ChangePercent(start: real, end: real): (p: real)
    ensures start <= 0.0 ==> p == 0.0
    ensures start > 0.0 ==> p * start == (end - start) * 100.0
    ensures start > 0.0 ==> (p > 0.0 <==> end > start) && (p < 0.0 <==> end < start)
  {
    if start > 0.0 then (end - start) / start * 100.0 else 0.0
  }

  /** The notifications one SimulateOneYear call raises: `OnYearSimulated(year)` and `OnSimulationFinished`. */
  datatype YearEvents = YearEvents(yearSimulated: Option<int>, simulationFinished: bool)

  class SimulationManager {
    var totalYears: int
    const monthsPerYear: nat
    var monthlyAmount: int
    var riskType: RiskType

    var currentYear: int
    var currentAsset: real
    var lastYearStartAsset: real
    var lastYearEndAsset: real
    var lastYearChangePercent: real
    /** Year-end assets, starting with the 0 of year 0; only ever appended to during a run. */
    var yearlyAssets: seq<real>

    /**
     * The run invariant that StartNewSimulation establishes and SimulateOneYear keeps: the year stays in
     * [0, totalYears], the history has one entry per finished year after the initial 0, and its last entry
     * is the current asset.
     */
    ghost predicate Valid()
      reads this
    {
      0 <= currentYear && (currentYear <= totalYears || currentYear == 0)
      && |yearlyAssets| == currentYear + 1
      && yearlyAssets[0] == 0.0
      && yearlyAssets[currentYear] == currentAsset
    }

    /** The serialized `totalYears` and `monthsPerYear`; every other field starts at its C# default. */
    constructor (totalYears: int, monthsPerYear: nat)
      ensures this.totalYears == totalYears && this.monthsPerYear == monthsPerYear
      ensures monthlyAmount == 0 && riskType == Low
      ensures currentYear == 0 && currentAsset == 0.0
      ensures lastYearStartAsset == 0.0 && lastYearEndAsset == 0.0 && lastYearChangePercent == 0.0
      ensures yearlyAssets == []
    {
      this.totalYears := totalYears;
      this.monthsPerYear := monthsPerYear;
      monthlyAmount := 0;
      riskType := Low;
      currentYear := 0;
      currentAsset := 0.0;
      lastYearStartAsset := 0.0;
      lastYearEndAsset := 0.0;
      lastYearChangePercent := 0.0;
      yearlyAssets := [];
    }

    /**
     * Reads the run's configuration from `settings` (GameSettings.Instance), or falls back to Medium risk,
     * 15 years and, if the stored amount is not positive, 10000 a month; then resets the run to year 0.
     */
    method StartNewSimulation(settings: GameSettings?)
      modifies this
      ensures settings != null ==>
        monthlyAmount == settings.monthlyAmount && riskType == settings.riskType && totalYears == settings.totalYears
      ensures settings == null ==>
        riskType == Medium && totalYears == DefaultTotalYears
        && monthlyAmount == (if old(monthlyAmount) <= 0 then FallbackMonthlyAmount else old(monthlyAmount))
      ensures currentYear == 0 && currentAsset == 0.0
      ensures lastYearStartAsset == 0.0 && lastYearEndAsset == 0.0 && lastYearChangePercent == 0.0
      ensures yearlyAssets == [0.0]
      ensures Valid()
    {
      if settings != null {
        monthlyAmount := settings.monthlyAmount;
        riskType := settings.riskType;
        totalYears := settings.totalYears;
      } else {
        if monthlyAmount <= 0 {
          monthlyAmount := FallbackMonthlyAmount;
        }
        riskType := Medium;
        totalYears := DefaultTotalYears;
      }

      currentYear := 0;
      currentAsset := 0.0;
      lastYearStartAsset := 0.0;
      lastYearEndAsset := 0.0;
      lastYearChangePercent := 0.0;

      yearlyAssets := [];
      yearlyAssets := yearlyAssets + [currentAsset];
    }

    /**
     * Simulates one year, taking `percents[i]` as month i's random change. Once the last year is reached
     * the call changes nothing and notifies nobody.
     */
    method SimulateOneYear(percents: seq<real>) returns (events: YearEvents)
      requires |percents| == monthsPerYear
      requires forall i :: 0 <= i < |percents| ==> IsMonthlyDraw(riskType, percents[i])
      modifies this
      ensures old(currentYear) >= old(totalYears) ==> unchanged(this) && events == YearEvents(None, false)
      ensures old(currentYear) < old(totalYears) ==>
        && lastYearStartAsset == old(currentAsset)
        && currentAsset == Compound(old(currentAsset), monthlyAmount as real, percents)
        && lastYearEndAsset == currentAsset
        && lastYearChangePercent == ChangePercent(lastYearStartAsset, lastYearEndAsset)
        && currentYear == old(currentYear) + 1
        && yearlyAssets == old(yearlyAssets) + [currentAsset]
        && events == YearEvents(Some(currentYear), currentYear == totalYears)
      ensures totalYears == old(totalYears) && monthlyAmount == old(monthlyAmount) && riskType == old(riskType)
      ensures old(Valid()) ==> Valid()
      ensures old(currentAsset) >= 0.0 && monthlyAmount >= 0 ==> currentAsset >= 0.0
    {
      if currentYear >= totalYears {
        return YearEvents(None, false);
      }

      lastYearStartAsset := currentAsset;

      for i := 0 to monthsPerYear
        modifies this`currentAsset
        invariant currentAsset == Compound(lastYearStartAsset, monthlyAmount as real, percents[..i])
      {
        assert percents[..i + 1][..i] == percents[..i];
        currentAsset := currentAsset + monthlyAmount as real;
        var monthlyChangePercent := percents[i];
        currentAsset := currentAsset * (1.0 + monthlyChangePercent / 100.0);
      }
      assert percents[..monthsPerYear] == percents;

      lastYearEndAsset := currentAsset;

      if lastYearStartAsset > 0.0 {
        lastYearChangePercent := (lastYearEndAsset - lastYearStartAsset) / lastYearStartAsset * 100.0;
      } else {
        lastYearChangePercent := 0.0;
      }

      currentYear := currentYear + 1;
      yearlyAssets := yearlyAssets + [currentAsset];

      events := YearEvents(Some(currentYear), currentYear >= totalYears);

      if lastYearStartAsset >= 0.0 && monthlyAmount >= 0 {
        forall i | 0 <= i < |percents| ensures percents[i] >= -100.0 {
          assert IsMonthlyDraw(riskType, percents[i]);
        }
        CompoundNonNegative(lastYearStartAsset, monthlyAmount as real, percents);
      }
    }
  }
}
