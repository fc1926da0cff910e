/**
 * SimulationUIController: drives the monthly-compounding SimulationManager from the "next year" button and
 * shows the outcome. Its first screen (STEP1) shows the settings; after the first simulated year it
 * switches to the yearly result screen (STEP2), and once the run is over the button turns into a
 * "see the result" button that leads to the result scene.
 */
module SimulationUI {

  import opened Wrappers
  import opened Numerics
  import opened Risk
  import opened Tones
  import opened Settings
  import opened SimulationCore
  import opened Geometry
  import opened Graph

  /** The character's comment on a year, one per band of the year's change percent. */
  datatype YearComment = BigRiseInLastYear | BigRise | SteadyRise | Flat | SmallFall | BigFall

  /** Bands above 5%, above 0.1%, above -0.1%, above -5%, and the rest; only the top band looks at the year. */
  function GetYearComment(changePercent: real, year: int, totalYears: int): (c: YearComment)
    ensures c == BigRiseInLastYear <==> changePercent > 5.0 && year >= totalYears
    ensures c == BigRise <==> changePercent > 5.0 && year < totalYears
    ensures c == SteadyRise <==> 0.1 < changePercent <= 5.0
    ensures c == Flat <==> -0.1 < changePercent <= 0.1
    ensures c == SmallFall <==> -5.0 < changePercent <= -0.1
    ensures c == BigFall <==> changePercent <= -5.0
  {
    var isLastYear := year >= totalYears;
    if changePercent > 5.0 then
      (if isLastYear then BigRiseInLastYear else BigRise)
    else if changePercent > 0.1 then SteadyRise
    else if changePercent > -0.1 then Flat
    else if changePercent > -5.0 then SmallFall
    else BigFall
  }

  /** The comments from the gloomiest (0) to the happiest (4); both top-band comments share the top rank. */
  function CommentRank(c: YearComment): nat
  {
    match c
    case BigFall => 0
    case SmallFall => 1
    case Flat => 2
    case SteadyRise => 3
    case BigRise => 4
    case BigRiseInLastYear => 4
  }

  /** Below the top band the comment depends on the change alone, not on which year it is. */
  lemma YearCommentIgnoresYearBelowTop(changePercent: real, year1: int, totalYears1: int, year2: int, totalYears2: int)
    requires changePercent <= 5.0
    ensures GetYearComment(changePercent, year1, totalYears1) == GetYearComment(changePercent, year2, totalYears2)
  {
  }

  /** A larger change never gets a gloomier comment. */
  lemma YearCommentMonotone(a: real, b: real, year: int, totalYears: int)
    requires a <= b
    ensures CommentRank(GetYearComment(a, year, totalYears)) <= CommentRank(GetYearComment(b, year, totalYears))
  {
  }

  /** The tier names shown on STEP1. */
  datatype RiskTypeLabel = LowRiskLabel | MediumRiskLabel | HighRiskLabel

  function GetRiskTypeLabel(riskType: RiskType): (shown: RiskTypeLabel)
    ensures shown == LowRiskLabel <==> riskType == Low
    ensures shown == MediumRiskLabel <==> riskType == Medium
    ensures shown == HighRiskLabel <==> riskType == High
  {
    match riskType
    case Low => LowRiskLabel
    case Medium => MediumRiskLabel
    case High => HighRiskLabel
  }

  /** The tier a label names. */
  function TierOfLabel(shown: RiskTypeLabel): RiskType
  {
    match shown
    case LowRiskLabel => Low
    case MediumRiskLabel => Medium
    case HighRiskLabel => High
  }

  /** Every tier has its own label: reading the label back gives the tier. */
  lemma RiskTypeLabelNamesTier(riskType: RiskType)
    ensures TierOfLabel(GetRiskTypeLabel(riskType)) == riskType
  {
  }

  /** The label on the "next year" button. */
  datatype ButtonMode = NextYearMode | ResultMode

  /** What STEP1 shows besides its fixed texts: the monthly amount and the tier. */
  datatype Step1View = Step1View(monthlyAmount: int, riskLabel: RiskTypeLabel)

  /**
   * What STEP2 shows: the year's change with its arrow and colour, the current asset, the annual
   * contribution and the character's comment.
   */
  datatype Step2View = Step2View(change: real, changeTone: Tone, currentAsset: real, annualContribution: int,
                                 comment: YearComment)

  /** The annual contribution shown on STEP2: the monthly amount times the months per year, as a C# int. */
  function AnnualContribution(monthlyAmount: int, monthsPerYear: int): (annual: int)
    ensures Int32Min <= monthlyAmount * monthsPerYear <= Int32Max ==> annual == monthlyAmount * monthsPerYear
    ensures Int32Min <= annual <= Int32Max
  {
    WrapInt32(monthlyAmount * monthsPerYear)
  }

  class SimulationUIController {
    const simulationManager: SimulationManager
    /** The line chart, when the scene has one. */
    const graphRenderer: GraphRenderer?

    var step1Active: bool
    var step2Active: bool
    var buttonMode: ButtonMode
    /** The year shown in the "n-th year / total" counter. */
    var yearCounter: int
    var isInitialized: bool
    /** Set when the click that follows the last year asks for the result scene. */
    var resultSceneRequested: bool
    var step1View: Option<Step1View>
    var step2View: Option<Step2View>

    /**
     * The screen agrees with the run: STEP1 is shown exactly while no year has been simulated, the
     * counter shows 1 before the first year and the current year after it, the button offers the result
     * exactly when at least one year has been simulated and the run is over, and the run's own invariant holds.
     */
    ghost predicate Valid()
      reads this, simulationManager
    {
      && isInitialized
      && simulationManager.Valid()
      && step1Active == !step2Active
      && (step2Active <==> simulationManager.currentYear > 0)
      && yearCounter == (if simulationManager.currentYear == 0 then 1 else simulationManager.currentYear)
      && (simulationManager.currentYear == 0 ==> buttonMode == NextYearMode)
      && (simulationManager.currentYear > 0 ==>
            (buttonMode == ResultMode <==> simulationManager.currentYear >= simulationManager.totalYears))
    }

    /** The controller as the scene loads it: nothing shown yet and not initialised. */
    constructor (simulationManager: SimulationManager, graphRenderer: GraphRenderer?)
      ensures this.simulationManager == simulationManager && this.graphRenderer == graphRenderer
      ensures !isInitialized && !resultSceneRequested
      ensures step1View == None && step2View == None
    {
      this.simulationManager := simulationManager;
      this.graphRenderer := graphRenderer;
      step1Active := false;
      step2Active := false;
      buttonMode := NextYearMode;
      yearCounter := 0;
      isInitialized := false;
      resultSceneRequested := false;
      step1View := None;
      step2View := None;
    }

    /** Starts a new run from `settings` (GameSettings.Instance), shows STEP1 at year 1 and accepts clicks. */
    method Start(settings: GameSettings?)
      modifies this, simulationManager
      ensures Valid()
      ensures simulationManager.currentYear == 0 && simulationManager.yearlyAssets == [0.0]
      ensures simulationManager.currentAsset == 0.0 && simulationManager.lastYearStartAsset == 0.0
      ensures simulationManager.lastYearEndAsset == 0.0 && simulationManager.lastYearChangePercent == 0.0
      ensures settings != null ==> (simulationManager.totalYears == settings.totalYears
        && simulationManager.monthlyAmount == settings.monthlyAmount && simulationManager.riskType == settings.riskType)
      ensures settings == null ==> (simulationManager.totalYears == DefaultTotalYears && simulationManager.riskType == Medium
        && simulationManager.monthlyAmount
             == (if old(simulationManager.monthlyAmount) <= 0 then FallbackMonthlyAmount else old(simulationManager.monthlyAmount)))
      ensures step1Active && !step2Active && buttonMode == NextYearMode && yearCounter == 1
      ensures step1View == Some(Step1View(simulationManager.monthlyAmount, GetRiskTypeLabel(simulationManager.riskType)))
      ensures resultSceneRequested == old(resultSceneRequested) && step2View == old(step2View)
    {
      simulationManager.StartNewSimulation(settings);

      ShowStep1();
      UpdateYearCounter(1);

      isInitialized := true;
    }

    method ShowStep1()
      modifies this`step1Active, this`step2Active, this`step1View, this`buttonMode
      ensures step1Active && !step2Active && buttonMode == NextYearMode
      ensures step1View == Some(Step1View(simulationManager.monthlyAmount, GetRiskTypeLabel(simulationManager.riskType)))
    {
      step1Active := true;
      step2Active := false;

      step1View := Some(Step1View(simulationManager.monthlyAmount, GetRiskTypeLabel(simulationManager.riskType)));

      buttonMode := NextYearMode;
    }

    method ShowStep2()
      modifies this`step1Active, this`step2Active
      ensures !step1Active && step2Active
    {
      step1Active := false;
      step2Active := true;
    }

    /**
     * The button: ignored before Start; while years remain it simulates exactly one (with `percents` as the
     * month draws), switches to STEP2 on the first year and offers the result after the last; once the run
     * is over it asks for the result scene instead and simulates nothing.
     */
    method OnClickNextYear(percents: seq<real>)
      requires |percents| == simulationManager.monthsPerYear
      requires forall i :: 0 <= i < |percents| ==> IsMonthlyDraw(simulationManager.riskType, percents[i])
      modifies this, simulationManager, graphRenderer
      ensures !old(isInitialized) ==> (unchanged(this) && unchanged(simulationManager)
        && (graphRenderer != null ==> unchanged(graphRenderer)))
      ensures old(isInitialized) && old(simulationManager.currentYear) >= old(simulationManager.totalYears) ==>
        && resultSceneRequested && unchanged(simulationManager)
        && step1Active == old(step1Active) && step2Active == old(step2Active) && buttonMode == old(buttonMode)
        && yearCounter == old(yearCounter) && step1View == old(step1View) && step2View == old(step2View)
        && (graphRenderer != null ==> unchanged(graphRenderer))
      ensures old(isInitialized) && old(simulationManager.currentYear) < old(simulationManager.totalYears) ==>
        && simulationManager.currentYear == old(simulationManager.currentYear) + 1
        && simulationManager.yearlyAssets == old(simulationManager.yearlyAssets) + [simulationManager.currentAsset]
        && simulationManager.currentAsset
             == Compound(old(simulationManager.currentAsset), simulationManager.monthlyAmount as real, percents)
        && simulationManager.lastYearChangePercent
             == ChangePercent(old(simulationManager.currentAsset), simulationManager.currentAsset)
        && (old(simulationManager.currentYear) == 0 ==> !step1Active && step2Active)
        && (old(simulationManager.currentYear) != 0 ==> step1Active == old(step1Active) && step2Active == old(step2Active))
        && yearCounter == simulationManager.currentYear
        && buttonMode == (if simulationManager.currentYear >= simulationManager.totalYears then ResultMode else old(buttonMode))
        && step1View == old(step1View) && step2View == Some(CurrentStep2View())
        && resultSceneRequested == old(resultSceneRequested)
        && (graphRenderer != null && graphRenderer.hasContainer ==>
              && graphRenderer.pointObjects == graphRenderer.PointsFor(Some(simulationManager.yearlyAssets))
              && graphRenderer.lineObjects == Segments(graphRenderer.pointObjects))
      ensures isInitialized == old(isInitialized)
      ensures simulationManager.totalYears == old(simulationManager.totalYears)
      ensures simulationManager.monthlyAmount == old(simulationManager.monthlyAmount)
      ensures simulationManager.riskType == old(simulationManager.riskType)
      ensures graphRenderer != null && !graphRenderer.hasContainer ==> unchanged(graphRenderer)
      ensures old(Valid()) ==> Valid()
    {
      if !isInitialized {
        return;
      }

      if simulationManager.currentYear < simulationManager.totalYears {
        var wasFirstYearBefore := simulationManager.currentYear == 0;

        var events := simulationManager.SimulateOneYear(percents);
        if events.simulationFinished {
          HandleSimulationFinished();
        }

        if wasFirstYearBefore {
          ShowStep2();
        }

        UpdateYearCounter(simulationManager.currentYear);
        UpdateStep2UI();

        if simulationManager.currentYear >= simulationManager.totalYears {
          SetNextYearButtonToResultMode();
        }
      } else {
        LoadResultScene();
      }
    }

    /** OnSimulationFinished's handler. */
    method HandleSimulationFinished()
      modifies this`buttonMode
      ensures buttonMode == ResultMode
    {
      SetNextYearButtonToResultMode();
    }

    method UpdateYearCounter(year: int)
      modifies this`yearCounter
      ensures yearCounter == year
    {
      yearCounter := year;
    }

    /** What STEP2 shows for the run's current state. */
    function CurrentStep2View(): Step2View
      reads simulationManager
    {
      var change := simulationManager.lastYearChangePercent;
      Step2View(change, ToneOf(change), simulationManager.currentAsset,
                AnnualContribution(simulationManager.monthlyAmount, simulationManager.monthsPerYear),
                GetYearComment(change, simulationManager.currentYear, simulationManager.totalYears))
    }

    /** Refreshes STEP2's texts and redraws the chart from the run's history. */
    method UpdateStep2UI()
      modifies this`step2View, graphRenderer
      ensures step2View == Some(CurrentStep2View())
      ensures graphRenderer != null && graphRenderer.hasContainer ==>
        && graphRenderer.pointObjects == graphRenderer.PointsFor(Some(simulationManager.yearlyAssets))
        && graphRenderer.lineObjects == Segments(graphRenderer.pointObjects)
      ensures graphRenderer != null && !graphRenderer.hasContainer ==> unchanged(graphRenderer)
    {
      var change := simulationManager.lastYearChangePercent;
      var tone := ToneOf(change);

      var annual := AnnualContribution(simulationManager.monthlyAmount, simulationManager.monthsPerYear);

      var comment := GetYearComment(change, simulationManager.currentYear, simulationManager.totalYears);

      step2View := Some(Step2View(change, tone, simulationManager.currentAsset, annual, comment));

      if graphRenderer != null {
        graphRenderer.UpdateGraph(Some(simulationManager.yearlyAssets));
      }
    }

    method SetNextYearButtonToResultMode()
      modifies this`buttonMode
      ensures buttonMode == ResultMode
    {
      buttonMode := ResultMode;
    }

    method LoadResultScene()
      modifies this`resultSceneRequested
      ensures resultSceneRequested
    {
      resultSceneRequested := true;
    }
  }
}
