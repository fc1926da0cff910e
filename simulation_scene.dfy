/**
 * SimulationSceneManager: the year-by-year screen that projects integer-yen assets with a fixed annual
 * rate per risk tier. The player picks a monthly amount (snapped to a step and clamped to a range) and,
 * in years 0, 5 and 10 only, a risk tier; each "next year" click books one year at the current settings.
 */
module SceneSimulation {

  import opened Numerics
  import opened SceneGraph

  /** The inspector-serialized settings of the scene. Risk tiers are the ints 0 (low), 1 (middle), 2 (high). */
  datatype SceneConfig = SceneConfig(
    maxYear: int,
    currentYear: int,
    monthlyAmount: int,
    monthlyStep: int,
    minMonthlyAmount: int,
    maxMonthlyAmount: int,
    currentRiskType: int,
    lowRiskReturnRate: real,
    middleRiskReturnRate: real,
    highRiskReturnRate: real)

  /** The values the scene script declares for its serialized fields. */
  const DefaultSceneConfig := SceneConfig(15, 0, 1000, 1000, 1000, 100000, 1, 0.02, 0.04, 0.06)

  /** The step Start substitutes for a non-positive one. */
  const FallbackMonthlyStep: int := 1000

  /** Rounds `amount` to the nearest multiple of `step` (a tie goes to the even multiple). */
  function SnapToStep(amount: real, step: int): (r: int)
    requires step > 0
  {
    RoundToInt(amount / step as real) * step
  }

  /** A snapped amount is a multiple of the step and at most half a step away from the input. */
  lemma SnapToStepNearest(amount: real, step: int)
    requires step > 0
    ensures SnapToStep(amount, step) % step == 0
    ensures amount - step as real / 2.0 <= SnapToStep(amount, step) as real <= amount + step as real / 2.0
  {
    var s := step as real;
    var q := amount / s;
    var k := RoundToInt(q);
    MultipleMod(k, step);
    assert q * s == amount;
    NearestScaled(k as real, q, s, amount);
    assert SnapToStep(amount, step) as real == k as real * s;
  }

  /** Scaling "within half of q" by a positive s gives "within half of s of q * s". */
  lemma NearestScaled(x: real, q: real, s: real, a: real)
    requires s > 0.0 && q - 0.5 <= x <= q + 0.5 && a == q * s
    ensures a - s / 2.0 <= x * s <= a + s / 2.0
  {
    var h := s / 2.0;
    var lo, hi := x - q + 0.5, q + 0.5 - x;
    assert lo * s >= 0.0 && hi * s >= 0.0;
    assert lo * s == x * s - q * s + h;
    assert hi * s == q * s + h - x * s;
  }

  /** A multiple of the step is already snapped. */
  lemma SnapToStepOfMultiple(amount: int, step: int)
    requires step > 0 && amount % step == 0
    ensures SnapToStep(amount as real, step) == amount
  {
    var k := amount / step;
    assert amount == k * step;
    assert amount as real / step as real == k as real by {
      assert k as real * step as real == amount as real;
    }
    RoundToIntOfInt(k);
  }

  /** Start's normalisation: clamp into the range, snap to the step, clamp again. */
  function NormalisedAmount(amount: int, step: int, min: int, max: int): (r: int)
    requires step > 0
    ensures min <= max ==> min <= r <= max
  {
    ClampInt(SnapToStep(ClampInt(amount, min, max) as real, step), min, max)
  }

  /** The "+" button: one step up, capped at the maximum, then snapped and clamped. */
  function IncreasedAmount(amount: int, step: int, min: int, max: int): (r: int)
    requires step > 0
    ensures min <= max ==> min <= r <= max
  {
    ClampInt(SnapToStep(MinInt(amount + step, max) as real, step), min, max)
  }

  /** The "-" button: one step down, floored at the minimum, then snapped and clamped. */
  function DecreasedAmount(amount: int, step: int, min: int, max: int): (r: int)
    requires step > 0
    ensures min <= max ==> min <= r <= max
  {
    ClampInt(SnapToStep(MaxInt(amount - step, min) as real, step), min, max)
  }

  /** The slider: its value snapped to the step and clamped. */
  function SliderAmount(sliderValue: real, step: int, min: int, max: int): (r: int)
    requires step > 0
    ensures min <= max ==> min <= r <= max
  {
    ClampInt(SnapToStep(sliderValue, step), min, max)
  }

  /** With step-aligned bounds every normalised amount is a multiple of the step. */
  lemma NormalisedOnGrid(amount: int, step: int, min: int, max: int)
    requires step > 0 && min % step == 0 && max % step == 0
    ensures NormalisedAmount(amount, step, min, max) % step == 0
  {
    SnapToStepNearest(ClampInt(amount, min, max) as real, step);
  }

  /** On an aligned grid the "+" button moves exactly one step up, stopping at the maximum. */
  lemma IncreaseIsOneStep(amount: int, step: int, min: int, max: int)
    requires step > 0 && amount % step == 0 && max % step == 0
    requires min <= amount <= max
    ensures IncreasedAmount(amount, step, min, max) == MinInt(amount + step, max)
    ensures IncreasedAmount(amount, step, min, max) >= amount
  {
    var raised := MinInt(amount + step, max);
    assert raised % step == 0 by {
      if raised != max {
        assert raised == amount + 1 * step;
        ShiftMod(amount, step, 1);
      }
    }
    SnapToStepOfMultiple(raised, step);
  }

  /** On an aligned grid the "-" button moves exactly one step down, stopping at the minimum. */
  lemma DecreaseIsOneStep(amount: int, step: int, min: int, max: int)
    requires step > 0 && amount % step == 0 && min % step == 0
    requires min <= amount <= max
    ensures DecreasedAmount(amount, step, min, max) == MaxInt(amount - step, min)
    ensures DecreasedAmount(amount, step, min, max) <= amount
  {
    var lowered := MaxInt(amount - step, min);
    assert lowered % step == 0 by {
      if lowered != min {
        assert lowered == amount + -1 * step;
        ShiftMod(amount, step, -1);
      }
    }
    SnapToStepOfMultiple(lowered, step);
  }

  /** The risk tier may be changed only at the start of years 0, 5 and 10. */
  predicate CanChangeRisk(currentYear: int)
  {
    currentYear == 0 || currentYear == 5 || currentYear == 10
  }

  /** The windows are the multiples of five up to ten. */
  lemma RiskWindowsEveryFiveYears(currentYear: int)
    ensures CanChangeRisk(currentYear) <==> 0 <= currentYear <= 10 && currentYear % 5 == 0
  {
    if 0 <= currentYear <= 10 && currentYear % 5 == 0 {
      var q := currentYear / 5;
      assert currentYear == 5 * q;
      assert 0 <= q <= 2;
    }
  }

  /** The annual rate of a tier; any value other than 0, 1 and 2 gets the middle rate. */
  function AnnualReturnRate(config: SceneConfig, riskType: int): (rate: real)
    ensures riskType == 0 ==> rate == config.lowRiskReturnRate
    ensures riskType == 2 ==> rate == config.highRiskReturnRate
    ensures riskType != 0 && riskType != 2 ==> rate == config.middleRiskReturnRate
  {
    match riskType
    case 0 => config.lowRiskReturnRate
    case 1 => config.middleRiskReturnRate
    case 2 => config.highRiskReturnRate
    case _ => config.middleRiskReturnRate
  }

  /**
   * This year's projected end asset: in year 0 just the monthly amount; later the start-of-year asset
   * plus twelve contributions, grown by one year at `rate` and rounded to whole yen.
   */
  function PreviewAsset(currentYear: int, monthlyAmount: int, assetAtStartOfYear: int, rate: real): int
  {
    if currentYear == 0 then monthlyAmount
    else RoundToInt(YearEndValue(assetAtStartOfYear, monthlyAmount, rate))
  }

  /** The unrounded year-end value: start asset plus twelve contributions, grown once at `rate`. */
  function YearEndValue(assetAtStartOfYear: int, monthlyAmount: int, rate: real): real
  {
    (assetAtStartOfYear + monthlyAmount * 12) as real * (1.0 + rate)
  }

  /** At a zero rate a later year's preview is exactly the start asset plus twelve contributions. */
  lemma PreviewAtZeroRate(currentYear: int, monthlyAmount: int, assetAtStartOfYear: int)
    requires currentYear != 0
    ensures PreviewAsset(currentYear, monthlyAmount, assetAtStartOfYear, 0.0) == assetAtStartOfYear + monthlyAmount * 12
  {
    RoundToIntOfInt(assetAtStartOfYear + monthlyAmount * 12);
  }

  /** With a non-negative rate and a non-negative base the preview never falls below the base. */
  lemma PreviewGrows(currentYear: int, monthlyAmount: int, assetAtStartOfYear: int, rate: real)
    requires currentYear != 0 && rate >= 0.0 && assetAtStartOfYear + monthlyAmount * 12 >= 0
    ensures PreviewAsset(currentYear, monthlyAmount, assetAtStartOfYear, rate) >= assetAtStartOfYear + monthlyAmount * 12
  {
    var base := assetAtStartOfYear + monthlyAmount * 12;
    assert YearEndValue(assetAtStartOfYear, monthlyAmount, rate) >= base as real by {
      assert base as real * (1.0 + rate) == base as real + base as real * rate;
    }
    RoundToIntMonotone(base as real, YearEndValue(assetAtStartOfYear, monthlyAmount, rate));
    RoundToIntOfInt(base);
  }

  /** A larger monthly amount never gives a smaller preview when the rate is at least -100%. */
  lemma PreviewMonotoneInAmount(currentYear: int, m1: int, m2: int, assetAtStartOfYear: int, rate: real)
    requires m1 <= m2 && rate >= -1.0
    ensures PreviewAsset(currentYear, m1, assetAtStartOfYear, rate) <= PreviewAsset(currentYear, m2, assetAtStartOfYear, rate)
  {
    if currentYear != 0 {
      var b1, b2 := (assetAtStartOfYear + m1 * 12) as real, (assetAtStartOfYear + m2 * 12) as real;
      assert YearEndValue(assetAtStartOfYear, m1, rate) <= YearEndValue(assetAtStartOfYear, m2, rate) by {
        assert b2 * (1.0 + rate) - b1 * (1.0 + rate) == (b2 - b1) * (1.0 + rate);
      }
      RoundToIntMonotone(YearEndValue(assetAtStartOfYear, m1, rate), YearEndValue(assetAtStartOfYear, m2, rate));
    }
  }

  /** The tier name shown on the risk label; an out-of-range value shows as unknown. */
  datatype RiskLabel = LowRiskLabel | MiddleRiskLabel | HighRiskLabel | UnknownRiskLabel

  function RiskLabelOf(riskType: int): (shown: RiskLabel)
    ensures shown == UnknownRiskLabel <==> riskType < 0 || riskType > 2
    ensures shown == LowRiskLabel <==> riskType == 0
    ensures shown == HighRiskLabel <==> riskType == 2
  {
    match riskType
    case 0 => LowRiskLabel
    case 1 => MiddleRiskLabel
    case 2 => HighRiskLabel
    case _ => UnknownRiskLabel
  }

  /** A tier with a name on the label is one with its own rate; an unknown tier is charged the middle rate. */
  lemma UnknownTierUsesMiddleRate(config: SceneConfig, riskType: int)
    requires RiskLabelOf(riskType) == UnknownRiskLabel
    ensures AnnualReturnRate(config, riskType) == AnnualReturnRate(config, 1)
  {
  }

  class SimulationSceneManager {
    const maxYear: int
    const minMonthlyAmount: int
    const maxMonthlyAmount: int
    const config: SceneConfig
    /** The chart, when the scene has one. */
    const graph: SimulationGraphUI?

    var currentYear: int
    var monthlyAmount: int
    var monthlyStep: int
    var assetAtStartOfYear: int
    var currentAsset: int
    var totalPrincipal: int
    var currentRiskType: int

    /** Set while the script itself moves the slider, so that the slider's callback ignores the change. */
    var isUpdatingMonthlySlider: bool
    /** Cleared until the first accepted risk-toggle callback, which does not update the preview. */
    var hasRiskCallbackInitialized: bool

    /** The monthly-amount slider's range and value. */
    var sliderMin: real
    var sliderMax: real
    var sliderValue: real

    /** Whether each of the three risk toggles accepts input. */
    var riskLowInteractable: bool
    var riskMiddleInteractable: bool
    var riskHighInteractable: bool
    var riskLabel: RiskLabel

    /**
     * What holds between the player's clicks once Start has run: a positive step, the year inside
     * [0, maxYear], the amount inside its range, the slider flag cleared, and the toggles open
     * exactly in the risk-change years.
     */
    ghost predicate Valid()
      reads this
    {
      && monthlyStep > 0
      && (maxYear >= 0 ==> 0 <= currentYear <= maxYear)
      && (minMonthlyAmount <= maxMonthlyAmount ==> minMonthlyAmount <= monthlyAmount <= maxMonthlyAmount)
      && !isUpdatingMonthlySlider
      && riskLowInteractable == riskMiddleInteractable == riskHighInteractable == CanChangeRisk(currentYear)
    }

    /** The scene as loaded, before Start: the serialized values, zero assets and both flags cleared. */
    constructor (config: SceneConfig, graph: SimulationGraphUI?)
      ensures this.config == config && this.graph == graph
      ensures maxYear == config.maxYear && currentYear == config.currentYear
      ensures minMonthlyAmount == config.minMonthlyAmount && maxMonthlyAmount == config.maxMonthlyAmount
      ensures monthlyAmount == config.monthlyAmount && monthlyStep == config.monthlyStep
      ensures currentRiskType == config.currentRiskType
      ensures assetAtStartOfYear == 0 && currentAsset == 0 && totalPrincipal == 0
      ensures !isUpdatingMonthlySlider && !hasRiskCallbackInitialized
    {
      this.config := config;
      this.graph := graph;
      maxYear := config.maxYear;
      minMonthlyAmount := config.minMonthlyAmount;
      maxMonthlyAmount := config.maxMonthlyAmount;
      currentYear := config.currentYear;
      monthlyAmount := config.monthlyAmount;
      monthlyStep := config.monthlyStep;
      currentRiskType := config.currentRiskType;
      assetAtStartOfYear := 0;
      currentAsset := 0;
      totalPrincipal := 0;
      isUpdatingMonthlySlider := false;
      hasRiskCallbackInitialized := false;
      sliderMin := 0.0;
      sliderMax := 1.0;
      sliderValue := 0.0;
      riskLowInteractable := true;
      riskMiddleInteractable := true;
      riskHighInteractable := true;
      riskLabel := RiskLabelOf(config.currentRiskType);
    }

    /**
     * Clamps the year, repairs a non-positive step, zeroes the assets and the principal, normalises the
     * monthly amount, plots year 0 and year 1 at the (zero) current asset, and shows this year's preview.
     */
    method Start()
      modifies this, graph
      ensures Valid()
      ensures currentYear == ClampInt(old(currentYear), 0, maxYear)
      ensures monthlyStep == if old(monthlyStep) <= 0 then FallbackMonthlyStep else old(monthlyStep)
      ensures monthlyAmount == NormalisedAmount(old(monthlyAmount), monthlyStep, minMonthlyAmount, maxMonthlyAmount)
      ensures assetAtStartOfYear == 0 && totalPrincipal == 0
      ensures currentAsset == PreviewAsset(currentYear, monthlyAmount, 0, AnnualReturnRate(config, currentRiskType))
      ensures currentRiskType == old(currentRiskType) && riskLabel == RiskLabelOf(currentRiskType)
      ensures hasRiskCallbackInitialized == old(hasRiskCallbackInitialized)
      ensures sliderMin == minMonthlyAmount as real && sliderMax == maxMonthlyAmount as real
      ensures sliderValue == monthlyAmount as real
      ensures graph != null ==> graph.dataPoints == [DataPoint(currentYear, 0), DataPoint(currentYear + 1, 0)]
    {
      ResetState();

      PlotStartPoints();

      UpdateRiskLabel();
      UpdateRiskUIInteractable();
      UpdateCurrentYearPreviewAsset();
    }

    /** Start's first half: year, step, assets and principal, monthly amount, and the slider set to match. */
    method ResetState()
      modifies this`currentYear, this`monthlyStep, this`assetAtStartOfYear, this`currentAsset, this`totalPrincipal,
        this`monthlyAmount, this`sliderMin, this`sliderMax, this`sliderValue, this`isUpdatingMonthlySlider
      ensures currentYear == ClampInt(old(currentYear), 0, maxYear)
      ensures monthlyStep == if old(monthlyStep) <= 0 then FallbackMonthlyStep else old(monthlyStep)
      ensures monthlyAmount == NormalisedAmount(old(monthlyAmount), monthlyStep, minMonthlyAmount, maxMonthlyAmount)
      ensures assetAtStartOfYear == 0 && currentAsset == 0 && totalPrincipal == 0
      ensures sliderMin == minMonthlyAmount as real && sliderMax == maxMonthlyAmount as real
      ensures sliderValue == monthlyAmount as real && !isUpdatingMonthlySlider
    {
      currentYear := ClampInt(currentYear, 0, maxYear);

      if monthlyStep <= 0 {
        monthlyStep := FallbackMonthlyStep;
      }

      assetAtStartOfYear := 0;
      currentAsset := 0;
      totalPrincipal := 0;

      NormaliseMonthlyAmount();

      sliderMin := minMonthlyAmount as real;
      sliderMax := maxMonthlyAmount as real;
      isUpdatingMonthlySlider := true;
      sliderValue := monthlyAmount as real;
      isUpdatingMonthlySlider := false;
    }

    /** Start's chart set-up: a fresh chart with this year's start and end plotted at the current asset. */
    method PlotStartPoints()
      modifies graph
      ensures graph != null ==> graph.dataPoints == [DataPoint(currentYear, currentAsset), DataPoint(currentYear + 1, currentAsset)]
    {
      if graph != null {
        graph.ResetGraph();
        graph.AddPoint(currentYear, currentAsset);
      }

      if graph != null {
        graph.AddPoint(currentYear + 1, currentAsset);
      }
    }

    /** Adds one point to the chart. */
    method PlotPoint(year: int, asset: int)
      requires graph != null
      modifies graph
      ensures graph.dataPoints == old(graph.dataPoints) + [DataPoint(year, asset)]
    {
      graph.AddPoint(year, asset);
    }

    /** Start's clamp, snap to the step and clamp again of the monthly amount. */
    method NormaliseMonthlyAmount()
      requires monthlyStep > 0
      modifies this`monthlyAmount
      ensures monthlyAmount == NormalisedAmount(old(monthlyAmount), monthlyStep, minMonthlyAmount, maxMonthlyAmount)
    {
      monthlyAmount := ClampInt(monthlyAmount, minMonthlyAmount, maxMonthlyAmount);
      monthlyAmount := RoundToInt(monthlyAmount as real / monthlyStep as real) * monthlyStep;
      monthlyAmount := ClampInt(monthlyAmount, minMonthlyAmount, maxMonthlyAmount);
    }

    /**
     * The "next year" button: nothing at the last year; otherwise books one year at the current settings
     * and moves to the next year.
     */
    method OnClickNextYear()
      requires Valid()
      modifies this, graph
      ensures Valid()
      ensures old(currentYear) >= maxYear ==> unchanged(this) && (graph != null ==> unchanged(graph))
      ensures old(currentYear) < maxYear ==>
        && currentYear == old(currentYear) + 1
        && currentAsset == PreviewAsset(old(currentYear), monthlyAmount, old(assetAtStartOfYear),
                                        AnnualReturnRate(config, currentRiskType))
        && assetAtStartOfYear == currentAsset
        && totalPrincipal == old(totalPrincipal) + monthlyAmount * 12
        && (graph != null ==> graph.dataPoints == old(graph.dataPoints) + [DataPoint(currentYear, currentAsset)])
      ensures monthlyAmount == old(monthlyAmount) && currentRiskType == old(currentRiskType)
      ensures monthlyStep == old(monthlyStep)
      ensures riskLabel == old(riskLabel) && hasRiskCallbackInitialized == old(hasRiskCallbackInitialized)
      ensures sliderMin == old(sliderMin) && sliderMax == old(sliderMax) && sliderValue == old(sliderValue)
    {
      if currentYear >= maxYear {
        return;
      }

      SimulateOneYear();

      currentYear := currentYear + 1;

      UpdateRiskUIInteractable();
    }

    /** The "+" button. */
    method OnClickIncreaseMonthly()
      requires Valid()
      modifies this
      ensures Valid()
      ensures monthlyAmount == IncreasedAmount(old(monthlyAmount), monthlyStep, minMonthlyAmount, maxMonthlyAmount)
      ensures sliderValue == monthlyAmount as real
      ensures currentAsset == PreviewAsset(currentYear, monthlyAmount, assetAtStartOfYear, AnnualReturnRate(config, currentRiskType))
      ensures currentYear == old(currentYear) && assetAtStartOfYear == old(assetAtStartOfYear)
      ensures totalPrincipal == old(totalPrincipal) && currentRiskType == old(currentRiskType)
      ensures monthlyStep == old(monthlyStep)
      ensures riskLabel == old(riskLabel) && hasRiskCallbackInitialized == old(hasRiskCallbackInitialized)
      ensures sliderMin == old(sliderMin) && sliderMax == old(sliderMax)
    {
      monthlyAmount := MinInt(monthlyAmount + monthlyStep, maxMonthlyAmount);
      monthlyAmount := RoundToInt(monthlyAmount as real / monthlyStep as real) * monthlyStep;
      monthlyAmount := ClampInt(monthlyAmount, minMonthlyAmount, maxMonthlyAmount);

      isUpdatingMonthlySlider := true;
      sliderValue := monthlyAmount as real;
      isUpdatingMonthlySlider := false;

      UpdateCurrentYearPreviewAsset();
    }

    /** The "-" button. */
    method OnClickDecreaseMonthly()
      requires Valid()
      modifies this
      ensures Valid()
      ensures monthlyAmount == DecreasedAmount(old(monthlyAmount), monthlyStep, minMonthlyAmount, maxMonthlyAmount)
      ensures sliderValue == monthlyAmount as real
      ensures currentAsset == PreviewAsset(currentYear, monthlyAmount, assetAtStartOfYear, AnnualReturnRate(config, currentRiskType))
      ensures currentYear == old(currentYear) && assetAtStartOfYear == old(assetAtStartOfYear)
      ensures totalPrincipal == old(totalPrincipal) && currentRiskType == old(currentRiskType)
      ensures monthlyStep == old(monthlyStep)
      ensures riskLabel == old(riskLabel) && hasRiskCallbackInitialized == old(hasRiskCallbackInitialized)
      ensures sliderMin == old(sliderMin) && sliderMax == old(sliderMax)
    {
      monthlyAmount := MaxInt(monthlyAmount - monthlyStep, minMonthlyAmount);
      monthlyAmount := RoundToInt(monthlyAmount as real / monthlyStep as real) * monthlyStep;
      monthlyAmount := ClampInt(monthlyAmount, minMonthlyAmount, maxMonthlyAmount);

      isUpdatingMonthlySlider := true;
      sliderValue := monthlyAmount as real;
      isUpdatingMonthlySlider := false;

      UpdateCurrentYearPreviewAsset();
    }

    /** The slider's value-changed callback; ignored while the script itself is moving the slider. */
    method OnMonthlySliderChanged(value: real)
      requires monthlyStep > 0
      modifies this
      ensures monthlyStep == old(monthlyStep)
      ensures isUpdatingMonthlySlider == old(isUpdatingMonthlySlider)
      ensures old(isUpdatingMonthlySlider) ==> unchanged(this)
      ensures !old(isUpdatingMonthlySlider) ==>
        && monthlyAmount == SliderAmount(value, monthlyStep, minMonthlyAmount, maxMonthlyAmount)
        && sliderValue == monthlyAmount as real
        && currentAsset == PreviewAsset(currentYear, monthlyAmount, assetAtStartOfYear, AnnualReturnRate(config, currentRiskType))
      ensures old(Valid()) ==> Valid()
      ensures currentYear == old(currentYear) && assetAtStartOfYear == old(assetAtStartOfYear)
      ensures totalPrincipal == old(totalPrincipal) && currentRiskType == old(currentRiskType)
      ensures riskLabel == old(riskLabel) && hasRiskCallbackInitialized == old(hasRiskCallbackInitialized)
      ensures sliderMin == old(sliderMin) && sliderMax == old(sliderMax)
      ensures riskLowInteractable == old(riskLowInteractable) && riskMiddleInteractable == old(riskMiddleInteractable)
      ensures riskHighInteractable == old(riskHighInteractable)
    {
      if isUpdatingMonthlySlider {
        return;
      }

      var snapped := RoundToInt(value / monthlyStep as real) * monthlyStep;
      snapped := ClampInt(snapped, minMonthlyAmount, maxMonthlyAmount);

      monthlyAmount := snapped;

      isUpdatingMonthlySlider := true;
      sliderValue := monthlyAmount as real;
      isUpdatingMonthlySlider := false;

      UpdateCurrentYearPreviewAsset();
    }

    /** Enables or disables the three risk toggles together, according to the current year. */
    method UpdateRiskUIInteractable()
      modifies this`riskLowInteractable, this`riskMiddleInteractable, this`riskHighInteractable
      ensures riskLowInteractable == riskMiddleInteractable == riskHighInteractable == CanChangeRisk(currentYear)
    {
      var canEdit := CanChangeRisk(currentYear);

      riskLowInteractable := canEdit;
      riskMiddleInteractable := canEdit;
      riskHighInteractable := canEdit;
    }

    /** The low-risk toggle's callback. */
    method OnSelectRiskLow(isOn: bool)
      modifies this
      ensures !isOn ==> unchanged(this)
      ensures isOn ==> currentRiskType == 0 && riskLabel == LowRiskLabel && hasRiskCallbackInitialized
      ensures isOn && old(hasRiskCallbackInitialized) ==> currentAsset == PreviewAsset(currentYear, monthlyAmount, assetAtStartOfYear, config.lowRiskReturnRate)
      ensures isOn && !old(hasRiskCallbackInitialized) ==> currentAsset == old(currentAsset)
      ensures old(Valid()) ==> Valid()
      ensures currentYear == old(currentYear) && monthlyAmount == old(monthlyAmount)
      ensures assetAtStartOfYear == old(assetAtStartOfYear) && totalPrincipal == old(totalPrincipal)
      ensures monthlyStep == old(monthlyStep)
      ensures sliderMin == old(sliderMin) && sliderMax == old(sliderMax) && sliderValue == old(sliderValue)
      ensures isUpdatingMonthlySlider == old(isUpdatingMonthlySlider)
      ensures riskLowInteractable == old(riskLowInteractable) && riskMiddleInteractable == old(riskMiddleInteractable)
      ensures riskHighInteractable == old(riskHighInteractable)
    {
      SelectRisk(0, isOn);
    }

    /** The middle-risk toggle's callback. */
    method OnSelectRiskMiddle(isOn: bool)
      modifies this
      ensures !isOn ==> unchanged(this)
      ensures isOn ==> currentRiskType == 1 && riskLabel == MiddleRiskLabel && hasRiskCallbackInitialized
      ensures isOn && old(hasRiskCallbackInitialized) ==> currentAsset == PreviewAsset(currentYear, monthlyAmount, assetAtStartOfYear, config.middleRiskReturnRate)
      ensures isOn && !old(hasRiskCallbackInitialized) ==> currentAsset == old(currentAsset)
      ensures old(Valid()) ==> Valid()
      ensures currentYear == old(currentYear) && monthlyAmount == old(monthlyAmount)
      ensures assetAtStartOfYear == old(assetAtStartOfYear) && totalPrincipal == old(totalPrincipal)
      ensures monthlyStep == old(monthlyStep)
      ensures sliderMin == old(sliderMin) && sliderMax == old(sliderMax) && sliderValue == old(sliderValue)
      ensures isUpdatingMonthlySlider == old(isUpdatingMonthlySlider)
      ensures riskLowInteractable == old(riskLowInteractable) && riskMiddleInteractable == old(riskMiddleInteractable)
      ensures riskHighInteractable == old(riskHighInteractable)
    {
      SelectRisk(1, isOn);
    }

    /** The high-risk toggle's callback. */
    method OnSelectRiskHigh(isOn: bool)
      modifies this
      ensures !isOn ==> unchanged(this)
      ensures isOn ==> currentRiskType == 2 && riskLabel == HighRiskLabel && hasRiskCallbackInitialized
      ensures isOn && old(hasRiskCallbackInitialized) ==> currentAsset == PreviewAsset(currentYear, monthlyAmount, assetAtStartOfYear, config.highRiskReturnRate)
      ensures isOn && !old(hasRiskCallbackInitialized) ==> currentAsset == old(currentAsset)
      ensures old(Valid()) ==> Valid()
      ensures currentYear == old(currentYear) && monthlyAmount == old(monthlyAmount)
      ensures assetAtStartOfYear == old(assetAtStartOfYear) && totalPrincipal == old(totalPrincipal)
      ensures monthlyStep == old(monthlyStep)
      ensures sliderMin == old(sliderMin) && sliderMax == old(sliderMax) && sliderValue == old(sliderValue)
      ensures isUpdatingMonthlySlider == old(isUpdatingMonthlySlider)
      ensures riskLowInteractable == old(riskLowInteractable) && riskMiddleInteractable == old(riskMiddleInteractable)
      ensures riskHighInteractable == old(riskHighInteractable)
    {
      SelectRisk(2, isOn);
    }

    /** What the three toggle callbacks share: a switched-off toggle is ignored, the first accepted call skips the preview. */
    method SelectRisk(riskType: int, isOn: bool)
      modifies this
      ensures !isOn ==> unchanged(this)
      ensures isOn ==> currentRiskType == riskType && riskLabel == RiskLabelOf(riskType) && hasRiskCallbackInitialized
      ensures isOn && old(hasRiskCallbackInitialized) ==> currentAsset == PreviewAsset(currentYear, monthlyAmount, assetAtStartOfYear, AnnualReturnRate(config, riskType))
      ensures isOn && !old(hasRiskCallbackInitialized) ==> currentAsset == old(currentAsset)
      ensures currentYear == old(currentYear) && monthlyAmount == old(monthlyAmount) && monthlyStep == old(monthlyStep)
      ensures assetAtStartOfYear == old(assetAtStartOfYear) && totalPrincipal == old(totalPrincipal)
      ensures isUpdatingMonthlySlider == old(isUpdatingMonthlySlider)
      ensures riskLowInteractable == old(riskLowInteractable) && riskMiddleInteractable == old(riskMiddleInteractable)
      ensures riskHighInteractable == old(riskHighInteractable)
      ensures sliderMin == old(sliderMin) && sliderMax == old(sliderMax) && sliderValue == old(sliderValue)
    {
      if !isOn {
        return;
      }

      currentRiskType := riskType;
      UpdateRiskLabel();

      if !hasRiskCallbackInitialized {
        hasRiskCallbackInitialized := true;
        return;
      }

      UpdateCurrentYearPreviewAsset();
    }

    method UpdateRiskLabel()
      modifies this`riskLabel
      ensures riskLabel == RiskLabelOf(currentRiskType)
    {
      riskLabel := RiskLabelOf(currentRiskType);
    }

    /** Recomputes this year's projected end asset from the current amount and tier. */
    method UpdateCurrentYearPreviewAsset()
      modifies this`currentAsset
      ensures currentAsset == PreviewAsset(currentYear, monthlyAmount, assetAtStartOfYear, AnnualReturnRate(config, currentRiskType))
    {
      if currentYear == 0 {
        currentAsset := monthlyAmount;
      } else {
        var yearlyContribution := monthlyAmount * 12;
        var rate := AnnualReturnRate(config, currentRiskType);

        var after := (assetAtStartOfYear + yearlyContribution) as real * (1.0 + rate);
        assert after == YearEndValue(assetAtStartOfYear, monthlyAmount, rate);

        currentAsset := RoundToInt(after);
      }
    }

    /** Books the current year: refreshes the preview, adds a year of contributions, and plots the year's end. */
    method SimulateOneYear()
      modifies this`currentAsset, this`totalPrincipal, this`assetAtStartOfYear, graph
      ensures currentAsset == PreviewAsset(currentYear, monthlyAmount, old(assetAtStartOfYear), AnnualReturnRate(config, currentRiskType))
      ensures totalPrincipal == old(totalPrincipal) + monthlyAmount * 12
      ensures assetAtStartOfYear == currentAsset
      ensures graph != null ==> graph.dataPoints == old(graph.dataPoints) + [DataPoint(currentYear + 1, currentAsset)]
    {
      UpdateCurrentYearPreviewAsset();

      var yearlyContribution := monthlyAmount * 12;

      totalPrincipal := totalPrincipal + yearlyContribution;

      assetAtStartOfYear := currentAsset;

      if graph != null {
        var newYear := currentYear + 1;
        PlotPoint(newYear, currentAsset);
      }
    }
  }
}
