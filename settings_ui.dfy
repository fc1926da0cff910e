/** SettingsUIController: the settings screen's slider (monthly amount) and dropdown (risk tier). */
module SettingsUI {

  import opened Wrappers
  import opened Numerics
  import opened Risk
  import opened Settings

  /** The dropdown entry of a tier: 0 Low, 1 Medium, 2 High; choosing that entry selects the same tier again. */
  function RiskTypeToIndex(risk: RiskType): (index: int)
    ensures 0 <= index <= 2
    ensures RiskTypeFromIndex(index) == risk
  {
    match risk
    case Low => 0
    case Medium => 1
    case High => 2
  }

  /** The other direction of the round trip: every dropdown entry shows the tier it selects. */
  lemma IndexRoundTrip(index: int)
    requires 0 <= index <= 2
    ensures RiskTypeToIndex(RiskTypeFromIndex(index)) == index
  {
  }

  /**
   * The amount ApplySettingsToUI puts on the slider: raised to round(min) when below `min`, then lowered
   * to round(max) when above `max`. It is never more than half a unit outside the slider's range, lies
   * inside it when the bounds are whole numbers, and is the stored amount when that is already in range.
   */
  function SliderAmount(amount: int, min: real, max: real): (r: int)
    ensures min <= max ==> min - 0.5 <= r as real <= max + 0.5
    ensures min <= max && min == min.Floor as real && max == max.Floor as real ==> min <= r as real <= max
    ensures min <= amount as real <= max ==> r == amount
  {
    var raised := if (amount as real) < min then RoundToInt(min) else amount;
    if (raised as real) > max then RoundToInt(max) else raised
  }

  class SettingsUIController {
    /** GameSettings.Instance as Awake found it. */
    const settings: GameSettings?
    const sliderMin: real
    const sliderMax: real

    var sliderValue: real
    var dropdownValue: int
    /** The amount the monthly-amount text shows, once some handler has written it. */
    var shownAmount: Option<int>
    var isInitialized: bool

    constructor (settings: GameSettings?, sliderMin: real, sliderMax: real, sliderValue: real, dropdownValue: int)
      ensures this.settings == settings && this.sliderMin == sliderMin && this.sliderMax == sliderMax
      ensures this.sliderValue == sliderValue && this.dropdownValue == dropdownValue
      ensures shownAmount == None && !isInitialized
    {
      this.settings := settings;
      this.sliderMin := sliderMin;
      this.sliderMax := sliderMax;
      this.sliderValue := sliderValue;
      this.dropdownValue := dropdownValue;
      shownAmount := None;
      isInitialized := false;
    }

    /** Shows the stored settings and only then lets the handlers act. */
    method Start()
      modifies this
      ensures settings == null ==> sliderValue == old(sliderValue) && dropdownValue == old(dropdownValue) && shownAmount == old(shownAmount)
      ensures settings != null ==>
        && sliderValue == SliderAmount(settings.monthlyAmount, sliderMin, sliderMax) as real
        && shownAmount == Some(settings.monthlyAmount)
        && dropdownValue == RiskTypeToIndex(settings.riskType)
      ensures isInitialized
    {
      ApplySettingsToUI();
      isInitialized := true;
    }

    /**
     * Copies the settings into the widgets; the text shows the stored amount even when the slider had
     * to be clamped. Without settings nothing changes.
     */
    method ApplySettingsToUI()
      modifies this
      ensures settings == null ==> unchanged(this)
      ensures settings != null ==>
        && sliderValue == SliderAmount(settings.monthlyAmount, sliderMin, sliderMax) as real
        && shownAmount == Some(settings.monthlyAmount)
        && dropdownValue == RiskTypeToIndex(settings.riskType)
      ensures isInitialized == old(isInitialized)
    {
      if settings == null {
        return;
      }

      var min := sliderMin;
      var max := sliderMax;
      var amount := settings.monthlyAmount;

      if (amount as real) < min {
        amount := RoundToInt(min);
      }
      if (amount as real) > max {
        amount := RoundToInt(max);
      }

      sliderValue := amount as real;

      shownAmount := Some(settings.monthlyAmount);

      var index := RiskTypeToIndex(settings.riskType);
      dropdownValue := index;
    }

    /**
     * Stores the rounded slider value in the settings (which raise a negative amount to 0) and shows the
     * rounded value. Before Start, or without settings, nothing changes.
     */
    method OnMonthlyAmountSliderChanged(value: real)
      modifies this, settings
      ensures !old(isInitialized) || settings == null ==> unchanged(this)
      ensures !old(isInitialized) && settings != null ==> unchanged(settings)
      ensures old(isInitialized) && settings != null ==>
        && settings.monthlyAmount == MaxInt(RoundToInt(value), 0)
        && settings.riskType == old(settings.riskType) && settings.totalYears == old(settings.totalYears)
        && shownAmount == Some(RoundToInt(value))
        && sliderValue == old(sliderValue) && dropdownValue == old(dropdownValue) && isInitialized
    {
      if !isInitialized || settings == null {
        return;
      }

      var amount := RoundToInt(value);
      settings.SetMonthlyAmount(amount);
      shownAmount := Some(amount);
    }

    /** Selects the dropdown's tier in the settings; before Start, or without settings, nothing changes. */
    method OnRiskDropdownChanged(index: int)
      modifies settings
      ensures !isInitialized && settings != null ==> unchanged(settings)
      ensures isInitialized && settings != null ==>
        && settings.riskType == RiskTypeFromIndex(index)
        && settings.monthlyAmount == old(settings.monthlyAmount) && settings.totalYears == old(settings.totalYears)
    {
      if !isInitialized || settings == null {
        return;
      }

      settings.SetRiskTypeByIndex(index);
    }
  }
}
