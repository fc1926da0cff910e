/**
 * ResultUIController: the result scene. It reads the stored run from ResultData, works out the principal,
 * the profit and the profit rate, colours them, redraws the chart and picks the character's closing comment.
 */
module ResultUI {

  import opened Wrappers
  import opened Numerics
  import opened Tones
  import opened Settings
  import opened Results
  import opened Geometry
  import opened Graph

  /** The years assumed when neither the settings nor a usable history say how long the run was. */
  const FallbackYears := 15

  /**
   * The run's length read off its history, which holds the starting point plus one point per year:
   * 15 without a history or with at most one point, otherwise one less than the number of points.
   */
  function GuessYearsFromResult(history: Option<seq<real>>): (years: int)
    ensures years >= 1
    ensures history.None? || |history.value| <= 1 ==> years == FallbackYears
    ensures history.Some? && |history.value| > 1 ==> years == |history.value| - 1
  {
    if history.None? then FallbackYears
    else
      var count := |history.value|;
      if count <= 1 then FallbackYears
      else MaxInt(1, count - 1)
  }

  /** A finished run of `totalYears` years leaves `totalYears + 1` points, and the guess recovers its length. */
  lemma GuessRecoversFinishedRun(history: seq<real>, totalYears: int)
    requires totalYears >= 1 && |history| == totalYears + 1
    ensures GuessYearsFromResult(Some(history)) == totalYears
  {
  }

  /** The profit rate in percent; 0 when nothing was paid in (or the principal wrapped negative). */
  function ProfitPercent(profit: real, principal: real): (percent: real)
    ensures principal > 0.0 ==> percent * principal == profit * 100.0
    ensures principal <= 0.0 ==> percent == 0.0
  {
    if principal > 0.0 then profit / principal * 100.0 else 0.0
  }

  /** The rate has the sign of the profit whenever there is a principal. */
  lemma ProfitPercentSign(profit: real, principal: real)
    requires principal > 0.0
    ensures ProfitPercent(profit, principal) > 0.0 <==> profit > 0.0
    ensures ProfitPercent(profit, principal) < 0.0 <==> profit < 0.0
  {
    var p := ProfitPercent(profit, principal);
    assert p * principal == profit * 100.0;
    if p > 0.0 { assert p * principal > 0.0; }
    if p < 0.0 { assert p * principal < 0.0; }
    if p == 0.0 { assert p * principal == 0.0; }
  }

  /**
   * What a band boundary of the rate means in money: the rate exceeds `x` percent exactly when the final
   * asset exceeds the principal grown by `x` percent.
   */
  lemma ProfitPercentAbove(finalAsset: real, principal: real, x: real)
    requires principal > 0.0
    ensures ProfitPercent(finalAsset - principal, principal) > x <==> finalAsset > principal * (1.0 + x / 100.0)
  {
    var p := ProfitPercent(finalAsset - principal, principal);
    assert p * principal == (finalAsset - principal) * 100.0;
    var target := principal * (1.0 + x / 100.0);
    assert target * 100.0 == principal * 100.0 + x * principal;
    assert (finalAsset - target) * 100.0 == (p - x) * principal;
    if p > x {
      assert (p - x) * principal > 0.0;
    } else {
      assert (p - x) * principal <= 0.0;
    }
  }

  /** The five closing comments, from the best result to the worst. */
  datatype FinalComment = BigGrowth | SolidGrowth | SlowGrowth | RoughlyFlat | EndedInLoss

  /** Bands above 50%, above 10%, above 0.1%, above -5%, and the rest. */
  function GetFinalComment(profitPercent: real): (c: FinalComment)
    ensures c == BigGrowth <==> profitPercent > 50.0
    ensures c == SolidGrowth <==> 10.0 < profitPercent <= 50.0
    ensures c == SlowGrowth <==> 0.1 < profitPercent <= 10.0
    ensures c == RoughlyFlat <==> -5.0 < profitPercent <= 0.1
    ensures c == EndedInLoss <==> profitPercent <= -5.0
  {
    if profitPercent > 50.0 then BigGrowth
    else if profitPercent > 10.0 then SolidGrowth
    else if profitPercent > 0.1 then SlowGrowth
    else if profitPercent > -5.0 then RoughlyFlat
    else EndedInLoss
  }

  function FinalCommentRank(c: FinalComment): nat
  {
    match c
    case EndedInLoss => 0
    case RoughlyFlat => 1
    case SlowGrowth => 2
    case SolidGrowth => 3
    case BigGrowth => 4
  }

  /** A better rate never gets a gloomier closing comment. */
  lemma FinalCommentMonotone(a: real, b: real)
    requires a <= b
    ensures FinalCommentRank(GetFinalComment(a)) <= FinalCommentRank(GetFinalComment(b))
  {
  }

  /** Everything the result screen shows besides its fixed texts and the chart. */
  datatype ResultView = ResultView(finalAsset: real, principal: real, profit: real, profitTone: Tone,
                                   profitPercent: real, percentTone: Tone, comment: FinalComment)

  /** The result screen for a stored run, with the run's length `totalYears`. */
  function ResultViewOf(finalAsset: real, monthlyAmount: int, totalYears: int): (v: ResultView)
    ensures v.principal == PrincipalOf(monthlyAmount, totalYears) as real
    ensures v.finalAsset == finalAsset && v.profit == finalAsset - v.principal
    ensures v.principal > 0.0 ==> v.profitPercent * v.principal == v.profit * 100.0
    ensures v.principal <= 0.0 ==> v.profitPercent == 0.0
    ensures v.profitTone == ToneOf(v.profit) && v.percentTone == ToneOf(v.profitPercent)
    ensures v.comment == GetFinalComment(v.profitPercent)
  {
    var principal := PrincipalOf(monthlyAmount, totalYears) as real;
    var profit := finalAsset - principal;
    var percent := ProfitPercent(profit, principal);
    ResultView(finalAsset, principal, profit, ToneOf(profit), percent, ToneOf(percent), GetFinalComment(percent))
  }

  /** With a principal, the profit colour and the rate colour can disagree only around zero: a profit and a loss are never swapped. */
  lemma ResultTonesAgreeOnSign(finalAsset: real, monthlyAmount: int, totalYears: int)
    requires PrincipalOf(monthlyAmount, totalYears) > 0
    ensures var v := ResultViewOf(finalAsset, monthlyAmount, totalYears);
      (v.profitTone == Positive ==> v.profitPercent > 0.0) && (v.profitTone == Negative ==> v.profitPercent < 0.0)
  {
    var v := ResultViewOf(finalAsset, monthlyAmount, totalYears);
    ProfitPercentSign(v.profit, v.principal);
  }

  class ResultUIController {
    /** ResultData.Instance and GameSettings.Instance as Awake finds them. */
    const result: ResultData?
    const gameSettings: GameSettings?
    const graphRenderer: GraphRenderer?

    /** What the screen shows; None until Start has found a result. */
    var view: Option<ResultView>

    constructor (result: ResultData?, gameSettings: GameSettings?, graphRenderer: GraphRenderer?)
      ensures this.result == result && this.gameSettings == gameSettings && this.graphRenderer == graphRenderer
      ensures view == None
    {
      this.result := result;
      this.gameSettings := gameSettings;
      this.graphRenderer := graphRenderer;
      view := None;
    }

    /** The run's length: from the settings when they exist, else guessed from the stored history. */
    function TotalYears(): (years: int)
      requires result != null
      reads this, result, gameSettings
      ensures gameSettings != null ==> years == gameSettings.totalYears
      ensures gameSettings == null ==> years == GuessYearsFromResult(Some(result.yearlyAssets)) && years >= 1
    {
      if gameSettings != null then gameSettings.totalYears else GuessYearsFromResult(Some(result.yearlyAssets))
    }

    /**
     * Without a result nothing happens. Otherwise the principal, profit, rate, colours and comment are
     * shown for the stored run and the chart is redrawn from its history.
     */
    method Start()
      modifies this`view, graphRenderer
      ensures result == null ==> view == old(view) && (graphRenderer != null ==> unchanged(graphRenderer))
      ensures result != null ==> view == Some(ResultViewOf(result.finalAsset, result.monthlyAmount, TotalYears()))
      ensures result != null && graphRenderer != null && graphRenderer.hasContainer ==>
        && graphRenderer.pointObjects == graphRenderer.PointsFor(Some(result.yearlyAssets))
        && graphRenderer.lineObjects == Segments(graphRenderer.pointObjects)
      ensures graphRenderer != null && !graphRenderer.hasContainer ==> unchanged(graphRenderer)
    {
      if result == null {
        return;
      }

      var totalYears := if gameSettings != null then gameSettings.totalYears else GuessYearsFromResult(Some(result.yearlyAssets));
      var monthlyAmount := result.monthlyAmount;

      var principal := PrincipalOf(monthlyAmount, totalYears) as real;

      var finalAsset := result.finalAsset;

      var profit := finalAsset - principal;
      var profitPercent := if principal > 0.0 then profit / principal * 100.0 else 0.0;

      UpdateTexts(finalAsset, principal, profit, profitPercent);

      if graphRenderer != null {
        graphRenderer.UpdateGraph(Some(result.yearlyAssets));
      }
    }

    /** Shows the four amounts with their colours and the comment for the rate. */
    method UpdateTexts(finalAsset: real, principal: real, profit: real, profitPercent: real)
      modifies this`view
      ensures view == Some(ResultView(finalAsset, principal, profit, ToneOf(profit), profitPercent,
                                      ToneOf(profitPercent), GetFinalComment(profitPercent)))
    {
      var profitTone := if profit > 0.01 then Positive else if profit < -0.01 then Negative else Neutral;
      var percentTone := if profitPercent > 0.01 then Positive else if profitPercent < -0.01 then Negative else Neutral;
      view := Some(ResultView(finalAsset, principal, profit, profitTone, profitPercent, percentTone,
                              GetFinalComment(profitPercent)));
    }
  }
}
