/** The risk tiers (the `RiskType` enum) and the monthly return range each tier draws from. */
module Risk {

  /** Declared in the order Low, Medium, High, whose underlying C# values are 0, 1 and 2. */
  datatype RiskType = Low | Medium | High

  /**
   * The inclusive percent range [lo, hi] that GetMonthlyChangePercent passes to Random.Range:
   * every range straddles zero, cannot wipe out the asset in one month, and is skewed upwards.
   */
  function MonthlyChangeRange(t: RiskType): (range: (real, real))
    ensures -100.0 < range.0 < 0.0 < range.1
    ensures range.1 > -range.0
  {
    match t
    case Low => (-1.0, 2.0)
    case Medium => (-3.0, 4.0)
    case High => (-6.0, 8.0)
  }

  /** `percent` is a value Random.Range can return for tier `t`. */
  predicate IsMonthlyDraw(t: RiskType, percent: real)
  {
    MonthlyChangeRange(t).0 <= percent <= MonthlyChangeRange(t).1
  }

  /** The tiers are nested: every Low draw is a possible Medium draw, and every Medium draw a possible High draw. */
  lemma MonthlyRangesNested(percent: real)
    ensures IsMonthlyDraw(Low, percent) ==> IsMonthlyDraw(Medium, percent)
    ensures IsMonthlyDraw(Medium, percent) ==> IsMonthlyDraw(High, percent)
  {
  }
}
