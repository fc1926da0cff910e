# TsumitateMirai in Dafny

TsumitateMirai is a small Unity game about regular NISA-style saving ("tsumitate"). The player chooses a
monthly amount and a risk tier. The game then invests that amount every month for a number of years,
15 by default, and shows how the asset grows. This project models the game's logic in Dafny and proves
properties of that model. The scene, audio and rendering layers are left out.

The model covers the following parts of the game.

- **The monthly-random engine** (`SimulationCore`, from `SimulationManager.cs`). Each month the
  contribution is added, then the asset grows or shrinks by a random percentage. The range of that
  percentage is set by the tier (`Risk`). A finished year is appended to the history, and the year's
  change percent is recorded.
- **The yearly screen** (`SimulationUI`, from `SimulationUIController.cs`). The "next year" button drives
  the engine. The screen switches from STEP1 to STEP2 after the first year, and the button becomes a
  result button once the run is over. Each year gets an arrow, a colour (`Tones`) and a comment band.
- **The fixed-rate scene** (`SceneSimulation`, from `SimulationSceneManager.cs`). This is a second,
  independent engine that uses integer yen and one fixed annual rate per tier. It covers:
  - the monthly amount's clamp and snap-to-step rules for Start, the "+" and "-" buttons and the slider;
  - the re-entry flag of the slider callback;
  - the risk-change windows (years 0, 5 and 10);
  - the yearly preview and booking.
- **Its chart** (`SceneGraph`, from `SimulationGraphUI.cs`). This covers the growing vertical maximum,
  the clamped point coordinates and the vertical-axis label values.
- **The line chart** (`Graph`, from `GraphRenderer.cs`). This covers the minimum and maximum scan, the
  fix for a flat range, and the point and line positions.
- **Settings and the result holder** (`Settings`, `Results`, `SettingsUI`). This covers
  `GameSettings`, `ResultData` and `SettingsUIController`: the setters, the copy of a result by value,
  and the principal.
- **The result screen** (`ResultUI`, from `ResultUIController.cs`). This covers the principal, the
  profit and the profit rate, their colours, the guess of the run's length and the closing-comment bands.
- **The two tutorial step machines** (`HowToPlayUI` and `HowToPlayScene`).

Conventions:

- **Money and rates** are `real`.
- **`Mathf.RoundToInt`** is round-half-to-even.
- **`Mathf.Approximately`** is equality.
- **C# `int` products whose operands are not bounded** wrap explicitly (`Numerics.WrapInt32`).
- **`Random.Range`** is replaced by a sequence of monthly draws passed in as an argument. A precondition
  keeps each draw inside the tier's range.
- **The C# events** `OnYearSimulated` and `OnSimulationFinished` become the `YearEvents` value that
  `SimulateOneYear` returns.
- **The singletons** `GameSettings.Instance` and `ResultData.Instance` become nullable parameters or
  fields.
- **Text widgets** become view values (`Step1View`, `Step2View`, `ResultView`, label sequences).
  Japanese texts become enum tags.

## Model

| member | source | states |
|---|---|---|
| Numerics.WrapInt32 | Assets/NisaGame/Scripts/Managers/ResultData.cs:76-77 | the result is the exact product reduced into the 32-bit range; it is congruent to it modulo 2^32 and equal to it when it fits |
| Numerics.RoundToInt | Assets/NisaGame/Scripts/SimulationSceneUIScript/SimulationSceneManager.cs:366 | the result is at most half a unit from the input, and a tie goes to the even integer |
| Numerics.RoundToIntMonotone | Assets/NisaGame/Scripts/SimulationSceneUIScript/SimulationGraphUI.cs:160 | rounding preserves order |
| Numerics.RoundToIntOfInt | Assets/NisaGame/Scripts/SimulationSceneUIScript/SimulationSceneManager.cs:78 | an integral value rounds to itself |
| Numerics.ClampInt | Assets/NisaGame/Scripts/SimulationSceneUIScript/SimulationSceneManager.cs:63 | the result lies in [min, max] when min <= max, is the value when the value is already inside, and is always one of value, min or max |
| Numerics.Clamp01 | Assets/NisaGame/Scripts/SimulationSceneUIScript/SimulationGraphUI.cs:104-105 | the result lies in [0, 1] and is the value itself when that is already in [0, 1] |
| Numerics.MaxReal | Assets/NisaGame/Scripts/SimulationSceneUIScript/SimulationGraphUI.cs:56 | the result is an upper bound of both arguments and is one of them |
| Numerics.MinInt | Assets/NisaGame/Scripts/SimulationSceneUIScript/SimulationSceneManager.cs:161 | the result is a lower bound of both arguments and is one of them |
| Numerics.MaxInt | Assets/NisaGame/Scripts/UI/ResultUIController.cs:159 | the result is an upper bound of both arguments and is one of them |
| Geometry.Segments | Assets/NisaGame/Scripts/Simulation/GraphRenderer.cs:108-114 | one line per pair of consecutive points, line k joining point k to point k+1 |
| Geometry.SegmentsSnoc | Assets/NisaGame/Scripts/SimulationSceneUIScript/SimulationGraphUI.cs:120-141 | drawing one more point adds exactly one line, from the previous last point to the new one |
| Risk.MonthlyChangeRange | Assets/NisaGame/Scripts/Simulation/SimulationManager.cs:165-178 | each tier's monthly range straddles 0, stays above -100% and has a larger upside than downside |
| Risk.MonthlyRangesNested | Assets/NisaGame/Scripts/Simulation/SimulationManager.cs:169-174 | every Low draw is a possible Medium draw, and every Medium draw a possible High draw |
| Tones.ToneOf | Assets/NisaGame/Scripts/Simulation/SimulationUIController.cs:196-206 | the tone is the up arrow and green exactly above 0.01, the down arrow and red exactly below -0.01, and the flat arrow and grey otherwise |
| Tones.ToneMonotone | Assets/NisaGame/Scripts/UI/ResultUIController.cs:111-141 | a larger value never gets a lower colour |
| Settings.RiskTypeFromIndex | Assets/NisaGame/Scripts/Managers/GameSettings.cs:100-117 | index 0 selects Low and index 2 selects High; every other index (1 and all out-of-range values) selects Medium |
| Settings.GameSettings.constructor | Assets/NisaGame/Scripts/Managers/GameSettings.cs:40-47 | the settings start at 15 years, 10000 a month and Medium |
| Settings.GameSettings.SetMonthlyAmount | Assets/NisaGame/Scripts/Managers/GameSettings.cs:75-85 | a negative amount is stored as 0 and any other amount as given; the other settings are unchanged |
| Settings.GameSettings.SetRiskType | Assets/NisaGame/Scripts/Managers/GameSettings.cs:91-94 | the tier is stored; the other settings are unchanged |
| Settings.GameSettings.SetRiskTypeByIndex | Assets/NisaGame/Scripts/Managers/GameSettings.cs:100-117 | the tier becomes RiskTypeFromIndex(index); the other settings are unchanged |
| Settings.GameSettings.ResetToDefault | Assets/NisaGame/Scripts/Managers/GameSettings.cs:123-128 | all three settings return to their defaults |
| SimulationCore.MonthStep | Assets/NisaGame/Scripts/Simulation/SimulationManager.cs:116-122 | one month: the contribution is added, then the asset is scaled by 1 + percent/100; SimulateOneYear's loop is proved to apply it once per month |
| SimulationCore.Compound | Assets/NisaGame/Scripts/Simulation/SimulationManager.cs:113-123 | the year's asset after one MonthStep per draw, in order; CompoundWithoutReturns, CompoundOfNothing and CompoundNonNegative state its properties, and SimulateOneYear's loop invariant ties the loop to it |
| SimulationCore.CompoundWithoutReturns | Assets/NisaGame/Scripts/Simulation/SimulationManager.cs:113-123 | with every monthly change at 0%, a year adds exactly the months' contributions |
| SimulationCore.CompoundOfNothing | Assets/NisaGame/Scripts/Simulation/SimulationManager.cs:113-123 | a zero asset with zero contributions stays 0 whatever the draws |
| SimulationCore.CompoundNonNegative | Assets/NisaGame/Scripts/Simulation/SimulationManager.cs:113-123 | with no draw below -100%, a non-negative asset with non-negative contributions stays non-negative |
| SimulationCore.ChangePercent | Assets/NisaGame/Scripts/Simulation/SimulationManager.cs:128-139 | the result is 0 when the year started at or below 0; otherwise it is the relative change times 100, and its sign is the sign of the change |
| SimulationCore.SimulationManager.constructor | Assets/NisaGame/Scripts/Simulation/SimulationManager.cs:21-38 | the run starts with the serialized years and months and every other field at its C# default |
| SimulationCore.SimulationManager.StartNewSimulation | Assets/NisaGame/Scripts/Simulation/SimulationManager.cs:63-92 | the configuration comes from the settings, or else is Medium, 15 years and 10000 when the stored amount is not positive; the run resets to year 0 with history [0] |
| SimulationCore.SimulationManager.SimulateOneYear | Assets/NisaGame/Scripts/Simulation/SimulationManager.cs:100-154 | at the last year the call does nothing and sends no event; otherwise the asset is the year's compounding of the draws, the change percent is recorded, the year rises by 1, the asset is appended to the history, and YearSimulated fires (with Finished exactly at the last year); the run invariant is kept and the asset stays non-negative |
| Results.PrincipalOf | Assets/NisaGame/Scripts/Managers/ResultData.cs:76-77 | the principal is monthly × 12 × years as a 32-bit int, exact whenever the product fits |
| Results.DefaultPrincipal | Assets/NisaGame/Scripts/Managers/ResultData.cs:76-77 | with the default settings the principal is 1,800,000 |
| Results.ResultData.constructor | Assets/NisaGame/Scripts/Managers/ResultData.cs:34-38 | the holder starts at 0, 0, an empty history, 0 and Medium |
| Results.ResultData.SetResult | Assets/NisaGame/Scripts/Managers/ResultData.cs:54-89 | without a manager or settings nothing changes; otherwise the amount and tier come from the settings, the final asset from the manager, the principal from PrincipalOf, and the history is a value copy of the manager's |
| Results.ResultData.Clear | Assets/NisaGame/Scripts/Managers/ResultData.cs:95-102 | the holder resets to 0, 0, an empty history, 0 and Medium |
| SettingsUI.RiskTypeToIndex | Assets/NisaGame/Scripts/UI/SettingsUIController.cs:137-150 | the dropdown entry is in 0..2, and choosing it selects the same tier again |
| SettingsUI.IndexRoundTrip | Assets/NisaGame/Scripts/UI/SettingsUIController.cs:126-150 | every dropdown entry 0..2 shows the tier it selects |
| SettingsUI.SliderAmount | Assets/NisaGame/Scripts/UI/SettingsUIController.cs:76-83 | the slider amount is within half a unit of the slider's range, inside it for whole-number bounds, and is the stored amount when that is in range |
| SettingsUI.SettingsUIController.Start | Assets/NisaGame/Scripts/UI/SettingsUIController.cs:42-59 | the widgets show the settings when there are any, and the handlers are enabled afterwards |
| SettingsUI.SettingsUIController.ApplySettingsToUI | Assets/NisaGame/Scripts/UI/SettingsUIController.cs:65-95 | without settings nothing changes; otherwise the slider, the amount text and the dropdown show the stored settings |
| SettingsUI.SettingsUIController.OnMonthlyAmountSliderChanged | Assets/NisaGame/Scripts/UI/SettingsUIController.cs:101-109 | before Start, or without settings, nothing changes; afterwards the rounded value is stored and shown, and the other settings are unchanged |
| SettingsUI.SettingsUIController.OnRiskDropdownChanged | Assets/NisaGame/Scripts/UI/SettingsUIController.cs:126-132 | before Start nothing changes; afterwards the selected tier is stored and the other settings are unchanged |
| Graph.SeqMin | Assets/NisaGame/Scripts/Simulation/GraphRenderer.cs:71-79 | the scan's minimum is a lower bound of the values and is one of them |
| Graph.SeqMax | Assets/NisaGame/Scripts/Simulation/GraphRenderer.cs:71-79 | the scan's maximum is an upper bound of the values and is one of them |
| Graph.ScanStep | Assets/NisaGame/Scripts/Simulation/GraphRenderer.cs:74-79 | one loop step updates the minimum and the maximum of the prefix |
| Graph.ScaleRange | Assets/NisaGame/Scripts/Simulation/GraphRenderer.cs:71-86 | the range is non-empty, starts at the minimum and contains every value, and its top is the maximum, or the minimum + 1 when all values are equal |
| Graph.UsableExtent | Assets/NisaGame/Scripts/Simulation/GraphRenderer.cs:67-68 | the drawable extent is non-negative and at least the size less both paddings |
| Graph.FractionWithin | Assets/NisaGame/Scripts/Simulation/GraphRenderer.cs:100 | the normalised value lies in [0, 1] |
| Graph.XPosition | Assets/NisaGame/Scripts/Simulation/GraphRenderer.cs:94-96 | a lone point at half the usable width, else i/(n−1) of it, after the padding; XPositionWithin and XPositionOrdered state its bounds and order |
| Graph.YPosition | Assets/NisaGame/Scripts/Simulation/GraphRenderer.cs:98-100 | the value's fraction of [lo, hi] of the usable height after the padding; YPositionWithin states its bounds |
| Graph.PlotPoint | Assets/NisaGame/Scripts/Simulation/GraphRenderer.cs:90-102 | the anchored position of point i from XPosition and YPosition; PlotPointsInArea and PlotPointsLeftToRight state where it lies |
| Graph.XPositionWithin | Assets/NisaGame/Scripts/Simulation/GraphRenderer.cs:96-97 | every x lies between the left padding and the padding plus the usable width |
| Graph.YPositionWithin | Assets/NisaGame/Scripts/Simulation/GraphRenderer.cs:99-101 | every y lies between the bottom padding and the padding plus the usable height |
| Graph.PlotPoints | Assets/NisaGame/Scripts/Simulation/GraphRenderer.cs:91-115 | there is one point per value |
| Graph.PlotPointsInArea | Assets/NisaGame/Scripts/Simulation/GraphRenderer.cs:91-103 | every plotted point lies inside the padded drawing area |
| Graph.PlotPointsLeftToRight | Assets/NisaGame/Scripts/Simulation/GraphRenderer.cs:96-97 | later values are never drawn left of earlier ones, and strictly right of them when there is width |
| Graph.XPositionOrdered | Assets/NisaGame/Scripts/Simulation/GraphRenderer.cs:96-97 | the evenly spaced x positions are ordered by index |
| Graph.GraphRenderer.constructor | Assets/NisaGame/Scripts/Simulation/GraphRenderer.cs:20-32 | the renderer starts with the inspector's container, prefabs and paddings and no drawn objects |
| Graph.GraphRenderer.PointsFor | Assets/NisaGame/Scripts/Simulation/GraphRenderer.cs:49-59 | a missing or empty list, or a missing prefab, draws nothing; otherwise there is one point per value |
| Graph.GraphRenderer.UpdateGraph | Assets/NisaGame/Scripts/Simulation/GraphRenderer.cs:38-116 | without a container nothing changes; otherwise the old objects are removed, the points are PointsFor(values), and the lines join consecutive points |
| Graph.GraphRenderer.ScanRange | Assets/NisaGame/Scripts/Simulation/GraphRenderer.cs:71-86 | the loop computes ScaleRange: the minimum, and the maximum or minimum + 1 for a flat list |
| Graph.GraphRenderer.DrawPoints | Assets/NisaGame/Scripts/Simulation/GraphRenderer.cs:89-115 | the loop draws point i at its plotted position and joins each point to the previous one |
| Graph.GraphRenderer.CreatePoint | Assets/NisaGame/Scripts/Simulation/GraphRenderer.cs:121-133 | one point object is appended at the position |
| Graph.GraphRenderer.CreateLine | Assets/NisaGame/Scripts/Simulation/GraphRenderer.cs:138-163 | one line object is appended between the two positions |
| Graph.GraphRenderer.ClearGraph | Assets/NisaGame/Scripts/Simulation/GraphRenderer.cs:168-181 | every point and line object is removed |
| SceneGraph.MaxSeen | Assets/NisaGame/Scripts/SimulationSceneUIScript/SimulationGraphUI.cs:70-74 | the scan's result is non-negative, bounds every stored asset, and is 0 or one of the assets |
| SceneGraph.RaisedMax | Assets/NisaGame/Scripts/SimulationSceneUIScript/SimulationGraphUI.cs:76-80 | the new maximum never falls and bounds every asset; it is the old maximum unless an asset exceeds it, and then 1.1 × the largest asset |
| SceneGraph.AxisLabelValues | Assets/NisaGame/Scripts/SimulationSceneUIScript/SimulationGraphUI.cs:148-166 | there is one value per label, and a single label shows the unrounded maximum |
| SceneGraph.AxisLabelValue | Assets/NisaGame/Scripts/SimulationSceneUIScript/SimulationGraphUI.cs:159-160 | label i of n ≥ 2 is the rounded Share; AxisLabelEnds and AxisLabelsAscend state its ends and order |
| SceneGraph.Share | Assets/NisaGame/Scripts/SimulationSceneUIScript/SimulationGraphUI.cs:159-160 | maximum × i/(n−1) before rounding; ShareOrdered states it never decreases with i |
| SceneGraph.AxisLabelEnds | Assets/NisaGame/Scripts/SimulationSceneUIScript/SimulationGraphUI.cs:157-160 | with two or more labels the bottom one shows 0 and the top one the rounded maximum |
| SceneGraph.ShareOrdered | Assets/NisaGame/Scripts/SimulationSceneUIScript/SimulationGraphUI.cs:159-160 | the unrounded label values never decrease with the index |
| SceneGraph.AxisLabelsAscend | Assets/NisaGame/Scripts/SimulationSceneUIScript/SimulationGraphUI.cs:146-166 | with a non-negative maximum the labels never decrease from bottom to top |
| SceneGraph.PointPosition | Assets/NisaGame/Scripts/SimulationSceneUIScript/SimulationGraphUI.cs:104-111 | the clamped x01/y01 fractions placed in the centred rectangle (y01 is 0 for a non-positive maximum); PointPositionInChart and PointPositionYearFraction state where it lies |
| SceneGraph.PointPositionInChart | Assets/NisaGame/Scripts/SimulationSceneUIScript/SimulationGraphUI.cs:104-111 | the clamped coordinates keep every point inside the chart rectangle |
| SceneGraph.PointPositionYearFraction | Assets/NisaGame/Scripts/SimulationSceneUIScript/SimulationGraphUI.cs:104-109 | a year in [0, maxYear] is drawn at exactly year/maxYear of the width |
| SceneGraph.PointPositions | Assets/NisaGame/Scripts/SimulationSceneUIScript/SimulationGraphUI.cs:100-111 | there is one position per stored point, in order |
| SceneGraph.SimulationGraphUI.constructor | Assets/NisaGame/Scripts/SimulationSceneUIScript/SimulationGraphUI.cs:16-36 | the chart starts empty with the serialized maximum, and Awake's label update has run |
| SceneGraph.SimulationGraphUI.ResetGraph | Assets/NisaGame/Scripts/SimulationSceneUIScript/SimulationGraphUI.cs:40-51 | points, positions and lines are emptied, the maximum is kept and the labels are refreshed |
| SceneGraph.SimulationGraphUI.SetMaxAssetValue | Assets/NisaGame/Scripts/SimulationSceneUIScript/SimulationGraphUI.cs:54-58 | the maximum becomes max(1, newMax), the data is kept, the chart is redrawn, and the vertical-axis labels show AxisLabelValues for the new maximum (unchanged without labels) |
| SceneGraph.SimulationGraphUI.AddPoint | Assets/NisaGame/Scripts/SimulationSceneUIScript/SimulationGraphUI.cs:64-84 | the point is appended, the maximum becomes RaisedMax (never falling, above every asset), the chart is redrawn, and the vertical-axis labels show AxisLabelValues for the raised maximum (unchanged without labels) |
| SceneGraph.SimulationGraphUI.RedrawAllPoints | Assets/NisaGame/Scripts/SimulationSceneUIScript/SimulationGraphUI.cs:87-143 | there is one position per stored point, lines join consecutive positions, and the labels are refreshed |
| SceneGraph.SimulationGraphUI.DrawDataPoints | Assets/NisaGame/Scripts/SimulationSceneUIScript/SimulationGraphUI.cs:100-142 | the loop draws every stored point at its clamped position with the joining lines |
| SceneGraph.SimulationGraphUI.DrawPoint | Assets/NisaGame/Scripts/SimulationSceneUIScript/SimulationGraphUI.cs:113-141 | one point is appended, joined to the previous one when there is one |
| SceneGraph.SimulationGraphUI.UpdateYAxisLabels | Assets/NisaGame/Scripts/SimulationSceneUIScript/SimulationGraphUI.cs:146-167 | without labels nothing changes; otherwise every label shows its value for the current maximum |
| SceneSimulation.SnapToStep | Assets/NisaGame/Scripts/SimulationSceneUIScript/SimulationSceneManager.cs:78 | round(amount / step) × step; SnapToStepNearest and SnapToStepOfMultiple state that it lands on the step grid within half a step and fixes multiples |
| SceneSimulation.SnapToStepNearest | Assets/NisaGame/Scripts/SimulationSceneUIScript/SimulationSceneManager.cs:78 | a snapped amount is a multiple of the step and at most half a step from the input |
| SceneSimulation.SnapToStepOfMultiple | Assets/NisaGame/Scripts/SimulationSceneUIScript/SimulationSceneManager.cs:78 | a multiple of the step snaps to itself |
| SceneSimulation.NormalisedAmount | Assets/NisaGame/Scripts/SimulationSceneUIScript/SimulationSceneManager.cs:77-79 | Start's clamp, snap and clamp leaves the amount in its range |
| SceneSimulation.IncreasedAmount | Assets/NisaGame/Scripts/SimulationSceneUIScript/SimulationSceneManager.cs:161-163 | the "+" button leaves the amount in its range |
| SceneSimulation.DecreasedAmount | Assets/NisaGame/Scripts/SimulationSceneUIScript/SimulationSceneManager.cs:181-183 | the "-" button leaves the amount in its range |
| SceneSimulation.SliderAmount | Assets/NisaGame/Scripts/SimulationSceneUIScript/SimulationSceneManager.cs:208-209 | the snapped slider value lies in the amount's range |
| SceneSimulation.NormalisedOnGrid | Assets/NisaGame/Scripts/SimulationSceneUIScript/SimulationSceneManager.cs:77-79 | with step-aligned bounds the normalised amount is a multiple of the step |
| SceneSimulation.IncreaseIsOneStep | Assets/NisaGame/Scripts/SimulationSceneUIScript/SimulationSceneManager.cs:161-163 | on an aligned grid "+" moves exactly one step up, stopping at the maximum |
| SceneSimulation.DecreaseIsOneStep | Assets/NisaGame/Scripts/SimulationSceneUIScript/SimulationSceneManager.cs:181-183 | on an aligned grid "-" moves exactly one step down, stopping at the minimum |
| SceneSimulation.CanChangeRisk | Assets/NisaGame/Scripts/SimulationSceneUIScript/SimulationSceneManager.cs:249-252 | year 0, 5 or 10; RiskWindowsEveryFiveYears states it is exactly the multiples of five in [0, 10] |
| SceneSimulation.RiskWindowsEveryFiveYears | Assets/NisaGame/Scripts/SimulationSceneUIScript/SimulationSceneManager.cs:249-252 | risk may change exactly in the multiples of five from 0 to 10 |
| SceneSimulation.AnnualReturnRate | Assets/NisaGame/Scripts/SimulationSceneUIScript/SimulationSceneManager.cs:336-345 | tier 0 gets the low rate and tier 2 the high rate; every other value gets the middle rate |
| SceneSimulation.PreviewAsset | Assets/NisaGame/Scripts/SimulationSceneUIScript/SimulationSceneManager.cs:353-366 | the monthly amount in year 0, else the rounded YearEndValue; PreviewAtZeroRate, PreviewGrows and PreviewMonotoneInAmount state its properties |
| SceneSimulation.YearEndValue | Assets/NisaGame/Scripts/SimulationSceneUIScript/SimulationSceneManager.cs:360-364 | (start asset + 12 × monthly) × (1 + rate), unrounded; the preview lemmas bound it |
| SceneSimulation.PreviewAtZeroRate | Assets/NisaGame/Scripts/SimulationSceneUIScript/SimulationSceneManager.cs:350-367 | after year 0, at a zero rate the preview is the start asset plus twelve contributions |
| SceneSimulation.PreviewGrows | Assets/NisaGame/Scripts/SimulationSceneUIScript/SimulationSceneManager.cs:358-366 | after year 0, with a non-negative rate and base, the preview is at least the start asset plus twelve contributions |
| SceneSimulation.PreviewMonotoneInAmount | Assets/NisaGame/Scripts/SimulationSceneUIScript/SimulationSceneManager.cs:350-367 | a larger monthly amount never gives a smaller preview when the rate is at least -100% |
| SceneSimulation.RiskLabelOf | Assets/NisaGame/Scripts/SimulationSceneUIScript/SimulationSceneManager.cs:319-333 | 0, 1 and 2 get their tier names, and every other value shows as unknown |
| SceneSimulation.UnknownTierUsesMiddleRate | Assets/NisaGame/Scripts/SimulationSceneUIScript/SimulationSceneManager.cs:336-345 | a tier shown as unknown is charged the middle rate |
| SceneSimulation.SimulationSceneManager.constructor | Assets/NisaGame/Scripts/SimulationSceneUIScript/SimulationSceneManager.cs:24-55 | the scene starts with the serialized values, zero assets and both flags cleared |
| SceneSimulation.SimulationSceneManager.Start | Assets/NisaGame/Scripts/SimulationSceneUIScript/SimulationSceneManager.cs:60-115 | the year is clamped into [0, maxYear], a non-positive step becomes 1000, the assets and principal are zeroed, the amount is normalised, the labels, slider and toggles are set, the preview is shown, the chart holds the year's start and end points, and the scene invariant holds |
| SceneSimulation.SimulationSceneManager.ResetState | Assets/NisaGame/Scripts/SimulationSceneUIScript/SimulationSceneManager.cs:62-91 | the first half of Start: the year, step, assets, amount and slider |
| SceneSimulation.SimulationSceneManager.PlotStartPoints | Assets/NisaGame/Scripts/SimulationSceneUIScript/SimulationSceneManager.cs:93-104 | an existing chart is reset to exactly the points (year, asset) and (year + 1, asset) |
| SceneSimulation.SimulationSceneManager.PlotPoint | Assets/NisaGame/Scripts/SimulationSceneUIScript/SimulationSceneManager.cs:390-394 | an existing chart gets exactly one point (year, asset) appended |
| SceneSimulation.SimulationSceneManager.NormaliseMonthlyAmount | Assets/NisaGame/Scripts/SimulationSceneUIScript/SimulationSceneManager.cs:77-79 | the amount becomes NormalisedAmount of the old amount |
| SceneSimulation.SimulationSceneManager.OnClickNextYear | Assets/NisaGame/Scripts/SimulationSceneUIScript/SimulationSceneManager.cs:120-137 | at maxYear nothing changes; otherwise the year rises by exactly 1, the preview is booked as the next start asset, a year of contributions is added to the principal, one chart point is appended, the amount, step, tier, label, toggle flag and slider are kept, and the invariant is kept |
| SceneSimulation.SimulationSceneManager.OnClickIncreaseMonthly | Assets/NisaGame/Scripts/SimulationSceneUIScript/SimulationSceneManager.cs:159-176 | the amount becomes IncreasedAmount, the slider matches it, the preview is refreshed, the flag is cleared; the year, start asset, principal, step, tier, label, toggle flag and slider range are kept |
| SceneSimulation.SimulationSceneManager.OnClickDecreaseMonthly | Assets/NisaGame/Scripts/SimulationSceneUIScript/SimulationSceneManager.cs:179-196 | the amount becomes DecreasedAmount, the slider matches it, the preview is refreshed, the flag is cleared; the year, start asset, principal, step, tier, label, toggle flag and slider range are kept |
| SceneSimulation.SimulationSceneManager.OnMonthlySliderChanged | Assets/NisaGame/Scripts/SimulationSceneUIScript/SimulationSceneManager.cs:199-224 | while the flag is set the callback returns and changes nothing (the flag stays set); otherwise the amount becomes the snapped, clamped slider value, the slider is synced under the flag, the preview is refreshed, and the flag ends cleared; either way the step, year, start asset, principal, tier, label, toggle flag, slider range and risk toggles are kept |
| SceneSimulation.SimulationSceneManager.UpdateRiskUIInteractable | Assets/NisaGame/Scripts/SimulationSceneUIScript/SimulationSceneManager.cs:255-262 | all three toggles' interactable equal CanChangeRisk(currentYear) |
| SceneSimulation.SimulationSceneManager.OnSelectRiskLow | Assets/NisaGame/Scripts/SimulationSceneUIScript/SimulationSceneManager.cs:265-281 | switching off is ignored; otherwise the tier becomes 0 and the label is updated, and the preview is refreshed except on the first accepted callback; the year, amount, step, start asset, principal, slider, slider flag and risk toggles are kept |
| SceneSimulation.SimulationSceneManager.OnSelectRiskMiddle | Assets/NisaGame/Scripts/SimulationSceneUIScript/SimulationSceneManager.cs:284-299 | the same for tier 1 |
| SceneSimulation.SimulationSceneManager.OnSelectRiskHigh | Assets/NisaGame/Scripts/SimulationSceneUIScript/SimulationSceneManager.cs:302-317 | the same for tier 2 |
| SceneSimulation.SimulationSceneManager.SelectRisk | Assets/NisaGame/Scripts/SimulationSceneUIScript/SimulationSceneManager.cs:265-317 | the behaviour shared by the three toggle callbacks, which changes nothing but the tier, the label, the toggle flag and the preview: the year, amount, step, start asset, principal, slider (range and value), slider flag and risk toggles are kept |
| SceneSimulation.SimulationSceneManager.UpdateRiskLabel | Assets/NisaGame/Scripts/SimulationSceneUIScript/SimulationSceneManager.cs:319-333 | the label shows RiskLabelOf(the tier) |
| SceneSimulation.SimulationSceneManager.UpdateCurrentYearPreviewAsset | Assets/NisaGame/Scripts/SimulationSceneUIScript/SimulationSceneManager.cs:350-370 | the shown asset is the monthly amount in year 0, and otherwise the rounded one-year growth of the start asset plus twelve contributions |
| SceneSimulation.SimulationSceneManager.SimulateOneYear | Assets/NisaGame/Scripts/SimulationSceneUIScript/SimulationSceneManager.cs:375-395 | the preview is refreshed and booked as the next start asset, twelve contributions are added to the principal, and the year's end is plotted |
| SimulationUI.GetYearComment | Assets/NisaGame/Scripts/Simulation/SimulationUIController.cs:262-289 | exactly one of the bands >5, >0.1, >-0.1, >-5 and the rest is chosen, and the top band is split on whether it is the last year |
| SimulationUI.YearCommentIgnoresYearBelowTop | Assets/NisaGame/Scripts/Simulation/SimulationUIController.cs:265-288 | below the top band the comment does not depend on the year |
| SimulationUI.YearCommentMonotone | Assets/NisaGame/Scripts/Simulation/SimulationUIController.cs:262-289 | a larger change never gets a gloomier comment |
| SimulationUI.GetRiskTypeLabel | Assets/NisaGame/Scripts/Simulation/SimulationUIController.cs:243-256 | each tier gets its own label, and only that one |
| SimulationUI.RiskTypeLabelNamesTier | Assets/NisaGame/Scripts/Simulation/SimulationUIController.cs:243-256 | reading the label back gives the tier |
| SimulationUI.AnnualContribution | Assets/NisaGame/Scripts/Simulation/SimulationUIController.cs:221 | the contribution is monthly × months as a 32-bit int, exact when the product fits |
| SimulationUI.SimulationUIController.constructor | Assets/NisaGame/Scripts/Simulation/SimulationUIController.cs:17-42 | the controller starts uninitialised, with nothing shown |
| SimulationUI.SimulationUIController.Start | Assets/NisaGame/Scripts/Simulation/SimulationUIController.cs:52-70 | a new run starts afresh (year 0, asset 0, history [0], last year's figures 0) from the settings, or without them from Medium, 15 years and the engine's amount (10000 when that is not positive), STEP1 shows the amount and tier, the counter shows year 1, the button is in next mode, and the screen invariant holds |
| SimulationUI.SimulationUIController.ShowStep1 | Assets/NisaGame/Scripts/Simulation/SimulationUIController.cs:76-104 | STEP1 is shown and STEP2 hidden, with the amount and the tier label, and the button is in next mode |
| SimulationUI.SimulationUIController.ShowStep2 | Assets/NisaGame/Scripts/Simulation/SimulationUIController.cs:110-114 | STEP2 is shown and STEP1 hidden |
| SimulationUI.SimulationUIController.OnClickNextYear | Assets/NisaGame/Scripts/Simulation/SimulationUIController.cs:119-152 | before Start nothing changes; after the last year the click asks for the result scene and simulates nothing, leaving the screen and the chart as they were; otherwise the engine advances exactly one year with the run's length, amount and tier kept and the year's change percent recorded, the first year switches to STEP2, the counter shows the new year, STEP1's view is kept, STEP2 and the chart (points and their lines) show the run, a chart without a container is left unchanged, and the button offers the result once the run is over; the screen invariant is kept |
| SimulationUI.SimulationUIController.HandleSimulationFinished | Assets/NisaGame/Scripts/Simulation/SimulationUIController.cs:168-172 | the button switches to result mode |
| SimulationUI.SimulationUIController.UpdateYearCounter | Assets/NisaGame/Scripts/Simulation/SimulationUIController.cs:177-183 | the counter shows the given year |
| SimulationUI.SimulationUIController.CurrentStep2View | Assets/NisaGame/Scripts/Simulation/SimulationUIController.cs:190-231 | STEP2's contents for the run's state: the change with ToneOf, the asset, AnnualContribution and GetYearComment; UpdateStep2UI and OnClickNextYear promise the screen shows it |
| SimulationUI.SimulationUIController.UpdateStep2UI | Assets/NisaGame/Scripts/Simulation/SimulationUIController.cs:188-238 | STEP2 shows the change with its tone, the asset, the annual contribution and the comment, and an existing chart is redrawn from the run's history, points and the lines joining them, while a chart without a container is left unchanged |
| SimulationUI.SimulationUIController.SetNextYearButtonToResultMode | Assets/NisaGame/Scripts/Simulation/SimulationUIController.cs:305-311 | the button switches to result mode |
| SimulationUI.SimulationUIController.LoadResultScene | Assets/NisaGame/Scripts/Simulation/SimulationUIController.cs:317-321 | the result scene is requested |
| ResultUI.GuessYearsFromResult | Assets/NisaGame/Scripts/UI/ResultUIController.cs:149-160 | the guess is 15 without a history or with at most one point, otherwise the point count less one, so it is always at least 1 |
| ResultUI.GuessRecoversFinishedRun | Assets/NisaGame/Scripts/UI/ResultUIController.cs:154-159 | the history of a finished run of n >= 1 years, with its initial point, gives back n |
| ResultUI.ProfitPercent | Assets/NisaGame/Scripts/UI/ResultUIController.cs:65 | with a positive principal the rate times the principal is 100 × the profit; otherwise the rate is 0 |
| ResultUI.ProfitPercentSign | Assets/NisaGame/Scripts/UI/ResultUIController.cs:64-65 | with a positive principal the rate is positive exactly when there is a profit and negative exactly when there is a loss |
| ResultUI.ProfitPercentAbove | Assets/NisaGame/Scripts/UI/ResultUIController.cs:58-65 | the rate exceeds x exactly when the final asset exceeds the principal grown by x percent |
| ResultUI.GetFinalComment | Assets/NisaGame/Scripts/UI/ResultUIController.cs:165-188 | exactly one of the bands >50, >10, >0.1, >-5 and the rest is chosen |
| ResultUI.FinalCommentMonotone | Assets/NisaGame/Scripts/UI/ResultUIController.cs:165-188 | a better rate never gets a gloomier closing comment |
| ResultUI.ResultViewOf | Assets/NisaGame/Scripts/UI/ResultUIController.cs:53-83 | the screen shows the principal from PrincipalOf, profit = final − principal, the rate relation above, both colours from ToneOf, and the comment for the rate |
| ResultUI.ResultTonesAgreeOnSign | Assets/NisaGame/Scripts/UI/ResultUIController.cs:111-141 | with a principal, a green profit never has a non-positive rate and a red profit never has a non-negative one |
| ResultUI.ResultUIController.constructor | Assets/NisaGame/Scripts/UI/ResultUIController.cs:30-44 | the controller holds the result and settings that Awake finds, and shows nothing yet |
| ResultUI.ResultUIController.TotalYears | Assets/NisaGame/Scripts/UI/ResultUIController.cs:54 | the years come from the settings when present, else from GuessYearsFromResult |
| ResultUI.ResultUIController.Start | Assets/NisaGame/Scripts/UI/ResultUIController.cs:46-85 | without a result nothing happens; otherwise the screen shows ResultViewOf the stored run and an existing chart is redrawn from its history, points and the lines joining them, while a chart without a container is left unchanged |
| ResultUI.ResultUIController.UpdateTexts | Assets/NisaGame/Scripts/UI/ResultUIController.cs:90-143 | the four amounts are shown with the profit and rate colours (>0.01 green, <-0.01 red, else grey) and the comment |
| HowToPlayUI.NextStep | Assets/NisaGame/Scripts/UI/HowToPlayUIController.cs:50-55 | "next" lands in 1..3, adds 1 below step 3 and stays at 3 |
| HowToPlayUI.PrevStep | Assets/NisaGame/Scripts/UI/HowToPlayUIController.cs:60-65 | "previous" lands in 1..3, subtracts 1 above step 1 and stays at 1 |
| HowToPlayUI.NextThenPrev | Assets/NisaGame/Scripts/UI/HowToPlayUIController.cs:50-65 | "next" then "previous" from step 1 or 2 returns to the same step |
| HowToPlayUI.PrevThenNext | Assets/NisaGame/Scripts/UI/HowToPlayUIController.cs:50-65 | "previous" then "next" from step 2 or 3 returns to the same step |
| HowToPlayUI.NextReachesLast | Assets/NisaGame/Scripts/UI/HowToPlayUIController.cs:52-53 | two clicks of "next" reach step 3 from anywhere, and step 3 is kept |
| HowToPlayUI.HowToPlayUIController.constructor | Assets/NisaGame/Scripts/UI/HowToPlayUIController.cs:24 | the counter starts at 1 |
| HowToPlayUI.HowToPlayUIController.Start | Assets/NisaGame/Scripts/UI/HowToPlayUIController.cs:26-30 | step 1 is shown, and only its panel |
| HowToPlayUI.HowToPlayUIController.ShowStep | Assets/NisaGame/Scripts/UI/HowToPlayUIController.cs:36-43 | the step is the argument clamped into 1..3, and exactly the panel with that number is active |
| HowToPlayUI.HowToPlayUIController.OnClickNextStep | Assets/NisaGame/Scripts/UI/HowToPlayUIController.cs:50-55 | the step becomes NextStep of the old step, with exactly its panel active |
| HowToPlayUI.HowToPlayUIController.OnClickPrevStep | Assets/NisaGame/Scripts/UI/HowToPlayUIController.cs:60-65 | the step becomes PrevStep of the old step, with exactly its panel active |
| HowToPlayScene.StepNumber | Assets/NisaGame/Scripts/HowToPlaySceneScripts/HowToPlaySceneManager.cs:15-20 | the enum values are numbered 1..3 |
| HowToPlayScene.Next | Assets/NisaGame/Scripts/HowToPlaySceneScripts/HowToPlaySceneManager.cs:55-65 | Step1 goes to Step2, Step2 to Step3, and Step3 stays |
| HowToPlayScene.Back | Assets/NisaGame/Scripts/HowToPlaySceneScripts/HowToPlaySceneManager.cs:67-77 | Step3 goes to Step2, Step2 to Step1, and Step1 stays |
| HowToPlayScene.NextThenBack | Assets/NisaGame/Scripts/HowToPlaySceneScripts/HowToPlaySceneManager.cs:55-77 | next then back returns to the start, except from Step3 |
| HowToPlayScene.BackThenNext | Assets/NisaGame/Scripts/HowToPlaySceneScripts/HowToPlaySceneManager.cs:55-77 | back then next returns to the start, except from Step1 |
| HowToPlayScene.StepsAgreeWithNumberedTutorial | Assets/NisaGame/Scripts/HowToPlaySceneScripts/HowToPlaySceneManager.cs:55-77 | the enum tutorial steps exactly as the numbered tutorial's NextStep and PrevStep |
| HowToPlayScene.HowToPlaySceneManager.constructor | Assets/NisaGame/Scripts/HowToPlaySceneScripts/HowToPlaySceneManager.cs:30 | before Start no step is set |
| HowToPlayScene.HowToPlaySceneManager.Start | Assets/NisaGame/Scripts/HowToPlaySceneScripts/HowToPlaySceneManager.cs:35-38 | Step1 is shown, and only its panel |
| HowToPlayScene.HowToPlaySceneManager.ShowStep | Assets/NisaGame/Scripts/HowToPlaySceneScripts/HowToPlaySceneManager.cs:43-50 | the step is set and exactly its panel is active |
| HowToPlayScene.HowToPlaySceneManager.OnClickNextStep | Assets/NisaGame/Scripts/HowToPlaySceneScripts/HowToPlaySceneManager.cs:55-65 | before Start, and at Step3, nothing changes; otherwise the step becomes Next of the old one, with its panel |
| HowToPlayScene.HowToPlaySceneManager.OnClickBackStep | Assets/NisaGame/Scripts/HowToPlaySceneScripts/HowToPlaySceneManager.cs:67-77 | before Start, and at Step1, nothing changes; otherwise the step becomes Back of the old one, with its panel |

## Left out

- **Out of scope.** Scene loading, the scene-load buttons, PlayerPrefs, audio and the singletons'
  `Awake`/`DontDestroyOnLoad` blocks, and the `Debug.Log`, `Debug.LogWarning` and `Debug.LogError` calls
  (a missing result, settings, container or panel is logged and then handled as modelled). These are engine
  lifecycle and I/O.
  - `SceneLoader.cs`, `SettingsSceneManager.cs`, `TitleUIController.cs`, `CommonButtonSounds.cs` and the
    button scripts are not part of this model.
  - `LoadResultScene` only records that the result scene was requested.
- **Floating point.**
  - `float` arithmetic is modelled as exact `real` arithmetic, so rounding error is not modelled.
  - `Mathf.Approximately` is modelled as equality.
- **Random draws.** `Random.Range` and Unity's generator are not modelled. The draws are an argument
  whose values lie inside the tier's range.
- **Text formatting.** Number formats ("N0", "+0.0;-0.0;0.0", "+#,0") and the Japanese texts are left
  out. A label or comment is an enum tag, and a colour is a `Tone`.
  - The closing comments always say "15 years", whatever the run's length. That text is not modelled.
- **Engine objects.** Instantiate and Destroy, sizes, anchors, rotation angles and the line lengths of
  the charts are left out. A drawn point is its anchored position, and a drawn line is the pair of
  points it joins.
- **Widgets assumed present.** These inspector references are treated as always set: text and label
  widgets, panels, the buttons, the sliders, the toggles and the dropdown.
  - The null checks that change logic are modelled: the settings, the result holder, the chart
    renderers, and GraphRenderer's container and prefabs.
  - `SimulationGraphUI.graphRect` is assumed present, so its `GetComponent` fallback in Awake is left out.
  - In `SimulationGraphUI` the labels are all present, so the per-label null check is left out.
  - In `SimulationSceneManager` the slider is assumed present.
  - The `FindObjectOfType` fallback of `SimulationUIController.Awake` is left out: the manager is a
    constructor argument.
- **Slider callbacks.** A Slider that fires its callback when the script assigns its value is modelled
  only by the `isUpdatingMonthlySlider` flag. The callback itself is not re-entered.
- **Events.** The C# events are a return value.
  - `HandleYearSimulated` has an empty body, so it has no counterpart.
  - `SimulationUI.SimulationUIController.OnClickNextYear` models the `OnSimulationFinished` handler as a
    direct call.
- **Unrelated engines.** The two engines (`SimulationManager` and `SimulationSceneManager`) are separate
  algorithms. No relation between them is stated.
- SceneSimulation.SimulationSceneManager: its `int` fields are unbounded integers, because the amounts
  are clamped to the inspector range and a year's sums stay far from the 32-bit limit for any sensible
  configuration. 32-bit wrap-around there is not modelled.
- SceneSimulation.SimulationSceneManager.OnClickNextYear: requires that `Start` has run (`Valid`), and so
  do the "+" and "-" handlers. The slider handler requires a positive step. Before Start the source
  would divide by a non-positive step when its serialized step is 0.
- SceneGraph.SimulationGraphUI: `maxYear` is a positive `YearSpan`. With 0 the source divides by zero.
- SimulationCore.SimulationManager: `monthsPerYear` is a `nat`. The source's loop runs zero times for a
  negative value, just as it does for 0.
- SimulationCore.SimulationManager.SimulateOneYear: `currentAsset` is a real, so `float` overflow to
  infinity is not modelled.
- SimulationUI.GetRiskTypeLabel lacks the "unknown" default branch. `RiskType` has only three values,
  so that branch cannot be reached.
- Risk.MonthlyChangeRange likewise lacks the default branch of `GetMonthlyChangePercent`.
- SettingsUI.SettingsUIController.OnMonthlyAmountSliderChanged: the slider value is a real that is then
  rounded. It does not model the slider's own whole-number setting.
