# Stick sequencers of SSSwiftUIAnimations, modelled in Dafny

SSSwiftUIAnimations is a SwiftUI package of loading and progress animations. Its
discrete core is a family of **stick sequencers**. Each owns an array of sticks
(swing offset, height, colour) and runs a chain of timer ticks. Every tick does three
things:

- **update**: swing and paint the active stick; the progress variants also repaint a
  range that depends on the bound percentage;
- **reset**: put the active stick back at rest;
- **next**: choose the next active stick and direction.

There are two step shapes. A *bounce sweep* walks up to the last stick and back down
to 0 or to a bookmark (`lastStickIndex`), and replays the boundary index with the
direction flipped. A *wrap sweep* goes from the last stick to 0. The circular loaders
also swap the lap colour on every wrap. The three progress bars stop their ticks at
100% after painting every stick.

The package's three style initialisers are modelled as well. They clamp sizes and
stroke widths to floors and caps and store every other field unchanged.

## Modules

- `Numeric`, `Colors`, `Sweep`, `Percentage` and `SticksAnimations` hold what the
  sequencers share:
  - Swift's `Int(_:)` truncation and `round`;
  - the lap-colour swap;
  - the bounce and wrap sweeps, including the bookmarked sweep of the progress bars
    (`FillStep`) and lemmas about iterating it;
  - the percentage-to-fill-count mapping;
  - the stick record, the linear and ring sizing, and the prefix-paint loop.
- There is one module per sequencer: `LinearLoading`, `LinearProgress`,
  `CircularLoading`, `CircularProgress`, `CircularReverseProgress`,
  `LinearStickLoader` and `CircularStickLoader`. Each is a class:
  - `sticks: array<Stick>` is updated in place;
  - `index`, `reversing`, the bookmark and the lap colour are fields;
  - the timer chain becomes a `Tick` method (update, then reset and next);
  - drivers (`RunCycle`, `RunLap`, `RunTicks`) loop `Tick`.
- There is one module per style initialiser: `LRArrowAnimStyle`, `ProgressViewStyle`
  and `WaterProgressViewStyle`.

The state is modelled on these terms:

- Sizes and durations are `real`.
- Colours are a name with an opacity, compared only for equality.
- The percentage binding is the argument of each `Tick`, because the source reads it
  at every tick.
- A chain that has stopped at 100% is `running == false`.
- On iOS 17, a change of percentage restarts the chain only when the old value was
  exactly 100. This is `PercentageChanged`. As a consequence, a chain halted at a
  value other than 100 restarts only after the value has passed through exactly 100.

At a turning point the bounce sweep replays the boundary index itself, with the
direction flipped, at both ends (`LinearLoading.swift:131-136` and the three other
bounce sweeps).

## Model

| member | source | states |
|---|---|---|
| Numeric.Trunc | SSSwiftUIAnimations/Sources/SticksAnimations/LinearLoading.swift:48 | `Int(x)` is the integer part: within one of `x`, toward zero |
| Numeric.Round | SSSwiftUIAnimations/Sources/SticksAnimations/CircularProgress.swift:130 | `round(x)` is within one half of `x`, halves away from zero |
| Numeric.ValidatedPercentage | SSSwiftUIAnimations/Sources/SticksAnimations/LinearProgress.swift:140 | the clamped percentage lies in [0, 100], equals `p` inside it and the nearer end outside |
| Numeric.TruncMonotone | SSSwiftUIAnimations/Sources/SticksAnimations/LinearProgress.swift:142 | truncation never decreases as its argument grows |
| Colors.SwapLapColor | SSSwiftUIAnimations/Sources/SticksAnimations/CircularLoading.swift:109-113 | the next lap colour is filled or unfilled, differs from the current one when the two differ, and is filled for any colour other than the two |
| Colors.SwapLapColorTwice | SSSwiftUIAnimations/Sources/SticksAnimations/CircularLoading.swift:109-113 | with distinct colours, two swaps give back the original colour |
| Colors.SwapLapColorSettles | SSSwiftUIAnimations/Sources/SticksAnimations/CircularLoading.swift:109-113 | from any start colour, after the first swap the lap colours alternate with period two |
| Sweep.BounceNext | SSSwiftUIAnimations/Sources/SticksAnimations/LinearLoading.swift:131-136 | the next index stays in `turn..last` on reverse legs and in `0..last`; it moves one step in the direction of travel, or the same index is replayed flipped exactly at `last` going forward and at `turn` going back |
| Sweep.WrapNext | SSSwiftUIAnimations/Sources/SticksAnimations/CircularProgress.swift:157 | the next index is `(i + 1) mod count` |
| Sweep.Bounce | SSSwiftUIAnimations/Sources/SticksAnimations/LinearLoading.swift:72-75 | the position `k` ticks after the start at stick 0 going forward stays on the row |
| Sweep.BounceCycle | SSSwiftUIAnimations/Sources/SticksAnimations/LinearLoading.swift:131-136 | ticks `0..n-1` visit sticks `0..n-1` forward, ticks `n..2n-1` visit `n-1..0` backward, tick `2n` is back at stick 0 forward |
| Sweep.BouncePeriodic | SSSwiftUIAnimations/Sources/SticksAnimations/LinearLoading.swift:131-136 | a loader's sweep repeats every `2n` ticks |
| Sweep.FillStep | SSSwiftUIAnimations/Sources/SticksAnimations/LinearProgress.swift:146-180 | a progress tick keeps index and bookmark on the bar with no reverse leg below the bookmark; the bookmark becomes the fill boundary or stays; at or past the boundary it becomes the boundary and the sweep stays at or past it |
| Sweep.FillSteps | SSSwiftUIAnimations/Sources/SticksAnimations/LinearProgress.swift:175-180 | any number of progress ticks keeps the sweep well formed |
| Sweep.FillStepsAdd | SSSwiftUIAnimations/Sources/SticksAnimations/LinearProgress.swift:175-180 | `a + b` ticks are `a` ticks followed by `b` ticks |
| Sweep.FillStepsReach | SSSwiftUIAnimations/Sources/SticksAnimations/LinearProgress.swift:146-147 | going forward below the fill boundary, the sweep reaches it one stick per tick without moving the bookmark |
| Sweep.FillStepsStayAbove | SSSwiftUIAnimations/Sources/SticksAnimations/LinearProgress.swift:146-180 | once at or past the boundary the sweep never drops below it, and after one more tick the bookmark is the boundary |
| Sweep.FillSweepSettles | SSSwiftUIAnimations/Sources/SticksAnimations/LinearProgress.swift:83-86 | from stick 0 forward with any bookmark, after `fill` ticks the sweep is exactly at the boundary going forward, and from then on it bounces within `fill..last` turning at `fill` |
| Percentage.SticksForPercentage | SSSwiftUIAnimations/Sources/SticksAnimations/LinearProgress.swift:140-141 | the real number of sticks a percentage stands for is never negative |
| Percentage.FillCount | SSSwiftUIAnimations/Sources/SticksAnimations/LinearProgress.swift:140-142 | the fill count is the whole part of `count * clamp(p) / divisor` |
| Percentage.FillCountMonotone | SSSwiftUIAnimations/Sources/SticksAnimations/LinearProgress.swift:140-142 | a larger percentage never fills fewer sticks |
| Percentage.FillCountBoundaries | SSSwiftUIAnimations/Sources/SticksAnimations/LinearProgress.swift:140-142 | 0% or less fills nothing; 100% or more fills the whole bar |
| Percentage.BarFill | SSSwiftUIAnimations/Sources/SticksAnimations/LinearProgress.swift:140-142 | the sticks a bar filled from stick 0 fills: the whole part of `count * p / 100`, a stick of the bar below 100% |
| Percentage.FillCountBelowFull | SSSwiftUIAnimations/Sources/SticksAnimations/LinearProgress.swift:146-147 | below 100% the fill boundary is a stick of the bar (fewer than `count`) |
| Percentage.HalfFillBelowFull | SSSwiftUIAnimations/Sources/SticksAnimations/CircularProgress.swift:124-131 | below 100% the symmetric arc, with its extra stick when rounding up, is shorter than the ring |
| SticksAnimations.LinearLayout | SSSwiftUIAnimations/Sources/SticksAnimations/LinearLoading.swift:46-58 | count at least 3 and at least the whole slots of the raw width and spacing; stick width at least 5, kept when so and exactly 5 below; spacing kept inside [0, stick width], exactly the stick width above it and exactly 0 when spacing or stick width is negative; heights; a forward-and-back cycle lasts `max(duration, 0.2)` |
| SticksAnimations.LinearStickCountFits | SSSwiftUIAnimations/Sources/SticksAnimations/LinearLoading.swift:48 | on a row of three or more slots, the count is exactly the number of whole slots that fit |
| SticksAnimations.WholeSlots | SSSwiftUIAnimations/Sources/SticksAnimations/LinearProgress.swift:58 | `Int(width / slot)` slots fit in the width and one more does not |
| SticksAnimations.RingLayout | SSSwiftUIAnimations/Sources/SticksAnimations/CircularLoading.swift:36-47 | a ring has 26 sticks for any size, 5% wide and 20% high, and a lap lasts `duration` |
| SticksAnimations.RingStickCount | SSSwiftUIAnimations/Sources/SticksAnimations/CircularLoading.swift:38 | `Int(s / (0.05 s * 0.75))` is 26 for every non-zero size |
| SticksAnimations.PaintPrefix | SSSwiftUIAnimations/Sources/SticksAnimations/LinearProgress.swift:143-145 | the fill loop recolours exactly the first `k` sticks |
| LinearLoading.WaveColor | SSSwiftUIAnimations/Sources/SticksAnimations/LinearLoading.swift:114-120 | over one cycle the wave paints filled on the way out except the last stick, unfilled on the way back except stick 0 |
| LinearLoading.Sequencer.constructor | SSSwiftUIAnimations/Sources/SticksAnimations/LinearLoading.swift:46-59 | every stick at rest, unfilled, with the initial height |
| LinearLoading.Sequencer.Start | SSSwiftUIAnimations/Sources/SticksAnimations/LinearLoading.swift:72-75 | stick 0 painted filled, first tick at stick 0 forward |
| LinearLoading.Sequencer.Update | SSSwiftUIAnimations/Sources/SticksAnimations/LinearLoading.swift:103-107 | only the active stick changes: offset ±spacing by direction, height 1.25× or full, colour by the sweep rule |
| LinearLoading.Sequencer.Reset | SSSwiftUIAnimations/Sources/SticksAnimations/LinearLoading.swift:126-137 | only the active stick changes, back to offset 0 and full height with its colour kept; the sweep bounces at 0 and the last stick |
| LinearLoading.Sequencer.Tick | SSSwiftUIAnimations/Sources/SticksAnimations/LinearLoading.swift:82-97 | one tick leaves only the active stick changed, at rest with its sweep colour, and keeps the row at rest |
| LinearLoading.Sequencer.RunCycle | SSSwiftUIAnimations/Sources/SticksAnimations/LinearLoading.swift:126-137 | `2n` ticks from the start return to stick 0 forward, with stick 0 filled and every other stick unfilled at rest |
| LinearProgress.Sequencer.constructor | SSSwiftUIAnimations/Sources/SticksAnimations/LinearProgress.swift:45-72 | every stick at rest and unfilled, the sweep at 0 forward with bookmark 0, running |
| LinearProgress.Sequencer.Start | SSSwiftUIAnimations/Sources/SticksAnimations/LinearProgress.swift:83-86 | stick 0 painted filled, first tick at stick 0 forward |
| LinearProgress.Sequencer.Update | SSSwiftUIAnimations/Sources/SticksAnimations/LinearProgress.swift:136-148 | the active stick is swung and coloured with the bookmark as it was; sticks `0..min(n, index)-1` take the progress colour; the bookmark becomes `n` when the index is at least `n` |
| LinearProgress.Sequencer.Reset | SSSwiftUIAnimations/Sources/SticksAnimations/LinearProgress.swift:170-181 | only the active stick goes back to rest; the sweep bounces at the new bookmark and the last stick |
| LinearProgress.Sequencer.Tick | SSSwiftUIAnimations/Sources/SticksAnimations/LinearProgress.swift:109-130 | below 100% one `FillStep` with the sticks as update-then-reset leave them; at 100% or more every stick takes the progress colour and the ticks stop |
| LinearProgress.Sequencer.PercentageChanged | SSSwiftUIAnimations/Sources/SticksAnimations/LinearProgress.swift:92-96 | the sweep restarts at stick 0 forward exactly when the old value was 100; otherwise nothing changes |
| LinearProgress.Sequencer.RunTicks | SSSwiftUIAnimations/Sources/SticksAnimations/LinearProgress.swift:109-130 | `k` ticks below 100% take `k` steps of `FillSteps`; from at or past the boundary every stick before it shows the progress colour |
| CircularLoading.Sequencer.constructor | SSSwiftUIAnimations/Sources/SticksAnimations/CircularLoading.swift:30-48 | 26 sticks at rest and unfilled; the first lap is stick 0 in the filled colour |
| CircularLoading.Sequencer.Update | SSSwiftUIAnimations/Sources/SticksAnimations/CircularLoading.swift:95-98 | only the active stick changes: offset 0.6 and the lap colour |
| CircularLoading.Sequencer.Reset | SSSwiftUIAnimations/Sources/SticksAnimations/CircularLoading.swift:104-118 | only the active stick's offset returns to 0; the index wraps, and the lap colour swaps exactly at the wrap |
| CircularLoading.Sequencer.Tick | SSSwiftUIAnimations/Sources/SticksAnimations/CircularLoading.swift:74-89 | one tick paints the active stick the lap colour at rest and changes no other stick |
| CircularLoading.Sequencer.RunLap | SSSwiftUIAnimations/Sources/SticksAnimations/CircularLoading.swift:104-118 | one lap of ticks paints every stick the lap colour at rest and starts the next lap at stick 0 with the other colour |
| CircularProgress.ArcLength | SSSwiftUIAnimations/Sources/SticksAnimations/CircularProgress.swift:124-134 | the arc is at least one stick, is `2n` or `2n + 1`, and is within one stick of `count * p / 100` |
| CircularProgress.ArcLeavesAGap | SSSwiftUIAnimations/Sources/SticksAnimations/CircularProgress.swift:122-134 | below 100% the arc is shorter than the ring |
| CircularProgress.ArcShape | SSSwiftUIAnimations/Sources/SticksAnimations/CircularProgress.swift:126-134 | below 100% the `2n` loop sticks, and the extra stick when the half-fill rounds up, fit in the ring without overlap; the arc length follows the rounding branch |
| CircularProgress.ArcExtend | SSSwiftUIAnimations/Sources/SticksAnimations/CircularProgress.swift:127-128 | one loop pass adds exactly the sticks after and before the arc |
| CircularProgress.ArcExtendEnd | SSSwiftUIAnimations/Sources/SticksAnimations/CircularProgress.swift:130-131 | the extra stick extends the arc by exactly one stick |
| CircularProgress.Painted | SSSwiftUIAnimations/Sources/SticksAnimations/CircularProgress.swift:121-135 | painting an arc keeps the number of sticks |
| CircularProgress.Recolored | SSSwiftUIAnimations/Sources/SticksAnimations/CircularProgress.swift:139-141 | painting every stick keeps the number of sticks |
| CircularProgress.PaintedEmpty | SSSwiftUIAnimations/Sources/SticksAnimations/CircularProgress.swift:122 | the first repaint leaves the ring with an empty arc: every stick unfilled |
| CircularProgress.PaintedGrow | SSSwiftUIAnimations/Sources/SticksAnimations/CircularProgress.swift:126-129 | each loop pass writes the two sticks that grow the arc of `2k` into the arc of `2k + 2` |
| CircularProgress.PaintedGrowEnd | SSSwiftUIAnimations/Sources/SticksAnimations/CircularProgress.swift:130-134 | the extra write grows the arc of `2n` into the arc of `2n + 1` |
| CircularProgress.ArcAroundActive | SSSwiftUIAnimations/Sources/SticksAnimations/CircularProgress.swift:121-135 | for every percentage below 100, including a half-fill of 0, the arc holds the active stick, the `n` sticks from it and the `n` before it, and holds stick `index + n` exactly when its length is `2n + 1` |
| CircularProgress.ArcMembers | SSSwiftUIAnimations/Sources/SticksAnimations/CircularProgress.swift:126-134 | index arithmetic behind the arc membership, for any non-empty arc of `2n` or `2n + 1` sticks shorter than the ring, `n >= 0` |
| CircularProgress.Sequencer.constructor | SSSwiftUIAnimations/Sources/SticksAnimations/CircularProgress.swift:33-54 | 26 sticks at rest and unfilled, the first tick at stick 0, running |
| CircularProgress.Sequencer.UpdateStickColor | SSSwiftUIAnimations/Sources/SticksAnimations/CircularProgress.swift:147-150 | the write goes to `(at + count) % count`, which is in range for every `at >= -count`, and changes only that stick's colour |
| CircularProgress.Sequencer.ChangeSticksColor | SSSwiftUIAnimations/Sources/SticksAnimations/CircularProgress.swift:139-141 | every stick takes the colour and nothing else changes |
| CircularProgress.Sequencer.FillAround | SSSwiftUIAnimations/Sources/SticksAnimations/CircularProgress.swift:126-129 | the loop paints exactly the arc of `2n` sticks round the active one |
| CircularProgress.Sequencer.GrowArc | SSSwiftUIAnimations/Sources/SticksAnimations/CircularProgress.swift:127-128 | one pass writes `index + k` and `index - 1 - k` round the ring and turns the arc of `2k` sticks into the arc of `2k + 2` |
| CircularProgress.Sequencer.FillExtra | SSSwiftUIAnimations/Sources/SticksAnimations/CircularProgress.swift:130-134 | after the loop the arc is `2n + 1` sticks when the half-fill rounds up, the active stick alone when nothing is filled, `2n` otherwise |
| CircularProgress.Sequencer.Update | SSSwiftUIAnimations/Sources/SticksAnimations/CircularProgress.swift:121-135 | afterwards exactly the arc of `ArcLength` sticks starting `n` before the active stick is filled, and every other stick is unfilled |
| CircularProgress.Sequencer.Reset | SSSwiftUIAnimations/Sources/SticksAnimations/CircularProgress.swift:156-159 | the index wraps from the last stick to 0 |
| CircularProgress.Sequencer.Tick | SSSwiftUIAnimations/Sources/SticksAnimations/CircularProgress.swift:96-115 | below 100% the arc and the wrap; at 100% or more every stick filled and the ticks stop; offsets are never written |
| CircularProgress.Sequencer.PercentageChanged | SSSwiftUIAnimations/Sources/SticksAnimations/CircularProgress.swift:79-83 | the chain restarts at stick 0 exactly when the old value was 100 |
| CircularReverseProgress.ColorPrecedence | SSSwiftUIAnimations/Sources/SticksAnimations/CircularReverseProgreessBar.swift:162-170 | this colour rule and the linear bar's differ exactly when the bookmark is the last stick |
| CircularReverseProgress.Sequencer.constructor | SSSwiftUIAnimations/Sources/SticksAnimations/CircularReverseProgreessBar.swift:38-60 | 26 sticks at rest and unfilled, the sweep at 0 forward with bookmark 0, running |
| CircularReverseProgress.Sequencer.Update | SSSwiftUIAnimations/Sources/SticksAnimations/CircularReverseProgreessBar.swift:128-139 | offset ±0.6 and colour by the bookmark-first rule on the active stick; the progress prefix; the bookmark rule |
| CircularReverseProgress.Sequencer.Reset | SSSwiftUIAnimations/Sources/SticksAnimations/CircularReverseProgreessBar.swift:145-155 | only the active stick's offset returns to 0; the sweep bounces at the bookmark and the last stick |
| CircularReverseProgress.Sequencer.Tick | SSSwiftUIAnimations/Sources/SticksAnimations/CircularReverseProgreessBar.swift:101-122 | below 100% one `FillStep` with the resulting sticks; at 100% or more the progress colour everywhere and the ticks stop |
| CircularReverseProgress.Sequencer.PercentageChanged | SSSwiftUIAnimations/Sources/SticksAnimations/CircularReverseProgreessBar.swift:84-88 | the sweep restarts at stick 0 forward exactly when the old value was 100 |
| CircularReverseProgress.Sequencer.RunTicks | SSSwiftUIAnimations/Sources/SticksAnimations/CircularReverseProgreessBar.swift:101-155 | `k` ticks below 100% take `k` steps of `FillSteps`, and keep the filled prefix in the progress colour once the sweep is past it |
| LinearStickLoader.StickCount | SSSwiftUIAnimations/SSSwiftUIAnimations/SStickProgressBar/LinearStickLoader.swift:44 | the count is the smaller of `max(requested, 3)` and one less than the whole slots across the screen |
| LinearStickLoader.LoaderLayout | SSSwiftUIAnimations/SSSwiftUIAnimations/SStickProgressBar/LinearStickLoader.swift:20-56 | stick width at least 10 and spacing at least 0, each kept when already so and raised to exactly 10 and 0 when below; the clamped height; the count of `StickCount` is at least 1; a lap lasts `max(duration, 1)` |
| LinearStickLoader.PerStickDuration | SSSwiftUIAnimations/SSSwiftUIAnimations/SStickProgressBar/LinearStickLoader.swift:47 | `max(d / n, 1 / n)` per stick makes a lap of `n` sticks last `max(d, 1)` |
| LinearStickLoader.StickHeight | SSSwiftUIAnimations/SSSwiftUIAnimations/SStickProgressBar/LinearStickLoader.swift:41 | the height is the requested one, one gap plus 10, or 50 short of the screen height: kept inside the band, raised to exactly gap + 10 below it when the screen allows, and the cap wins above it and when the two bounds conflict |
| LinearStickLoader.RowFitsScreen | SSSwiftUIAnimations/SSSwiftUIAnimations/SStickProgressBar/LinearStickLoader.swift:35-44 | the row plus one slot fits across the screen |
| LinearStickLoader.RenderedHeight | SSSwiftUIAnimations/SSSwiftUIAnimations/SStickProgressBar/LinearStickLoader.swift:63 | one gap short of the full height at rest, full height at a full swing, full height without height animation |
| LinearStickLoader.RestHeightPositive | SSSwiftUIAnimations/SSSwiftUIAnimations/SStickProgressBar/LinearStickLoader.swift:41-63 | a stick at rest is at least 10 high when the screen leaves room for the clamps |
| LinearStickLoader.Sequencer.constructor | SSSwiftUIAnimations/SSSwiftUIAnimations/SStickProgressBar/LinearStickLoader.swift:20-56 | every stick at rest and unfilled; the first tick at stick 0 forward |
| LinearStickLoader.Sequencer.Start | SSSwiftUIAnimations/SSSwiftUIAnimations/SStickProgressBar/LinearStickLoader.swift:68-71 | stick 0 painted filled, first tick at stick 0 forward |
| LinearStickLoader.Sequencer.Update | SSSwiftUIAnimations/SSSwiftUIAnimations/SStickProgressBar/LinearStickLoader.swift:91-102 | only the active stick changes: offset ±spacing and the loader colour rule |
| LinearStickLoader.Sequencer.Reset | SSSwiftUIAnimations/SSSwiftUIAnimations/SStickProgressBar/LinearStickLoader.swift:104-114 | only the active stick's offset returns to 0; the sweep bounces at 0 and the last stick |
| LinearStickLoader.Sequencer.Tick | SSSwiftUIAnimations/SSSwiftUIAnimations/SStickProgressBar/LinearStickLoader.swift:74-89 | one tick leaves only the active stick changed, at rest with its sweep colour |
| CircularStickLoader.RingSize | SSSwiftUIAnimations/SSSwiftUIAnimations/SStickProgressBar/CircularStickLoader.swift:31 | the size is the requested one, 50, or 50 short of the smaller screen side: kept inside the band, raised to exactly 50 below it when the screen allows, and the cap wins above it and when the two bounds conflict |
| CircularStickLoader.RingStickWidth | SSSwiftUIAnimations/SSSwiftUIAnimations/SStickProgressBar/CircularStickLoader.swift:34 | the stick width lies in 9% to 20% of the size, is kept when already inside, and is exactly 9% below the band and exactly 20% above it |
| CircularStickLoader.LoaderLayout | SSSwiftUIAnimations/SSSwiftUIAnimations/SStickProgressBar/CircularStickLoader.swift:19-45 | 7 to 17 sticks, radius half the size, a lap lasts `duration` |
| CircularStickLoader.CountBand | SSSwiftUIAnimations/SSSwiftUIAnimations/SStickProgressBar/CircularStickLoader.swift:36-38 | a quarter of the circumference holds 7 to 17 whole stick widths when the width is within the band |
| CircularStickLoader.Sequencer.constructor | SSSwiftUIAnimations/SSSwiftUIAnimations/SStickProgressBar/CircularStickLoader.swift:19-45 | every stick at rest and unfilled; the first lap at stick 0 filled |
| CircularStickLoader.Sequencer.Update | SSSwiftUIAnimations/SSSwiftUIAnimations/SStickProgressBar/CircularStickLoader.swift:84-87 | only the active stick changes: offset 0.6 and the lap colour |
| CircularStickLoader.Sequencer.Reset | SSSwiftUIAnimations/SSSwiftUIAnimations/SStickProgressBar/CircularStickLoader.swift:89-103 | only the active stick's offset returns to 0; the index wraps, and the lap colour swaps exactly at the wrap |
| CircularStickLoader.Sequencer.Tick | SSSwiftUIAnimations/SSSwiftUIAnimations/SStickProgressBar/CircularStickLoader.swift:67-82 | one tick paints the active stick the lap colour at rest and changes no other stick |
| CircularStickLoader.Sequencer.RunLap | SSSwiftUIAnimations/SSSwiftUIAnimations/SStickProgressBar/CircularStickLoader.swift:89-103 | one lap paints every stick the lap colour at rest and starts the next lap at 0 with the swapped colour |
| LRArrowAnimStyle.Make | SSSwiftUIAnimations/Sources/ArrowLeftRightAnimation/LRArrowAnimStyle.swift:35-51 | arrow at least 10, circle at least 50, each kept when already so and exactly the floor below; strokes at least 1 and at most the raw circle size over 1.2 (circle stroke) or 5 (arrow stroke) when that is at least 1, kept inside, exactly the cap above it and exactly 1 when the capped value is below 1; colours unchanged |
| LRArrowAnimStyle.Default | SSSwiftUIAnimations/Sources/ArrowLeftRightAnimation/LRArrowAnimStyle.swift:36-42 | the defaults are the initialiser applied to the default arguments |
| LRArrowAnimStyle.MakeIdempotent | SSSwiftUIAnimations/Sources/ArrowLeftRightAnimation/LRArrowAnimStyle.swift:44-50 | re-running the initialiser on its stored fields changes nothing |
| ProgressViewStyle.Make | SSSwiftUIAnimations/Sources/ProgressAnimation/ModelClass.swift:22-64 | circle at least 100 and both strokes at least 1, each kept when already so and exactly the floor below; font size, weight, colours and the cancel flag unchanged |
| ProgressViewStyle.Default | SSSwiftUIAnimations/Sources/ProgressAnimation/ModelClass.swift:23-32 | circle 200, strokes 5, font 15, cancel off |
| ProgressViewStyle.MakeIdempotent | SSSwiftUIAnimations/Sources/ProgressAnimation/ModelClass.swift:36-42 | re-running the initialiser on its stored fields changes nothing |
| ProgressViewStyle.MakeArrowViewParams | SSSwiftUIAnimations/Sources/ProgressAnimation/ModelClass.swift:75-91 | six of the eight arguments are stored unchanged |
| ProgressViewStyle.ArrowViewParamsIgnoreProgress | SSSwiftUIAnimations/Sources/ProgressAnimation/ModelClass.swift:75-91 | the result does not depend on `progress` or `doneAnimating` |
| WaterProgressViewStyle.Make | SSSwiftUIAnimations/Sources/WaterProgressAnimation/WaterProgressViewStyle.swift:62-86 | circle at least 100 and stroke at least 1, each kept when already so and exactly the floor below; font, colours, bubbles and checkmark unchanged |
| WaterProgressViewStyle.Default | SSSwiftUIAnimations/Sources/WaterProgressAnimation/WaterProgressViewStyle.swift:63-73 | circle 200, stroke 5, bubbles on |
| WaterProgressViewStyle.MakeIdempotent | SSSwiftUIAnimations/Sources/WaterProgressAnimation/WaterProgressViewStyle.swift:75-76 | re-running the initialiser on its stored fields changes nothing |

## Left out

- SwiftUI rendering and animation plumbing are not modelled: view bodies,
  `withAnimation`, animation durations and completion handlers. `asyncAfter`
  scheduling becomes a synchronous `Tick`, so timing and the interleaving of
  completions are not modelled.
- Before iOS 17, every percentage change starts a second concurrent tick chain. This
  path is not modelled, because it is a concurrency artefact. An iOS 17 restart while
  a chain is still running is likewise modelled as a reset of the one chain, not as a
  second chain.
- Floating-point behaviour is not modelled. Sizes are exact reals, and `Int(_:)` of NaN
  or infinity is excluded. The zero divisors the source would trap on are
  preconditions: `stickWidth + spacing == 0` and `min(width, height) == 0`.
- `Float.pi` is the constant 3.1415927.
- `UIScreen.main.bounds` is passed as a screen width and height.
- `CircularStickLoader.LoaderLayout` requires the smaller screen side to exceed 50.
  At exactly 50 the source divides 0 by 0 and truncates the result, and below that it
  builds a ring of negative size.
- `LinearStickLoader.LoaderLayout` requires a count of at least 1. On a narrower
  screen the source creates an array with a negative count or indexes an empty one,
  and traps.
- `CircularProgress.ArcLeavesAGap` requires a ring of at least two sticks. Every
  constructed ring has 26.
- The `onAppear` of `CircularReverseProgressBar` and `CircularProgress` only starts the
  first tick. The constructor state is that start.
- The colour passed along the `CircularProgress` chain is always the filled colour, so
  the class has none.
- View dispatch (`StickAnimations`, `StickAnimationType`), the trig and
  path views, timer-driven choreography, random bubble colours and the example app are
  not part of this model. They hold no sequential logic beyond what is modelled here.
