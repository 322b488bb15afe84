# soyokaze ruleset core, modelled in Dafny

This project models the three parts of the osu! "soyokaze" ruleset that hold real logic:

- **Button layout** (`PositionExtensions.dfy`, module `PositionExtensions`): the playfield and screen constants, the fixed table `PositionToButton` from a grid-scan index (4 columns × 2 rows) to a physical button, and `GetPositions`, the eight cosmetic key positions around two cluster centres, optionally reordered into button order.
- **Beatmap conversion** (`BeatmapConverter.dfy`, module `SoyokazeBeatmapConverter`): the `CanConvert` gate (every object has a position) and `ConvertHitObject`. That method quantizes a position into a grid cell with the source's two `for` loops, maps the cell to a button, chooses between a tap and a hold, and copies or defaults the shared fields.
- **Hold judgement** (`HoldJudgement.dfy`, module `HoldJudgement`): the class `DrawableHold` with the fields `holdStartTime`, `holdDuration`, `judged` and `result` and the methods `OnApply`, `Hit`, `Release` and `CheckForResult`. Each method is proved to move the object's state exactly as a pure step function says. Lemmas about those step functions, run over sequences of inputs, state what the source promises: spans add up, judgement is final, and held time never shrinks on a forward clock. They also pin down two surprising behaviours of the code: a second press restarts the span, and the held fraction can exceed 1. Further lemmas show that the judged flag and the result are always set together.

`Wrappers.dfy` holds the `Option` type. It stands for interface tests (`as IHasPosition`, `as IHasCombo`, `is IHasPathWithRepeats`), for the `double.MinValue` "not held" sentinel and for the nested circle's optional result.

The clock `Time.Current` is the parameter `now`. The framework's `Judged` flag and `ApplyResult` become the `judged` latch and the `result` field. The nested tap circle's outcome is an optional fraction `tapFraction`. Times, coordinates and fractions are `real`. The layout's coordinates are `int`.

Four behaviours of the code that are easy to get wrong:

- A press while a span is open restarts it at the new time (`RepressRestartsSpan`).
- A release with no open span is still accepted (`ReleaseState`).
- The forced release at the end folds the span at the frame's time, not at the end time (`CheckState`, `ForcedReleaseAtFrameTime`).
- So the hold fraction is not bounded by 1 (`HoldFractionExceedsOne`).

## Model

| member | source | states |
|---|---|---|
| `PositionExtensions.Offset` | osu.Game.Rulesets.Soyokaze/Extensions/PositionExtensions.cs:25-35 | x offset is 683 iff the anchor has x0, -683 iff it has x2 but not x0, else 0; likewise 384/-384/0 for y0/y2 |
| `PositionExtensions.RawPositions` | osu.Game.Rulesets.Soyokaze/Extensions/PositionExtensions.cs:37-48 | 8 positions; for a non-zero gap each cluster's four keys are distinct; keys 0,1,4,5 lie at axis-aligned distance `gap` from the left centre (offset.x - d, offset.y), keys 2,3,6,7 from the right centre; keys 2,3,6,7 are keys 0,1,4,5 moved right by 2·d |
| `PositionExtensions.GetPositions` | osu.Game.Rulesets.Soyokaze/Extensions/PositionExtensions.cs:23-65 | always 8 positions; without `inButtonOrder` exactly the raw array; with it, entry b is raw entry `[1,0,4,5,3,2,6,7][b]` |
| `PositionExtensions.PositionToButton` | osu.Game.Rulesets.Soyokaze/Extensions/PositionExtensions.cs:67-90 | a button in 0..7 for every index in 0..7, and -1 for every index outside |
| `PositionExtensions.PositionToButtonTable` | osu.Game.Rulesets.Soyokaze/Extensions/PositionExtensions.cs:71-86 | the exact table 0→1, 1→0, 2→5, 3→4, 4→2, 5→3, 6→6, 7→7 |
| `PositionExtensions.PositionToButtonIsPermutation` | osu.Game.Rulesets.Soyokaze/Extensions/PositionExtensions.cs:69-86 | on 0..7 the table stays in 0..7 and is injective |
| `PositionExtensions.ButtonOrderInvertsPositionToButton` | osu.Game.Rulesets.Soyokaze/Extensions/PositionExtensions.cs:53-86 | the button-order table is the two-sided inverse of `PositionToButton` on 0..7 |
| `PositionExtensions.ButtonOrderPlacesEachCell` | osu.Game.Rulesets.Soyokaze/Extensions/PositionExtensions.cs:50-64 | in button order, `result[PositionToButton(i)] == raw[i]` for every grid cell i |
| `SoyokazeBeatmapConverter.CanConvert` | osu.Game.Rulesets.Soyokaze/Beatmaps/SoyokazeBeatmapConverter.cs:27 | true iff every source object has a position |
| `SoyokazeBeatmapConverter.ColumnOf` | osu.Game.Rulesets.Soyokaze/Beatmaps/SoyokazeBeatmapConverter.cs:36-38 | the column, the count of boundaries 128/256/384 strictly exceeded, is below 4 |
| `SoyokazeBeatmapConverter.RowOf` | osu.Game.Rulesets.Soyokaze/Beatmaps/SoyokazeBeatmapConverter.cs:39-41 | the row, the count of boundaries (192) strictly exceeded, is below 2 |
| `SoyokazeBeatmapConverter.ButtonFor` | osu.Game.Rulesets.Soyokaze/Beatmaps/SoyokazeBeatmapConverter.cs:34-42 | the assigned button, a function of the position alone, is always in 0..7 and never -1 |
| `SoyokazeBeatmapConverter.ExceededAll` | osu.Game.Rulesets.Soyokaze/Beatmaps/SoyokazeBeatmapConverter.cs:36-41 | a coordinate beyond boundary i is beyond all i boundaries up to it, so the loops' "last boundary exceeded" is the count |
| `SoyokazeBeatmapConverter.ColumnBands` | osu.Game.Rulesets.Soyokaze/Beatmaps/SoyokazeBeatmapConverter.cs:36-38 | column is 3 above 384, 2 above 256, 1 above 128, else 0 |
| `SoyokazeBeatmapConverter.RowBands` | osu.Game.Rulesets.Soyokaze/Beatmaps/SoyokazeBeatmapConverter.cs:39-41 | row is 1 iff y > 192 |
| `SoyokazeBeatmapConverter.BoundaryFallsLow` | osu.Game.Rulesets.Soyokaze/Beatmaps/SoyokazeBeatmapConverter.cs:36-41 | a coordinate exactly on a boundary falls in the lower cell |
| `SoyokazeBeatmapConverter.ButtonCells` | osu.Game.Rulesets.Soyokaze/Beatmaps/SoyokazeBeatmapConverter.cs:34-42 | top row gives buttons 1,0,5,4 and bottom row 2,3,6,7 by column; a missing position gives button 1 |
| `SoyokazeBeatmapConverter.ConvertHitObject` | osu.Game.Rulesets.Soyokaze/Beatmaps/SoyokazeBeatmapConverter.cs:29-60 | exactly one object; its button is `ButtonFor(position)`; it is a `Hold` with the path duration iff the source has a path and holds are enabled, else a `HitCircle`; start time and samples copied; new-combo defaults to false and combo offset to 0 |
| `HoldJudgement.GradeFor` | osu.Game.Rulesets.Soyokaze/Objects/Drawables/DrawableHold.cs:163-174 | the grade reaches g iff the score fraction strictly exceeds g's threshold (0.5, 0.6, 0.7, 0.8, 0.9) |
| `HoldJudgement.GradeMonotone` | osu.Game.Rulesets.Soyokaze/Objects/Drawables/DrawableHold.cs:163-174 | a higher score fraction never gets a lower grade |
| `HoldJudgement.GradeBoundaries` | osu.Game.Rulesets.Soyokaze/Objects/Drawables/DrawableHold.cs:159-174 | 0.9 gives Great, 0.5 gives Miss; full hold with perfect tap gives Perfect, nothing gives Miss |
| `HoldJudgement.ScoreFraction` | osu.Game.Rulesets.Soyokaze/Objects/Drawables/DrawableHold.cs:148-159 | the halved sum of the nested circle's fraction (0 without a result) and held/duration lies in 0..1 when both parts do; without a nested result it exceeds 0.5 iff the held time exceeds the duration |
| `HoldJudgement.AppliedState` | osu.Game.Rulesets.Soyokaze/Objects/Drawables/DrawableHold.cs:59-65 | after `OnApply` nothing is held and the held time is 0 |
| `HoldJudgement.HitState` | osu.Game.Rulesets.Soyokaze/Objects/Drawables/DrawableHold.cs:179-192 | accepted iff unjudged and the action is the bound button; a rejected press changes nothing; an accepted one sets the span start to now, also over an open span |
| `HoldJudgement.ReleaseState` | osu.Game.Rulesets.Soyokaze/Objects/Drawables/DrawableHold.cs:194-210 | accepted iff unjudged and the bound button, even with no open span; accepted adds the open span to the held time and closes it; with no span nothing changes |
| `HoldJudgement.CheckState` | osu.Game.Rulesets.Soyokaze/Objects/Drawables/DrawableHold.cs:138-177 | nothing changes when user-triggered or before the end time; otherwise the open span is folded at now and the grade of (tap fraction, 0 if none, + held/duration)/2 is latched |
| `HoldJudgement.JudgedIsFinal` | osu.Game.Rulesets.Soyokaze/Objects/Drawables/DrawableHold.cs:179-201 | once judged, every further press, release or frame leaves the state unchanged |
| `HoldJudgement.StepKeepsLatched` | osu.Game.Rulesets.Soyokaze/Objects/Drawables/DrawableHold.cs:138-210 | every press, release or frame keeps `judged` true exactly when a result is set |
| `HoldJudgement.RunKeepsLatched` | osu.Game.Rulesets.Soyokaze/Objects/Drawables/DrawableHold.cs:138-210 | every sequence of inputs and frames keeps `judged` true exactly when a result is set |
| `HoldJudgement.PressReleaseCyclesSum` | osu.Game.Rulesets.Soyokaze/Objects/Drawables/DrawableHold.cs:203-207 | press/release cycles add the sum of their (release − press) spans and leave no span open |
| `HoldJudgement.HoldDurationMonotone` | osu.Game.Rulesets.Soyokaze/Objects/Drawables/DrawableHold.cs:203-207 | with a non-decreasing clock the held time never decreases |
| `HoldJudgement.RepressRestartsSpan` | osu.Game.Rulesets.Soyokaze/Objects/Drawables/DrawableHold.cs:188 | press t0, press t1, release t2 adds only t2 − t1 |
| `HoldJudgement.ForcedReleaseAtFrameTime` | osu.Game.Rulesets.Soyokaze/Objects/Drawables/DrawableHold.cs:146-159 | a press never released is folded at the judging frame's time and graded from that held time |
| `HoldJudgement.HoldFractionExceedsOne` | osu.Game.Rulesets.Soyokaze/Objects/Drawables/DrawableHold.cs:146-148 | a span open from the start time that is judged after the end time gives a held fraction above 1 |
| `HoldJudgement.DrawableHold.constructor` | osu.Game.Rulesets.Soyokaze/Objects/Drawables/DrawableHold.cs:25-26 | a new drawable holds nothing, has held for 0, is unjudged and is `Valid` |
| `HoldJudgement.DrawableHold.OnApply` | osu.Game.Rulesets.Soyokaze/Objects/Drawables/DrawableHold.cs:59-65 | keeps `Valid`; the new state is `AppliedState` of the old one |
| `HoldJudgement.DrawableHold.Hit` | osu.Game.Rulesets.Soyokaze/Objects/Drawables/DrawableHold.cs:179-192 | keeps `Valid`; new state and return value are `HitState` of the old state |
| `HoldJudgement.DrawableHold.Release` | osu.Game.Rulesets.Soyokaze/Objects/Drawables/DrawableHold.cs:194-210 | keeps `Valid`; new state and return value are `ReleaseState` of the old state |
| `HoldJudgement.DrawableHold.CheckForResult` | osu.Game.Rulesets.Soyokaze/Objects/Drawables/DrawableHold.cs:138-177 | keeps `Valid`; the new state is `CheckState` of the old state |

## Left out

- The base `BeatmapConverter` loop over the beatmap and its cancellation token are not part of this model. `ConvertHitObject` converts one object, and nothing here states order preservation across a beatmap.
- The `CreateHolds` setting is the parameter `createHolds`. Its initial value in the source is false, and the bindable's change notification is not modelled.
- `ConvertHitObject` gives the converted object the source object's samples. The model copies them as a value sequence. Whether the `Samples` setter shares or copies the list is framework code and is not modelled.
- The `Hold` object's nested `HoldCircle` and how it is created are not part of this model.
- `HoldCircle.Hit` and the nested circle's timing-window judgement are foreign code. Their result enters `CheckForResult` as `tapFraction`, which is `None` when the circle has no result.
- `HoldJudgement.DrawableHold.CheckForResult` requires `!judged`. The framework calls it only for an unjudged object and refuses a second `ApplyResult`.
- `HoldJudgement.CheckState` requires a hold of positive duration. The source divides by `Duration` in IEEE doubles, where a zero duration gives infinity or NaN, and that is not modelled.
- Each `DrawableHold` models one hold for its whole life. The source pools drawables: its constructor accepts no hold, and the framework rebinds a drawable to a new hold, with a fresh result, before `OnApply` runs. That rebinding is not modelled.
- `base.OnApply` belongs to the framework. `OnApply` here resets only the two hold fields.
- IEEE double and single precision are not modelled: times, coordinates and fractions are exact `real`s, and layout coordinates are `int`. A press at exactly `double.MinValue` would read as "not held" in the source; the `Option` does not reproduce that.
- The framework's `Anchor` enumeration is modelled as its set of axis flags. Only `x0`, `x2`, `y0` and `y2` affect the layout.
- Rendering and lifecycle code is not modelled: `load`, `Update`, the nested-object container plumbing, `UpdateInitialTransforms`, `UpdateHitStateTransforms`, the hold progress display, and the skinning files (`SkinnableInputOverlay`, `SoyokazeLegacySkinTransformer`, `DefaultHitCircleOverlay`, `SoyokazeSkinComponent`). These are presentation or framework lookups.
