# Input processing core, modelled in Dafny

This project models three value-level parts of the input layer of a game-input
library, and proves what they promise.

- **Dual-axis processors** (`dual_axis.dfy`, module `DualAxis`).
  - A `DualAxisProcessor` is one of these:
    - `None`;
    - a single stage (inversion, sensitivity, rectangular or circular bounds, exclusion, dead zone);
    - a `Pipeline` of processors;
    - a user-defined stage.
  - `process` applies it to a 2-D value.
  - `with_processor` composes two processors. It treats `None` as the identity and flattens pipelines one level.
  - `from_iter` and `pipeline` build a pipeline from a list.
  - The inversion and sensitivity stages are componentwise products.
- **Axis descriptors** (`axislike.dfy`, module `AxisLike`).
  - `SingleAxis` has these constructors: `symmetric`, `from_value`, `mouse_motion_x`, `mouse_motion_y`, `negative_only` and `positive_only`.
  - Other `SingleAxis` operations: `with_deadzone`, and equality and hash that ignore the mocking `value`.
  - The `AxisType` ⇄ `MouseMotionAxisType` conversions.
  - The `DualAxisData` value:
    - its constructors;
    - its accessors;
    - `merged_with`;
    - `length_squared`.
- **Chords** (`chords.dfy`, module `Chords`). A chord is a composite input with these operations:
  - `raw_inputs` flattens the members recursively;
  - `len` counts the flattened inputs;
  - `contains` tests membership among them;
  - `input_pressed` is a strict conjunction over the members' button views.
- `vec2.dfy` (module `Vectors`) stands in for the engine's `Vec2`. It is a pair of reals.

Floating-point values are modelled as `real`. `f32::MAX` is written out exactly, and `f32::MIN` is its negation.
A chord's leaves are modelled by `LeafInput`, which has these parts:
- an identity;
- three view flags (button, single axis, dual axis).

Whether a leaf is pressed is an oracle `LeafInput -> bool`. It stands for the engine world.

## Model

| member | source | states |
|---|---|---|
| DualAxis.Process | src/input_processing/dual_axis/mod.rs:95-111 | Defines `process`: `None` returns the value, a single stage applies its own function, and a pipeline folds its stages left to right. Its laws are the rows below. |
| DualAxis.Fold | src/input_processing/dual_axis/mod.rs:106-108 | The left-to-right fold of `process` over a stage sequence, starting from the input value. `FoldAppend` states how it splits over a concatenation. |
| DualAxis.ProcessNoneIsIdentity | src/input_processing/dual_axis/mod.rs:95-97 | `process(None, v) == v` for every `v` |
| DualAxis.ProcessIsFoldOfStages | src/input_processing/dual_axis/mod.rs:95-111 | Every processor, `None` included, processes a value as the left-to-right fold over the stage sequence it contributes to a composite. A single stage counts as a one-element sequence. |
| DualAxis.FoldAppend | src/input_processing/dual_axis/mod.rs:106-108 | Folding over a concatenation of stage sequences folds over the first part, then over the second. |
| DualAxis.WithProcessor | src/input_processing/dual_axis/mod.rs:122-141 | `None` on either side yields the other side, even when that side is a pipeline. Otherwise the result is the pipeline of both sides' stages in order. This one statement covers append, push, prepend and the fresh two-element pipeline. |
| DualAxis.WithProcessorInPlace | src/input_processing/dual_axis/mod.rs:122-141 | Building the result by editing one side's stage vector (`append`, `push`, or `insert` at the front) gives exactly `WithProcessor`. |
| DualAxis.ProcessWithProcessor | src/input_processing/dual_axis/mod.rs:106-108 | Processing a composite `with_processor(x, y)` is processing by `x`, then by `y`. |
| DualAxis.WithProcessorAssociative | src/input_processing/dual_axis/mod.rs:122-141 | `with_processor` is associative. |
| DualAxis.ProcessChain | src/input_processing/dual_axis/mod.rs:122-141 | Chaining any processors one by one with `with_processor`, starting from `None`, processes a value as the fold over them in order. This holds even when some of them are `None` or pipelines. |
| DualAxis.ChainOfPlainStagesIsFromIter | src/input_processing/dual_axis/mod.rs:62-78 | Chaining two or more plain stages builds the same pipeline as `from_iter` over them in the same order. |
| DualAxis.FromIter | src/input_processing/dual_axis/mod.rs:144-148 | `from_iter` always builds a `Pipeline`, holding the given processors in order. It never collapses: an empty list gives an empty pipeline, not `None`, and a single processor is not unwrapped. Processing the result folds over the given processors. |
| DualAxis.MakePipeline | src/input_processing/dual_axis/mod.rs:88-90 | `pipeline` always gives a `Pipeline` holding exactly the given processors, even for zero or one of them, as the creation test at mod.rs lines 548-590 asserts. |
| DualAxis.DualAxisInverted.Inverted | src/input_processing/dual_axis/mod.rs:412-414 | For the presets, each flag is true exactly when that axis's factor is negative. |
| DualAxis.DualAxisInverted.Invert | src/input_processing/dual_axis/mod.rs:419-421 | For the presets, `invert` negates exactly the axes that `inverted()` reports, and it preserves the squared length. |
| DualAxis.InvertedPresets | src/input_processing/dual_axis/mod.rs:401-407 | `ALL` negates both axes, `ONLY_X` only x, `ONLY_Y` only y. Their flags are `(true, true)`, `(true, false)` and `(false, true)`. |
| DualAxis.InvertInvolution | src/input_processing/dual_axis/mod.rs:592-629 | Inverting twice with the same preset gives back the original value. |
| DualAxis.DualAxisSensitivity.Sensitivities | src/input_processing/dual_axis/mod.rs:499-501 | Returns the stored factors. What each constructor stores is stated in the constructor rows below. |
| DualAxis.DualAxisSensitivity.Scale | src/input_processing/dual_axis/mod.rs:506-508 | The componentwise product with the factors. What it does for each constructor is stated by `SensitivityScales`. |
| DualAxis.NewSensitivity | src/input_processing/dual_axis/mod.rs:474-476 | `sensitivities()` of `new(sx, sy)` gives back `(sx, sy)`. |
| DualAxis.SensitivityAll | src/input_processing/dual_axis/mod.rs:480-482 | `sensitivities()` of `all(k)` is `(k, k)`. |
| DualAxis.SensitivityOnlyX | src/input_processing/dual_axis/mod.rs:486-488 | `sensitivities()` of `only_x(k)` is `(k, 1)`. |
| DualAxis.SensitivityOnlyY | src/input_processing/dual_axis/mod.rs:492-494 | `sensitivities()` of `only_y(k)` is `(1, k)`. |
| DualAxis.SensitivityScales | src/input_processing/dual_axis/mod.rs:499-508 | `scale` multiplies componentwise by the constructor's arguments. `all(k)` scales the whole vector by `k`, `only_x` leaves y unchanged, and `only_y` leaves x unchanged. |
| DualAxis.InvertThenDoubleBuilds | src/input_processing/dual_axis/mod.rs:62-78 | `Inverted(ALL).with_processor(Sensitivity(all(2)))` is the pipeline `from_iter` builds from the same two stages. |
| DualAxis.InvertThenDoubleScenario | src/input_processing/dual_axis/mod.rs:530-546 | The pipeline `[Inverted::ALL, Sensitivity::all(2)]` maps every `v` to `-2 v`. |
| AxisLike.AxisTypeFrom | src/axislike.rs:213-217 | Wraps a mouse-motion axis into `AxisType`. `TryFromInvertsFrom` states that `try_from` undoes it. |
| AxisLike.TryFromAxisType | src/axislike.rs:219-227 | `try_from` always succeeds, and `From` maps its result back to the input. |
| AxisLike.TryFromInvertsFrom | src/axislike.rs:213-227 | `try_from(from(m)) == Ok(m)` |
| AxisLike.Symmetric | src/axislike.rs:34-41 | Keeps the axis type, sets no mocking value, and sets the thresholds to `t` and `-t`. It satisfies the documented `positive_low >= negative_low` exactly when `t` is not negative. |
| AxisLike.SymmetricTriggers | src/axislike.rs:21-41 | With a non-negative threshold `t`, a symmetric axis triggers exactly on values of magnitude above `t`. |
| AxisLike.FromValue | src/axislike.rs:48-55 | Keeps the axis type, stores the mocking value, sets both thresholds to zero, and is always well formed. |
| AxisLike.FromValueTriggers | src/axislike.rs:48-55 | An axis built by `from_value` triggers on exactly the non-zero values. |
| AxisLike.MouseMotionX | src/axislike.rs:59-66 | Equals `from_value(MouseMotion(X), 0)` and has no mocking value. |
| AxisLike.MouseMotionY | src/axislike.rs:70-77 | Equals `from_value(MouseMotion(Y), 0)` and has no mocking value. |
| AxisLike.NegativeOnly | src/axislike.rs:82-89 | No mocking value. The positive threshold is `f32::MAX` and the negative threshold is `t`, so the axis is well formed exactly when `t` is at most `f32::MAX`. |
| AxisLike.PositiveOnly | src/axislike.rs:94-101 | No mocking value. The positive threshold is `t` and the negative threshold is `f32::MIN`, so the axis is well formed exactly when `t` is at least `f32::MIN`. |
| AxisLike.OneSidedTriggers | src/axislike.rs:82-101 | On finite values, a negative-only axis triggers exactly below its threshold and a positive-only axis exactly above it. Hence, with the threshold on the matching side of zero, the other side never triggers. |
| AxisLike.SingleAxis.WithDeadzone | src/axislike.rs:105-109 | Keeps the axis type and mocking value, and equals `symmetric(axis_type, d)`. It is well formed exactly when `d >= 0`. |
| AxisLike.Equal | src/axislike.rs:112-119 | Equality compares the axis type and both thresholds, and nothing else. `EqualIffSameButValue`, `ValueIgnored` and `EqualIsEquivalence` state its laws. |
| AxisLike.HashInput | src/axislike.rs:120-126 | What the hash feeds to the hasher: the axis type and both thresholds, in that order, never the mocking value. `EqualIffSameButValue` ties it to equality. |
| AxisLike.EqualIffSameButValue | src/axislike.rs:112-126 | Two axes are equal exactly when they coincide after erasing `value`. Equivalently, they feed the hasher the same input. |
| AxisLike.ValueIgnored | src/axislike.rs:112-126 | Changing only the mocking value changes neither equality nor hash. |
| AxisLike.EqualIsEquivalence | src/axislike.rs:112-119 | The hand-written equality is reflexive, symmetric and transitive, as `Eq` requires. |
| AxisLike.DualAxisData.X | src/axislike.rs:279-281 | The stored x value. `NewDualAxisData` states that it gives back the `x` passed in. |
| AxisLike.DualAxisData.Y | src/axislike.rs:286-288 | The stored y value. `NewDualAxisData` states that it gives back the `y` passed in. |
| AxisLike.DualAxisData.XY | src/axislike.rs:293-295 | The stored pair. `NewDualAxisData` and `FromXY` state that it gives back the pair passed in. |
| AxisLike.DualAxisData.LengthSquared | src/axislike.rs:340-342 | The squared length is never negative, and it is zero exactly when the stored pair is the origin. |
| AxisLike.NewDualAxisData | src/axislike.rs:249-253 | `x()`, `y()` and `xy()` of `new(x, y)` give back `x`, `y` and `(x, y)`. |
| AxisLike.FromXY | src/axislike.rs:256-258 | `xy()` of `from_xy(v)` is `v`, the same value as `new(v.x, v.y)`. |
| AxisLike.DefaultDualAxisData | src/axislike.rs:236-244 | The derived default is the origin. |
| AxisLike.DualAxisData.MergedWith | src/axislike.rs:269-271 | Each coordinate of the merge is the sum of the two coordinates. |
| AxisLike.MergedWithLaws | src/axislike.rs:269-271 | Merging is commutative and associative, with the origin as neutral element. |
| AxisLike.LengthSquaredOfNew | src/axislike.rs:340-342 | `length_squared()` of `new(x, y)` is `x² + y²`. |
| AxisLike.LengthSquaredZeroIffOrigin | src/axislike.rs:340-342 | The squared length is zero exactly for the default value. |
| AxisLike.MergedLengthSquaredBound | src/axislike.rs:265-271 | The merge's squared length is at most twice the sum of the parts' squared lengths. |
| AxisLike.MergedMayExceedUnit | src/axislike.rs:265-271 | Merging two unit values can leave the unit range, as the documentation warns. |
| Vectors.LengthSquaredZeroIff | src/axislike.rs:340-342 | A vector's squared length is zero exactly at the origin. |
| Chords.Chord.RawInputs | src/input_like/chords.rs:57-59 | Every raw input is a leaf, and there is one raw input per leaf of the chord's tree. |
| Chords.Chord.Contains | src/input_like/chords.rs:19-21 | `contains(x)` holds exactly when `x` is a leaf nested at any depth in one of the members. A chord is never contained. |
| Chords.Chord.InputPressed | src/input_like/chords.rs:33-41 | A chord is pressed exactly when every immediate member has a button view and that button is pressed. |
| Chords.Chord.Len | src/input_like/chords.rs:73-75 | Counting each member's raw inputs and summing gives the length of `raw_inputs()`, which is also the number of leaves in the chord. |
| Chords.Chord.CloneDyn | src/input_like/chords.rs:61-63 | The clone is a chord equal to the original, with the same raw inputs and the same pressed state in every world. |
| Chords.RawInputsConcatenate | src/input_like/chords.rs:57-59 | A chord's raw inputs are its members' raw inputs, concatenated in order. |
| Chords.RawInputsOfAppend | src/input_like/chords.rs:57-59 | Flattening distributes over concatenation of member lists. |
| Chords.FlattenNested | src/input_like/chords.rs:57-59 | Splicing a nested chord's members in place of the nested chord leaves the raw inputs unchanged. |
| Chords.FlattenExample | src/input_like/chords.rs:57-59 | `raw_inputs(Chord[Chord[A, B], C]) == raw_inputs(Chord[A, B, C])` |
| Chords.LeafCountIsRawLength | src/input_like/chords.rs:73-75 | An object has as many raw inputs as leaves in its tree. |
| Chords.RawInputsAreOccurringLeaves | src/input_like/chords.rs:57-59 | Every raw input is a leaf. An object is among the raw inputs exactly when it is a leaf nested somewhere in the tree. |
| Chords.ContainsNestedLeaf | src/input_like/chords.rs:19-21 | A leaf found inside any member, at any depth, is contained. |
| Chords.ChordIsStrict | src/input_like/chords.rs:33-41 | A member without a button view keeps the chord unpressed whatever the others do. |
| Chords.EmptyChordIsPressed | src/input_like/chords.rs:33-41 | The empty chord is pressed in every world. |
| Chords.HasButtonView | src/input_like/chords.rs:45-47 | Whether `as_button()` is present: the leaf's flag, and always for a chord. `ChordViews` states the chord case. |
| Chords.HasAxisView | src/input_like/chords.rs:49-51 | Whether `as_axis()` is present: the leaf's flag, and never for a chord. |
| Chords.HasDualAxisView | src/input_like/chords.rs:53-55 | Whether `as_dual_axis()` is present: the leaf's flag, and never for a chord. |
| Chords.ChordViews | src/input_like/chords.rs:45-55 | A chord has a button view and no single-axis or dual-axis view. Through its button view it is pressed exactly when `input_pressed` says so. |
| Chords.InputPressedIffLeaves | src/input_like/chords.rs:33-59 | A chord is pressed exactly when every raw leaf has a button view and is pressed. |
| Chords.FlattenPreservesPressed | src/input_like/chords.rs:33-59 | Splicing a nested chord's members in its place does not change whether the chord is pressed. |

## Left out

- Floating-point semantics are not modelled:
  - IEEE `f32` rounding;
  - NaN;
  - the `FloatOrd` total order that the hash implementations use.
  - Values are reals, and equality is real equality.
- The bodies of these stages are not part of this model:
  - rectangular bounds, exclusion and dead zone;
  - circular bounds, exclusion and dead zone;
  - user-defined processors.
  - Each is an uninterpreted function `Vec2 -> Vec2`.
  - Equality and hashing of processors that contain such stages are therefore not modelled, and neither are the hashes of the inversion and sensitivity stages.
- The `WithDualAxisProcessorExt` convenience methods are left out. They are thin wrappers over `with_processor` around stage constructors this model does not see. The symmetric x and y bounds wrappers build symmetric bounds on both axes, not one.
- These `DualAxisData` operations are left out: `direction`, `rotation`, `length` and `clamp_length`. They need square roots, a float threshold and engine types.
- The named `VirtualAxis` key-layout constructors are left out. They are plain data.
- DualAxis.DualAxisInverted.Invert: stated for the three public constants only. Other factor vectors arise only through deserialisation or reflection.
- DualAxis.DualAxisInverted.Inverted: stated for the three public constants only, for the same reason.
- Reflection and serialisation glue of chords is left out.
- Chord deserialisation is left out. It is an unimplemented stub in the source.
- A leaf's own `raw_inputs` is assumed to be the leaf itself. Leaf equality is structural equality of `LeafInput`. A leaf's pressed state against the engine world is an oracle parameter.
- `Arc`/`Box` sharing inside pipelines and chords is modelled by value. Reference counting has no observable effect here.
