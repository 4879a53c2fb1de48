/** Axis descriptors: the physical axis types, `SingleAxis` with its trigger
    zone, and the two-dimensional `DualAxisData` value. */
module AxisLike {
  import opened Vectors

  datatype Option<T> = None | Some(value: T)

  datatype Result<T, E> = Ok(value: T) | Err(error: E)

  // ---------------------------------------------------------------------
  // Axis types

  /** The direction of motion of the mouse. */
  datatype MouseMotionAxisType = X | Y

  /** The type of a physical axis; mouse motion is its only kind. */
  datatype AxisType = MouseMotion(motion: MouseMotionAxisType)

  /** An `AxisType` could not be narrowed to a more specific kind. */
  datatype AxisConversionError = AxisConversionError

  /** `From<MouseMotionAxisType> for AxisType`. */
  function AxisTypeFrom(motion: MouseMotionAxisType): AxisType {
    MouseMotion(motion)
  }

  /** `TryFrom<AxisType> for MouseMotionAxisType`: every axis type is a mouse
      motion, so the conversion always succeeds, and `From` undoes it. */
  function TryFromAxisType(axisType: AxisType): (r: Result<MouseMotionAxisType, AxisConversionError>)
    ensures r.Ok?
    ensures AxisTypeFrom(r.value) == axisType
  {
    match axisType
    case MouseMotion(inner) => Ok(inner)
  }

  /** Converting a mouse-motion axis up to `AxisType` and back gives it back. */
  lemma TryFromInvertsFrom(motion: MouseMotionAxisType)
    ensures TryFromAxisType(AxisTypeFrom(motion)) == Ok(motion)
  {
  }

  // ---------------------------------------------------------------------
  // SingleAxis

  /** `f32::MAX`, the largest finite single-precision value, and `f32::MIN`,
      its negation. */
  const F32_MAX: real := 340282346638528859811704183484516925440.0
  const F32_MIN: real := -F32_MAX

  function Abs(v: real): real {
    if v < 0.0 then -v else v
  }

  /** A single directional axis with a trigger zone. `value` is the target
      value used for input mocking. */
  datatype SingleAxis = SingleAxis(
    axisType: AxisType,
    positiveLow: real,
    negativeLow: real,
    value: Option<real>)
  {
    /** The documented (not enforced) invariant of a validly built axis. */
    predicate WellFormed() {
      positiveLow >= negativeLow
    }

    /** A value triggers the axis when it lies above `positiveLow` or below
        `negativeLow`, as the field documentation describes. */
    predicate Triggers(v: real) {
      v > positiveLow || v < negativeLow
    }

    /** `with_deadzone(d)`: the same axis with the trigger zone set to
        `[-d, d]`; it agrees with `symmetric(axis_type, d)` up to the mocking
        value, which it keeps. */
    function WithDeadzone(deadzone: real): (r: SingleAxis)
      ensures r.axisType == axisType && r.value == value
      ensures Equal(r, Symmetric(axisType, deadzone))
      ensures r.WellFormed() <==> deadzone >= 0.0
    {
      this.(negativeLow := -deadzone, positiveLow := deadzone)
    }
  }

  /** `SingleAxis::symmetric(axis_type, t)`: trigger zone `[-t, t]`, no mocking
      value; well formed exactly when `t` is not negative. */
  function Symmetric(axisType: AxisType, threshold: real): (r: SingleAxis)
    ensures r.axisType == axisType && r.value.None?
    ensures r.positiveLow == threshold && r.negativeLow == -threshold
    ensures r.WellFormed() <==> threshold >= 0.0
  {
    SingleAxis(axisType, threshold, -threshold, None)
  }

  /** `SingleAxis::from_value(axis_type, v)`: both thresholds zero and the
      mocking value `v`; always well formed. */
  function FromValue(axisType: AxisType, v: real): (r: SingleAxis)
    ensures r.axisType == axisType && r.value == Some(v)
    ensures r.positiveLow == 0.0 && r.negativeLow == 0.0
    ensures r.WellFormed()
  {
    SingleAxis(axisType, 0.0, 0.0, Some(v))
  }

  /** `SingleAxis::mouse_motion_x()`: horizontal mouse motion, zero thresholds. */
  function MouseMotionX(): (r: SingleAxis)
    ensures Equal(r, FromValue(AxisTypeFrom(X), 0.0)) && r.value.None?
  {
    SingleAxis(MouseMotion(X), 0.0, 0.0, None)
  }

  /** `SingleAxis::mouse_motion_y()`: vertical mouse motion, zero thresholds. */
  function MouseMotionY(): (r: SingleAxis)
    ensures Equal(r, FromValue(AxisTypeFrom(Y), 0.0)) && r.value.None?
  {
    SingleAxis(MouseMotion(Y), 0.0, 0.0, None)
  }

  /** `SingleAxis::negative_only(axis_type, t)`: triggers below `t`; the
      positive threshold is `f32::MAX`. */
  function NegativeOnly(axisType: AxisType, threshold: real): (r: SingleAxis)
    ensures r.axisType == axisType && r.value.None?
    ensures r.positiveLow == F32_MAX && r.negativeLow == threshold
    ensures r.WellFormed() <==> threshold <= F32_MAX
  {
    SingleAxis(axisType, F32_MAX, threshold, None)
  }

  /** `SingleAxis::positive_only(axis_type, t)`: triggers above `t`; the
      negative threshold is `f32::MIN`. */
  function PositiveOnly(axisType: AxisType, threshold: real): (r: SingleAxis)
    ensures r.axisType == axisType && r.value.None?
    ensures r.positiveLow == threshold && r.negativeLow == F32_MIN
    ensures r.WellFormed() <==> threshold >= F32_MIN
  {
    SingleAxis(axisType, threshold, F32_MIN, None)
  }

  /** `PartialEq for SingleAxis`: compares the axis type and both thresholds,
      never the mocking value. */
  predicate Equal(a: SingleAxis, b: SingleAxis) {
    a.axisType == b.axisType && a.positiveLow == b.positiveLow && a.negativeLow == b.negativeLow
  }

  /** What `Hash for SingleAxis` feeds to the hasher, in order. */
  function HashInput(a: SingleAxis): (AxisType, real, real) {
    (a.axisType, a.positiveLow, a.negativeLow)
  }

  /** Two axes are equal exactly when they coincide once their mocking values
      are erased, and exactly when they feed the hasher the same input. */
  lemma EqualIffSameButValue(a: SingleAxis, b: SingleAxis)
    ensures Equal(a, b) <==> a.(value := None) == b.(value := None)
    ensures Equal(a, b) <==> HashInput(a) == HashInput(b)
  {
  }

  /** Changing only the mocking value changes neither equality nor hash. */
  lemma ValueIgnored(a: SingleAxis, v: Option<real>)
    ensures Equal(a, a.(value := v))
    ensures HashInput(a) == HashInput(a.(value := v))
  {
  }

  /** Axis equality is an equivalence relation. */
  lemma EqualIsEquivalence(a: SingleAxis, b: SingleAxis, c: SingleAxis)
    ensures Equal(a, a)
    ensures Equal(a, b) ==> Equal(b, a)
    ensures Equal(a, b) && Equal(b, c) ==> Equal(a, c)
  {
  }

  /** A symmetric axis with a non-negative threshold triggers exactly on
      values whose magnitude exceeds the threshold. */
  lemma SymmetricTriggers(axisType: AxisType, threshold: real, v: real)
    requires threshold >= 0.0
    ensures Symmetric(axisType, threshold).Triggers(v) <==> Abs(v) > threshold
  {
  }

  /** A value with zero thresholds triggers on every non-zero value. */
  lemma FromValueTriggers(axisType: AxisType, mocked: real, v: real)
    ensures FromValue(axisType, mocked).Triggers(v) <==> v != 0.0
  {
  }

  /** On finite values, a negative-only axis triggers exactly below its
      threshold and a positive-only axis exactly above it; so the other side
      never triggers when the threshold lies on the matching side of zero. */
  lemma OneSidedTriggers(axisType: AxisType, threshold: real, v: real)
    ensures v <= F32_MAX ==> (NegativeOnly(axisType, threshold).Triggers(v) <==> v < threshold)
    ensures v >= F32_MIN ==> (PositiveOnly(axisType, threshold).Triggers(v) <==> v > threshold)
    ensures threshold <= 0.0 && 0.0 <= v <= F32_MAX ==> !NegativeOnly(axisType, threshold).Triggers(v)
    ensures threshold >= 0.0 && F32_MIN <= v <= 0.0 ==> !PositiveOnly(axisType, threshold).Triggers(v)
  {
  }

  // ---------------------------------------------------------------------
  // DualAxisData

  /** The combination of two input axes, an immutable 2-D value. */
  datatype DualAxisData = DualAxisData(xy: Vec2) {

    /** The value along the x-axis. */
    function X(): real {
      xy.x
    }

    /** The value along the y-axis. */
    function Y(): real {
      xy.y
    }

    /** The (x, y) pair. */
    function XY(): Vec2 {
      xy
    }

    /** `length_squared()`: the squared magnitude of the stored pair; never
        negative, and zero only at the origin. */
    function LengthSquared(): (r: real)
      ensures r >= 0.0
      ensures r == 0.0 <==> xy == Zero()
    {
      LengthSquaredNonnegative(xy);
      LengthSquaredZeroIff(xy);
      xy.LengthSquared()
    }

    /** `merged_with(other)`: the vector sum of the two positions. */
    function MergedWith(other: DualAxisData): (r: DualAxisData)
      ensures r.X() == X() + other.X() && r.Y() == Y() + other.Y()
    {
      FromXY(XY().Add(other.XY()))
    }
  }

  /** `DualAxisData::new(x, y)`: its accessors give back `x`, `y` and `(x, y)`. */
  function NewDualAxisData(x: real, y: real): (r: DualAxisData)
    ensures r.X() == x && r.Y() == y && r.XY() == Vec2(x, y)
  {
    DualAxisData(Vec2(x, y))
  }

  /** `DualAxisData::from_xy(xy)`: `xy()` gives back `xy`. */
  function FromXY(xy: Vec2): (r: DualAxisData)
    ensures r.XY() == xy && r == NewDualAxisData(xy.x, xy.y)
  {
    DualAxisData(xy)
  }

  /** The default value, the neutral origin. */
  function DefaultDualAxisData(): (r: DualAxisData)
    ensures r.XY() == Zero()
  {
    DualAxisData(Zero())
  }

  /** Merging is commutative and associative, and the origin is neutral. */
  lemma MergedWithLaws(a: DualAxisData, b: DualAxisData, c: DualAxisData)
    ensures a.MergedWith(b) == b.MergedWith(a)
    ensures a.MergedWith(b).MergedWith(c) == a.MergedWith(b.MergedWith(c))
    ensures a.MergedWith(DefaultDualAxisData()) == a
  {
  }

  /** `length_squared()` of `new(x, y)` is `x² + y²`. */
  lemma LengthSquaredOfNew(x: real, y: real)
    ensures NewDualAxisData(x, y).LengthSquared() == x * x + y * y
  {
  }

  /** The squared length is zero exactly at the origin. */
  lemma LengthSquaredZeroIffOrigin(d: DualAxisData)
    ensures d.LengthSquared() == 0.0 <==> d == DefaultDualAxisData()
  {
    calc {
      d.LengthSquared() == 0.0;
    <==>
      d.xy.LengthSquared() == 0.0;
    <==>  { LengthSquaredZeroIff(d.xy); }
      d.xy == Zero();
    <==>
      d == DefaultDualAxisData();
    }
  }

  /** `(a + b)² <= 2a² + 2b²`. */
  lemma SquareOfSumBound(a: real, b: real)
    ensures (a + b) * (a + b) <= 2.0 * (a * a) + 2.0 * (b * b)
  {
    SquareNonnegative(a - b);
    assert (a - b) * (a - b) == a * a - 2.0 * (a * b) + b * b;
    assert (a + b) * (a + b) == a * a + 2.0 * (a * b) + b * b;
  }

  /** Merging may exceed either magnitude, but its squared length is at most
      twice the sum of the parts' squared lengths. */
  lemma MergedLengthSquaredBound(a: DualAxisData, b: DualAxisData)
    ensures a.MergedWith(b).LengthSquared() <= 2.0 * (a.LengthSquared() + b.LengthSquared())
  {
    var x1, y1, x2, y2 := a.X(), a.Y(), b.X(), b.Y();
    SquareOfSumBound(x1, x2);
    SquareOfSumBound(y1, y2);
    calc {
      a.MergedWith(b).LengthSquared();
    ==
      (x1 + x2) * (x1 + x2) + (y1 + y2) * (y1 + y2);
    <=
      2.0 * (x1 * x1) + 2.0 * (x2 * x2) + 2.0 * (y1 * y1) + 2.0 * (y2 * y2);
    ==
      2.0 * ((x1 * x1 + y1 * y1) + (x2 * x2 + y2 * y2));
    ==
      2.0 * (a.LengthSquared() + b.LengthSquared());
    }
  }

  /** Two unit positions along the same direction merge into one of squared
      length 4, beyond the unit range of a gamepad axis. */
  lemma MergedMayExceedUnit()
    ensures NewDualAxisData(1.0, 0.0).MergedWith(NewDualAxisData(1.0, 0.0)).LengthSquared() == 4.0
  {
    var a := NewDualAxisData(1.0, 0.0);
    var m := a.MergedWith(a);
    assert m.X() == 2.0 && m.Y() == 0.0;
    assert m.xy == Vec2(2.0, 0.0);
  }
}
