/** Processors for dual-axis input values: single stages (inversion,
    sensitivity and the stages whose bodies are not part of this model), and
    the pipeline that chains them, with its composition operator. */
module DualAxis {
  import opened Vectors

  /** Flips the sign of each axis whose factor is -1 (`DualAxisInverted`). */
  datatype DualAxisInverted = DualAxisInverted(factors: Vec2) {

    /** The three public constants, the only values callers build outside
        deserialisation and reflection. */
    predicate IsPreset() {
      this == ALL || this == ONLY_X || this == ONLY_Y
    }

    /** `inverted()`: per axis, whether the factor equals -1. */
    function Inverted(): (r: (bool, bool))
      ensures IsPreset() ==> (r.0 <==> factors.x < 0.0) && (r.1 <==> factors.y < 0.0)
    {
      (factors.x == -1.0, factors.y == -1.0)
    }

    /** `invert(v)`: multiplies `v` by the inversion vector; for a preset this
        negates exactly the axes that `Inverted()` reports. */
    function Invert(v: Vec2): (r: Vec2)
      ensures IsPreset() ==>
        r == Vec2(if Inverted().0 then -v.x else v.x, if Inverted().1 then -v.y else v.y)
      ensures IsPreset() ==> r.LengthSquared() == v.LengthSquared()
    {
      factors.Mul(v)
    }
  }

  const ALL: DualAxisInverted := DualAxisInverted(Vec2(-1.0, -1.0))
  const ONLY_X: DualAxisInverted := DualAxisInverted(Vec2(-1.0, 1.0))
  const ONLY_Y: DualAxisInverted := DualAxisInverted(Vec2(1.0, -1.0))

  /** Scales each axis by its own factor (`DualAxisSensitivity`). */
  datatype DualAxisSensitivity = DualAxisSensitivity(factors: Vec2) {

    /** `sensitivities()`: the factors the value was built with. */
    function Sensitivities(): Vec2 {
      factors
    }

    /** `scale(v)`: componentwise product with the factors. */
    function Scale(v: Vec2): Vec2 {
      factors.Mul(v)
    }
  }

  /** `DualAxisSensitivity::new(sx, sy)`. */
  function NewSensitivity(sx: real, sy: real): (r: DualAxisSensitivity)
    ensures r.Sensitivities() == Vec2(sx, sy)
  {
    DualAxisSensitivity(Vec2(sx, sy))
  }

  /** `DualAxisSensitivity::all(k)`: scales the whole vector by `k`. */
  function SensitivityAll(k: real): (r: DualAxisSensitivity)
    ensures r.Sensitivities() == Vec2(k, k)
  {
    NewSensitivity(k, k)
  }

  /** `DualAxisSensitivity::only_x(k)`: scales x by `k`, leaves y alone. */
  function SensitivityOnlyX(k: real): (r: DualAxisSensitivity)
    ensures r.Sensitivities() == Vec2(k, 1.0)
  {
    NewSensitivity(k, 1.0)
  }

  /** `DualAxisSensitivity::only_y(k)`: scales y by `k`, leaves x alone. */
  function SensitivityOnlyY(k: real): (r: DualAxisSensitivity)
    ensures r.Sensitivities() == Vec2(1.0, k)
  {
    NewSensitivity(1.0, k)
  }

  /** A stage whose processing function is defined outside this model
      (rectangular bounds, exclusion and dead zone, their circular forms, and
      user-defined processors): only its effect on a value is kept. */
  datatype OpaqueStage = OpaqueStage(apply: Vec2 -> Vec2)

  /** `DualAxisProcessor`: no-op, one stage, a pipeline of processors, or a
      user-defined stage. */
  datatype DualAxisProcessor =
    | None
    | Inverted(inversion: DualAxisInverted)
    | Sensitivity(sensitivity: DualAxisSensitivity)
    | ValueBounds(stage: OpaqueStage)
    | Exclusion(stage: OpaqueStage)
    | DeadZone(stage: OpaqueStage)
    | CircleBounds(stage: OpaqueStage)
    | CircleExclusion(stage: OpaqueStage)
    | CircleDeadZone(stage: OpaqueStage)
    | Pipeline(stages: seq<DualAxisProcessor>)
    | Custom(stage: OpaqueStage)

  /** `process`: identity on `None`, the stage's own function on a stage, and
      a left-to-right fold over the stages of a pipeline. */
  function Process(p: DualAxisProcessor, v: Vec2): Vec2
    decreases p
  {
    match p
    case None => v
    case Inverted(inversion) => inversion.Invert(v)
    case Sensitivity(sensitivity) => sensitivity.Scale(v)
    case ValueBounds(stage) => stage.apply(v)
    case Exclusion(stage) => stage.apply(v)
    case DeadZone(stage) => stage.apply(v)
    case CircleBounds(stage) => stage.apply(v)
    case CircleExclusion(stage) => stage.apply(v)
    case CircleDeadZone(stage) => stage.apply(v)
    case Pipeline(stages) => Fold(stages, v)
    case Custom(stage) => stage.apply(v)
  }

  /** The fold of `process` over a sequence of processors, first one first. */
  function Fold(stages: seq<DualAxisProcessor>, v: Vec2): Vec2
    decreases stages
  {
    if stages == [] then v else Fold(stages[1..], Process(stages[0], v))
  }

  /** The stage sequence a processor contributes to a composite: a pipeline's
      own stages, or the processor itself as a one-element sequence. */
  function StagesOf(p: DualAxisProcessor): seq<DualAxisProcessor> {
    if p.Pipeline? then p.stages else [p]
  }

  /** `with_processor`: appends `next` as the next processing step. `None` on
      either side yields the other side; otherwise the result is the pipeline
      of both sides' stages in order (pipelines are flattened one level). */
  function WithProcessor(self: DualAxisProcessor, next: DualAxisProcessor): (r: DualAxisProcessor)
    ensures next.None? ==> r == self
    ensures self.None? ==> r == next
    ensures !self.None? && !next.None? ==> r == Pipeline(StagesOf(self) + StagesOf(next))
  {
    match (self, next)
    case (_, None) => self
    case (None, _) => next
    case (Pipeline(selfSeq), Pipeline(nextSeq)) => Pipeline(selfSeq + nextSeq)
    case (Pipeline(selfSeq), _) => Pipeline(selfSeq + [next])
    case (_, Pipeline(nextSeq)) => Pipeline([self] + nextSeq)
    case (_, _) => assert [self, next] == [self] + [next]; Pipeline([self, next])
  }

  /** `with_processor` as the source builds it: the stage vector of one side
      is edited in place (`append`, `push`, or `insert` at the front). */
  method WithProcessorInPlace(self: DualAxisProcessor, next: DualAxisProcessor) returns (r: DualAxisProcessor)
    ensures r == WithProcessor(self, next)
  {
    if next.None? {
      r := self;
    } else if self.None? {
      r := next;
    } else if self.Pipeline? && next.Pipeline? {
      var selfSeq, nextSeq := self.stages, next.stages;
      selfSeq, nextSeq := selfSeq + nextSeq, [];
      r := Pipeline(selfSeq);
    } else if self.Pipeline? {
      var selfSeq := self.stages;
      selfSeq := selfSeq + [next];
      r := Pipeline(selfSeq);
    } else if next.Pipeline? {
      var nextSeq := next.stages;
      nextSeq := [self] + nextSeq;
      r := Pipeline(nextSeq);
    } else {
      r := Pipeline([self, next]);
    }
  }

  /** `from_iter`: wraps the given processors, in order, into a pipeline; it
      never collapses, so an empty input gives an empty pipeline, not `None`. */
  function FromIter(processors: seq<DualAxisProcessor>): (r: DualAxisProcessor)
    ensures r.Pipeline?
    ensures StagesOf(r) == processors
    ensures forall v :: Process(r, v) == Fold(processors, v)
  {
    Pipeline(processors)
  }

  /** `pipeline`: delegates to `from_iter`, so it always gives a pipeline
      holding exactly the given processors, even for zero or one of them. */
  function MakePipeline(processors: seq<DualAxisProcessor>): (r: DualAxisProcessor)
    ensures r.Pipeline? && r.stages == processors
  {
    FromIter(processors)
  }

  /** Repeated `with_processor`, starting from `None`, over `processors`. */
  function Chain(processors: seq<DualAxisProcessor>): DualAxisProcessor
    decreases |processors|
  {
    if processors == [] then None
    else WithProcessor(Chain(processors[..|processors| - 1]), processors[|processors| - 1])
  }

  // ---------------------------------------------------------------------
  // Laws of `process`

  /** `None` processes every value to itself. */
  lemma ProcessNoneIsIdentity(v: Vec2)
    ensures Process(None, v) == v
  {
  }

  /** Folding over a concatenation is folding over each part in turn. */
  lemma {:induction false} FoldAppend(a: seq<DualAxisProcessor>, b: seq<DualAxisProcessor>, v: Vec2)
    ensures Fold(a + b, v) == Fold(b, Fold(a, v))
    decreases |a|
  {
    if a == [] {
      assert a + b == b;
    } else {
      assert (a + b)[0] == a[0];
      assert (a + b)[1..] == a[1..] + b;
      FoldAppend(a[1..], b, Process(a[0], v));
    }
  }

  /** Every processor processes a value as the fold over the stage sequence
      it contributes to a composite. */
  lemma ProcessIsFoldOfStages(p: DualAxisProcessor, v: Vec2)
    ensures Process(p, v) == Fold(StagesOf(p), v)
  {
    if !p.Pipeline? {
      assert StagesOf(p)[1..] == [];
    }
  }

  /** The process of a composite is the sequential process of its parts. */
  lemma ProcessWithProcessor(x: DualAxisProcessor, y: DualAxisProcessor, v: Vec2)
    ensures Process(WithProcessor(x, y), v) == Process(y, Process(x, v))
  {
    if !x.None? && !y.None? {
      ProcessIsFoldOfStages(x, v);
      ProcessIsFoldOfStages(y, Process(x, v));
      FoldAppend(StagesOf(x), StagesOf(y), v);
    }
  }

  /** Chaining processors one by one processes a value as the fold over them,
      whatever they are (including `None` and nested pipelines). */
  lemma {:induction false} ProcessChain(processors: seq<DualAxisProcessor>, v: Vec2)
    ensures Process(Chain(processors), v) == Fold(processors, v)
    decreases |processors|
  {
    if processors != [] {
      var n := |processors| - 1;
      var init, last := processors[..n], processors[n];
      assert processors == init + [last];
      ProcessChain(init, v);
      ProcessWithProcessor(Chain(init), last, v);
      FoldAppend(init, [last], v);
    }
  }

  // ---------------------------------------------------------------------
  // Laws of `with_processor`

  /** `with_processor` is associative. */
  lemma WithProcessorAssociative(x: DualAxisProcessor, y: DualAxisProcessor, z: DualAxisProcessor)
    ensures WithProcessor(WithProcessor(x, y), z) == WithProcessor(x, WithProcessor(y, z))
  {
    if !x.None? && !y.None? && !z.None? {
      assert StagesOf(x) + StagesOf(y) + StagesOf(z) == StagesOf(x) + (StagesOf(y) + StagesOf(z));
    }
  }

  /** A stage that is neither `None` nor a pipeline. */
  predicate IsPlainStage(p: DualAxisProcessor) {
    !p.None? && !p.Pipeline?
  }

  /** Chaining two or more plain stages with `with_processor` builds the same
      pipeline as `from_iter` over the same stages in the same order. */
  lemma {:induction false} ChainOfPlainStagesIsFromIter(processors: seq<DualAxisProcessor>)
    requires |processors| >= 2
    requires forall i :: 0 <= i < |processors| ==> IsPlainStage(processors[i])
    ensures Chain(processors) == FromIter(processors)
    decreases |processors|
  {
    var n := |processors| - 1;
    var init, last := processors[..n], processors[n];
    assert processors == init + [last];
    if n == 1 {
      assert init[..0] == [];
      assert Chain(init) == init[0];
    } else {
      ChainOfPlainStagesIsFromIter(init);
    }
  }

  // ---------------------------------------------------------------------
  // Stage laws

  /** The presets invert both axes, only x, and only y, and report so. */
  lemma InvertedPresets(v: Vec2)
    ensures ALL.Invert(v) == v.Neg() && ALL.Inverted() == (true, true)
    ensures ONLY_X.Invert(v) == Vec2(-v.x, v.y) && ONLY_X.Inverted() == (true, false)
    ensures ONLY_Y.Invert(v) == Vec2(v.x, -v.y) && ONLY_Y.Inverted() == (false, true)
  {
  }

  /** Applying the same preset twice gives back the original value. */
  lemma InvertInvolution(inversion: DualAxisInverted, v: Vec2)
    requires inversion.IsPreset()
    ensures inversion.Invert(inversion.Invert(v)) == v
  {
  }

  /** Chaining `Inverted::ALL` then `Sensitivity::all(2)` with
      `with_processor` builds the same pipeline as `from_iter`. */
  lemma InvertThenDoubleBuilds()
    ensures WithProcessor(Inverted(ALL), Sensitivity(SensitivityAll(2.0)))
         == FromIter([Inverted(ALL), Sensitivity(SensitivityAll(2.0))])
  {
  }

  /** `scale` multiplies componentwise by the constructor's arguments: `new`
      scales each axis by its own factor, `all` scales the whole vector,
      `only_x` leaves y unchanged and `only_y` leaves x unchanged. */
  lemma SensitivityScales(sx: real, sy: real, k: real, v: Vec2)
    ensures NewSensitivity(sx, sy).Scale(v) == Vec2(sx * v.x, sy * v.y)
    ensures SensitivityAll(k).Scale(v) == v.Times(k)
    ensures SensitivityOnlyX(k).Scale(v) == Vec2(k * v.x, v.y)
    ensures SensitivityOnlyY(k).Scale(v) == Vec2(v.x, k * v.y)
  {
  }

  /** `Pipeline[Inverted::ALL, Sensitivity::all(2)]` maps every `v` to `-2 v`. */
  lemma InvertThenDoubleScenario(v: Vec2)
    ensures Process(FromIter([Inverted(ALL), Sensitivity(SensitivityAll(2.0))]), v) == v.Times(-2.0)
  {
    var inv, dbl := Inverted(ALL), Sensitivity(SensitivityAll(2.0));
    var stages := [inv, dbl];
    InvertedPresets(v);
    SensitivityScales(2.0, 2.0, 2.0, v.Neg());
    calc {
      Process(FromIter(stages), v);
    ==
      Fold(stages, v);
    ==
      Fold(stages[1..], Process(inv, v));
    ==  { assert stages[1..] == [dbl]; }
      Fold([dbl], v.Neg());
    ==
      Fold([], Process(dbl, v.Neg()));
    ==
      SensitivityAll(2.0).Scale(v.Neg());
    ==
      v.Neg().Times(2.0);
    ==
      v.Times(-2.0);
    }
  }
}
