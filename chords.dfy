/** Chords: composite inputs that are pressed when all of their members are,
    and that decompose recursively into the leaf inputs they are made of. */
module Chords {

  /** A leaf input: one physical or virtual source, with the views it offers.
      How a leaf reads its state from the engine is not part of this model;
      whether a leaf is pressed is given by an oracle. */
  datatype LeafInput = LeafInput(source: nat, buttonView: bool, axisView: bool, dualAxisView: bool)

  /** An input object: a leaf, or a chord of input objects. */
  datatype InputObject = Leaf(leaf: LeafInput) | ChordInput(chord: Chord)

  /** `Chord`: its members, in order, duplicates allowed. `Chord::new` is the
      constructor. */
  datatype Chord = Chord(inputs: seq<InputObject>) {

    /** `raw_inputs()`: every member's raw inputs, concatenated in order;
        they are leaves, one per leaf of the chord's tree. */
    function RawInputs(): (r: seq<InputObject>)
      ensures |r| == LeafCountOf(inputs)
      ensures forall x :: x in r ==> x.Leaf?
    {
      LeafCountOfIsRawLength(inputs);
      assert forall x :: x in RawInputsOf(inputs) ==> x.Leaf? by {
        forall x | x in RawInputsOf(inputs)
          ensures x.Leaf?
        {
          RawInputsOfAreOccurringLeaves(inputs, x);
        }
      }
      RawInputsOf(inputs)
    }

    /** `len()`: the number of raw inputs, counted member by member; it is the
        length of `raw_inputs()` and the number of leaves in the chord. */
    function Len(): (r: nat)
      ensures r == |RawInputs()|
      ensures r == LeafCountOf(inputs)
    {
      RawLengthsAdd(inputs);
      CountRaw(inputs)
    }

    /** `contains(x)`: `x` equals one of the raw inputs; that is, `x` is a
        leaf nested at any depth in one of the members, and never a chord. */
    predicate Contains(x: InputObject)
      ensures Contains(x) <==> OccursIn(x, inputs)
      ensures x.ChordInput? ==> !Contains(x)
    {
      RawInputsOfAreOccurringLeaves(inputs, x);
      x in RawInputs()
    }

    /** `input_pressed`: every member offers a button view and that button is
        pressed (a member without one counts as not pressed). */
    predicate InputPressed(pressed: LeafInput -> bool)
      ensures InputPressed(pressed) <==>
        forall i :: 0 <= i < |inputs| ==> HasButtonView(inputs[i]) && ButtonPressed(inputs[i], pressed)
    {
      AllPressedIffEvery(inputs, pressed);
      AllPressed(inputs, pressed)
    }

    /** `clone_dyn()`: a boxed copy equal to this chord, with the same raw
        inputs and the same pressed state in every world. */
    function CloneDyn(): (r: InputObject)
      ensures r.ChordInput? && r.chord == this
      ensures ObjectRawInputs(r) == RawInputs()
      ensures forall pressed :: ButtonPressed(r, pressed) == InputPressed(pressed)
    {
      ChordInput(this)
    }
  }

  // ---------------------------------------------------------------------
  // Views

  /** `as_button()` is present: always for a chord. */
  predicate HasButtonView(o: InputObject) {
    match o
    case Leaf(leaf) => leaf.buttonView
    case ChordInput(_) => true
  }

  /** `as_axis()` is present: never for a chord. */
  predicate HasAxisView(o: InputObject) {
    match o
    case Leaf(leaf) => leaf.axisView
    case ChordInput(_) => false
  }

  /** `as_dual_axis()` is present: never for a chord. */
  predicate HasDualAxisView(o: InputObject) {
    match o
    case Leaf(leaf) => leaf.dualAxisView
    case ChordInput(_) => false
  }

  /** `as_button().map(input_pressed).unwrap_or_default()`: pressed through the
      button view, false when there is none. A leaf asks the oracle; a chord
      asks its own members. */
  predicate ButtonPressed(o: InputObject, pressed: LeafInput -> bool)
    decreases o
  {
    match o
    case Leaf(leaf) => leaf.buttonView && pressed(leaf)
    case ChordInput(chord) => AllPressed(chord.inputs, pressed)
  }

  /** `all` over the members' button states. */
  predicate AllPressed(inputs: seq<InputObject>, pressed: LeafInput -> bool)
    decreases inputs
  {
    inputs == [] || (ButtonPressed(inputs[0], pressed) && AllPressed(inputs[1..], pressed))
  }

  // ---------------------------------------------------------------------
  // Raw inputs

  /** The raw inputs of one object: a leaf is its own single raw input (an
      assumption about the leaf implementations), a chord flattens. */
  function ObjectRawInputs(o: InputObject): seq<InputObject>
    decreases o
  {
    match o
    case Leaf(_) => [o]
    case ChordInput(chord) => RawInputsOf(chord.inputs)
  }

  /** `flat_map(raw_inputs)` over a sequence of members. */
  function RawInputsOf(inputs: seq<InputObject>): seq<InputObject>
    decreases inputs
  {
    if inputs == [] then [] else ObjectRawInputs(inputs[0]) + RawInputsOf(inputs[1..])
  }

  /** `flat_map(raw_inputs).count()`: the members' raw-input counts summed. */
  function CountRaw(inputs: seq<InputObject>): nat {
    if inputs == [] then 0 else |ObjectRawInputs(inputs[0])| + CountRaw(inputs[1..])
  }

  /** The number of leaves in an object's tree, an independent measure. */
  function LeafCount(o: InputObject): nat
    decreases o
  {
    match o
    case Leaf(_) => 1
    case ChordInput(chord) => LeafCountOf(chord.inputs)
  }

  function LeafCountOf(inputs: seq<InputObject>): nat
    decreases inputs
  {
    if inputs == [] then 0 else LeafCount(inputs[0]) + LeafCountOf(inputs[1..])
  }

  /** `x` is a leaf somewhere in the tree of `o`, at any depth. */
  predicate Occurs(x: InputObject, o: InputObject)
    decreases o
  {
    match o
    case Leaf(_) => x == o
    case ChordInput(chord) => OccursIn(x, chord.inputs)
  }

  predicate OccursIn(x: InputObject, inputs: seq<InputObject>)
    decreases inputs
  {
    inputs != [] && (Occurs(x, inputs[0]) || OccursIn(x, inputs[1..]))
  }

  /** Counting member by member gives the length of the flattened sequence. */
  lemma {:induction false} RawLengthsAdd(inputs: seq<InputObject>)
    ensures CountRaw(inputs) == |RawInputsOf(inputs)|
    decreases inputs
  {
    if inputs != [] {
      RawLengthsAdd(inputs[1..]);
    }
  }

  /** The raw inputs of an object are as many as its leaves. */
  lemma {:induction false} LeafCountIsRawLength(o: InputObject)
    ensures |ObjectRawInputs(o)| == LeafCount(o)
    decreases o, 1
  {
    if o.ChordInput? {
      LeafCountOfIsRawLength(o.chord.inputs);
    }
  }

  lemma {:induction false} LeafCountOfIsRawLength(inputs: seq<InputObject>)
    ensures |RawInputsOf(inputs)| == LeafCountOf(inputs)
    decreases inputs, 0
  {
    if inputs != [] {
      LeafCountIsRawLength(inputs[0]);
      LeafCountOfIsRawLength(inputs[1..]);
    }
  }

  /** Flattening distributes over concatenation of member sequences. */
  lemma {:induction false} RawInputsOfAppend(a: seq<InputObject>, b: seq<InputObject>)
    ensures RawInputsOf(a + b) == RawInputsOf(a) + RawInputsOf(b)
    decreases a
  {
    if a == [] {
      assert a + b == b;
    } else {
      assert (a + b)[0] == a[0];
      assert (a + b)[1..] == a[1..] + b;
      RawInputsOfAppend(a[1..], b);
    }
  }

  /** A chord's raw inputs are its members' raw inputs concatenated in order. */
  lemma {:induction false} RawInputsConcatenate(c: Chord, i: nat)
    requires i <= |c.inputs|
    ensures c.RawInputs() == RawInputsOf(c.inputs[..i]) + RawInputsOf(c.inputs[i..])
  {
    assert c.inputs == c.inputs[..i] + c.inputs[i..];
    RawInputsOfAppend(c.inputs[..i], c.inputs[i..]);
  }

  /** Splicing a nested chord's members in place of the nested chord leaves
      the raw inputs unchanged (chords of chords flatten fully). */
  lemma {:induction false} FlattenNested(pre: seq<InputObject>, nested: Chord, post: seq<InputObject>)
    ensures Chord(pre + [ChordInput(nested)] + post).RawInputs()
         == Chord(pre + nested.inputs + post).RawInputs()
  {
    var n := ChordInput(nested);
    RawInputsOfAppend(pre + [n], post);
    RawInputsOfAppend(pre, [n]);
    RawInputsOfAppend(pre + nested.inputs, post);
    RawInputsOfAppend(pre, nested.inputs);
    assert [n][1..] == [];
    assert RawInputsOf([n]) == ObjectRawInputs(n) + RawInputsOf([]);
  }

  /** `raw_inputs(Chord[Chord[A, B], C]) == raw_inputs(Chord[A, B, C])`. */
  lemma FlattenExample(a: InputObject, b: InputObject, c: InputObject)
    ensures Chord([ChordInput(Chord([a, b])), c]).RawInputs() == Chord([a, b, c]).RawInputs()
  {
    FlattenNested([], Chord([a, b]), [c]);
    assert [] + [ChordInput(Chord([a, b]))] + [c] == [ChordInput(Chord([a, b])), c];
    assert [] + [a, b] + [c] == [a, b, c];
  }

  /** Every raw input is a leaf, and it occurs in the tree. */
  lemma {:induction false} RawInputsAreOccurringLeaves(o: InputObject, x: InputObject)
    ensures x in ObjectRawInputs(o) <==> Occurs(x, o)
    ensures x in ObjectRawInputs(o) ==> x.Leaf?
    decreases o, 1
  {
    if o.ChordInput? {
      RawInputsOfAreOccurringLeaves(o.chord.inputs, x);
    }
  }

  lemma {:induction false} RawInputsOfAreOccurringLeaves(inputs: seq<InputObject>, x: InputObject)
    ensures x in RawInputsOf(inputs) <==> OccursIn(x, inputs)
    ensures x in RawInputsOf(inputs) ==> x.Leaf?
    decreases inputs, 0
  {
    if inputs != [] {
      RawInputsAreOccurringLeaves(inputs[0], x);
      RawInputsOfAreOccurringLeaves(inputs[1..], x);
    }
  }

  /** A leaf member, and a leaf inside a nested member, are contained. */
  lemma ContainsNestedLeaf(c: Chord, i: nat, leaf: LeafInput)
    requires i < |c.inputs|
    requires Occurs(Leaf(leaf), c.inputs[i])
    ensures c.Contains(Leaf(leaf))
  {
    RawInputsConcatenate(c, i);
    assert c.inputs[i..][0] == c.inputs[i];
    RawInputsAreOccurringLeaves(c.inputs[i], Leaf(leaf));
  }

  // ---------------------------------------------------------------------
  // Pressed state

  /** `all` over the members: every member has a button view that is pressed. */
  lemma {:induction false} AllPressedIffEvery(inputs: seq<InputObject>, pressed: LeafInput -> bool)
    ensures AllPressed(inputs, pressed) <==>
      forall i :: 0 <= i < |inputs| ==> HasButtonView(inputs[i]) && ButtonPressed(inputs[i], pressed)
    decreases inputs
  {
    if inputs != [] {
      AllPressedIffEvery(inputs[1..], pressed);
      assert forall i :: 1 <= i < |inputs| ==> inputs[i] == inputs[1..][i - 1];
    }
  }

  /** A member without a button view keeps the chord from being pressed,
      whatever the other members do. */
  lemma ChordIsStrict(c: Chord, i: nat, pressed: LeafInput -> bool)
    requires i < |c.inputs| && !HasButtonView(c.inputs[i])
    ensures !c.InputPressed(pressed)
  {
  }

  /** The empty chord is pressed in every world (`all` of nothing). */
  lemma EmptyChordIsPressed(pressed: LeafInput -> bool)
    ensures Chord([]).InputPressed(pressed)
  {
  }

  /** A chord has a button view and neither axis view, so a nested chord
      takes part in the conjunction through its own members. */
  lemma ChordViews(c: Chord, pressed: LeafInput -> bool)
    ensures HasButtonView(ChordInput(c))
    ensures !HasAxisView(ChordInput(c)) && !HasDualAxisView(ChordInput(c))
    ensures ButtonPressed(ChordInput(c), pressed) == c.InputPressed(pressed)
  {
  }

  /** Pressed through the button view is the same as: every raw leaf has a
      button view and is pressed. */
  lemma {:induction false} ButtonPressedIffLeaves(o: InputObject, pressed: LeafInput -> bool)
    ensures ButtonPressed(o, pressed) <==>
      forall x :: x in ObjectRawInputs(o) ==> x.Leaf? && x.leaf.buttonView && pressed(x.leaf)
    decreases o, 1
  {
    if o.ChordInput? {
      AllPressedIffLeaves(o.chord.inputs, pressed);
    }
  }

  lemma {:induction false} AllPressedIffLeaves(inputs: seq<InputObject>, pressed: LeafInput -> bool)
    ensures AllPressed(inputs, pressed) <==>
      forall x :: x in RawInputsOf(inputs) ==> x.Leaf? && x.leaf.buttonView && pressed(x.leaf)
    decreases inputs, 0
  {
    if inputs != [] {
      ButtonPressedIffLeaves(inputs[0], pressed);
      AllPressedIffLeaves(inputs[1..], pressed);
    }
  }

  /** A chord is pressed exactly when all of its raw leaves are pressed
      buttons; so flattening a nested chord does not change whether it is
      pressed. */
  lemma InputPressedIffLeaves(c: Chord, pressed: LeafInput -> bool)
    ensures c.InputPressed(pressed) <==>
      forall x :: x in c.RawInputs() ==> x.Leaf? && x.leaf.buttonView && pressed(x.leaf)
  {
    AllPressedIffLeaves(c.inputs, pressed);
  }

  /** Flattening a nested chord preserves the pressed state. */
  lemma FlattenPreservesPressed(pre: seq<InputObject>, nested: Chord, post: seq<InputObject>, pressed: LeafInput -> bool)
    ensures Chord(pre + [ChordInput(nested)] + post).InputPressed(pressed)
        == Chord(pre + nested.inputs + post).InputPressed(pressed)
  {
    FlattenNested(pre, nested, post);
    InputPressedIffLeaves(Chord(pre + [ChordInput(nested)] + post), pressed);
    InputPressedIffLeaves(Chord(pre + nested.inputs + post), pressed);
  }
}
