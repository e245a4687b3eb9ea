/** The output objects themselves (pysra/output.py:31-137 and their subclasses):
    each `Output` updates its refs, values and names in place on every call,
    and an `OutputCollection` calls its outputs in order. Every state change is
    proved equal to the functions of modules Accumulation and Variants. */
module Outputs {
  import opened Arrays
  import opened Numbers
  import opened Optional
  import Naming
  import opened Accumulation
  import opened Collaborators
  import opened Variants

  class Output {
    /** The subclass and its configuration, fixed at construction. */
    const kind: Kind
    /** `_refs`, `_values` and `_names`. */
    var refs: NdArray<real>
    var values: NdArray<Complex>
    var names: seq<string>

    function State(): Acc
      reads this
    {
      Acc(refs, values, names)
    }

    /** Arrays are rectangular, the subclass's assertions hold, and a
        constant-reference output still holds the frequencies it was built with. */
    ghost predicate Valid()
      reads this
    {
      WellConfigured(kind) && WfAcc(State()) &&
      (ConstRef(kind) ==> refs == InitialRefs(kind))
    }

    /** `__init__`: the refs of the subclass (or none), no values, no names. */
    constructor (k: Kind)
      requires WellConfigured(k)
      ensures kind == k && State() == Acc(InitialRefs(k), NoArray, [])
      ensures Valid()
    {
      kind := k;
      refs := InitialRefs(k);
      values := NoArray;
      names := [];
    }

    /** `Output.__call__` (lines 84-93): record the run's label. */
    method NameRun(name: Option<string>)
      requires Valid()
      modifies this
      ensures Valid()
      ensures State() == WithName(old(State()), name)
    {
      var runName: string;
      if name.Some? {
        runName := name.value;
      } else {
        var i: nat;
        match values {
          case NoArray => i := 1;
          case Vec(_) => i := 2;
          case Mat(cols) => i := |cols| + 1;
        }
        runName := "r" + Naming.NatToString(i);
      }
      names := names + [runName];
    }

    /** `_add_values` (lines 132-137). */
    method AddValues(v: seq<Cell<Complex>>)
      requires Valid()
      modifies this
      ensures Valid()
      ensures State() == WithValues(old(State()), v)
    {
      if values.NoArray? {
        values := Vec(v);
      } else {
        values := AppendArrays(values, v);
      }
    }

    /** `_add_refs` (lines 121-130), with the alignment-preserving merge. */
    method AddRefs(incoming: seq<Cell<real>>, close: Close)
      requires Valid() && !ConstRef(kind)
      modifies this
      ensures Valid()
      ensures State() == WithRefs(old(State()), incoming, close)
    {
      refs := MergeRefs(refs, incoming, Prior(State()), close);
    }

    /** `reset` (lines 107-111). */
    method Reset()
      requires Valid()
      modifies this
      ensures Valid() && Aligned(State())
      ensures State() == Cleared(old(State()), ConstRef(kind))
    {
      values := NoArray;
      names := [];
      if !ConstRef(kind) {
        refs := NoArray;
      }
      ClearedIsAligned(old(State()), ConstRef(kind));
    }

    /** `output(calc, name)`: one run of the subclass's `__call__`, with the
        outcome and the state `Step` gives, partial records of a failed run included. */
    method Invoke(c: Calc, name: Option<string>, close: Close) returns (res: Outcome)
      requires Valid()
      modifies this
      ensures Valid()
      ensures (res, State()) == Step(kind, old(State()), c, name, close)
    {
      if IsTimeSeries(kind) {
        // lines 194-206
        if !c.motion.isTimeSeries {
          return Failed(NotTimeSeriesMotion);
        }
        NameRun(name);
        var loc := Resolve(kind.location, c.profile);
        if loc.None? {
          return Failed(LocationNotFound);
        }
        var v := TimeSeriesValues(kind, c, loc.value);
        AddValues(Reals(v));
        AddRefs(TimeAxis(c.motion.timeStep, |v|), close);
        return Ok;
      }
      match kind
      case ResponseSpectrum(freqs, location, damping) =>
        NameRun(name);
        var loc := Resolve(location, c.profile);
        if loc.None? {
          return Failed(LocationNotFound);
        }
        AddValues(Reals(SpectrumAt(c, freqs, damping, c.locInput, loc.value)));
        return Ok;
      case AccelTransferFunction(_, locationIn, locationOut) =>
        NameRun(name);
        var locIn := Resolve(locationIn, c.profile);
        var locOut := Resolve(locationOut, c.profile);
        if locIn.None? || locOut.None? {
          return Failed(LocationNotFound);
        }
        AddValues(Vals(c.calcAccelTf(locIn.value, locOut.value)));
        AddRefs(Vals(c.motion.freqs), close);
        return Ok;
      case ResponseSpectrumRatio(freqs, locationIn, locationOut, damping) =>
        NameRun(name);
        var locIn := Resolve(locationIn, c.profile);
        var locOut := Resolve(locationOut, c.profile);
        if locIn.None? || locOut.None? {
          return Failed(LocationNotFound);
        }
        var inArs := SpectrumAt(c, freqs, damping, c.locInput, locIn.value);
        var outArs := SpectrumAt(c, freqs, damping, c.locInput, locOut.value);
        var ratio := SpectralRatio(outArs, inArs);
        if ratio.None? {
          return Failed(ShapeMismatch);
        }
        AddValues(RealCells(ratio.value));
        return Ok;
      case MaxStrainProfile =>
        NameRun(name);
        AddRefs(ProfileDepths(c.profile.layers), close);
        AddValues(RealCells(MaxStrains(c.profile.layers)));
        return Ok;
      case CyclicStressRatioProfile =>
        NameRun(name);
        AddRefs(ProfileDepths(c.profile.layers), close);
        var csr := CyclicStressRatios(c.profile.layers);
        if csr.None? {
          return Failed(NoLayerAboveHalfspace);
        }
        AddValues(RealCells(csr.value));
        return Ok;
    }

    /** `list(iter_results())` (lines 113-119): the (name, refs, values) items in
        order, and whether the generator raised before the last name. It raises
        at once when no refs are held, and at the first name whose run has no
        column in the refs or the values. */
    method IterResults() returns (items: seq<Triple>, failed: bool)
      ensures |items| <= |names|
      ensures forall i :: 0 <= i < |items| ==> ResultAt(State(), i) == Some(items[i])
      ensures failed <==> refs.NoArray? || |items| < |names|
      ensures failed && !refs.NoArray? ==> ResultAt(State(), |items|).None?
      ensures Aligned(State()) && |names| > 0 ==> !failed && |items| == |names|
    {
      if refs.NoArray? {
        return [], true;
      }
      var shared := refs.Vec?;
      items := [];
      var i := 0;
      while i < |names|
        invariant 0 <= i <= |names| && |items| == i
        invariant forall j :: 0 <= j < i ==> ResultAt(State(), j) == Some(items[j])
        decreases |names| - i
      {
        if Aligned(State()) {
          AlignedResultsComplete(State(), i);
        }
        var r: seq<Cell<real>>;
        if shared {
          r := refs.elems;
        } else if i < |refs.cols| {
          r := refs.cols[i];
        } else {
          return items, true;
        }
        var v: seq<Cell<Complex>>;
        match values {
          case NoArray =>
            return items, true;
          case Vec(e) =>
            v := e;
          case Mat(cols) =>
            if i >= |cols| {
              return items, true;
            }
            v := cols[i];
        }
        items := items + [Triple(names[i], r, v)];
        i := i + 1;
      }
      return items, false;
    }
  }

  /** A list of outputs that are run, and reset, together (lines 31-42). */
  class OutputCollection {
    const outputs: seq<Output>

    /** Every member is a different object, and valid. */
    ghost predicate Valid()
      reads this, outputs
    {
      (forall i, j :: 0 <= i < j < |outputs| ==> outputs[i] != outputs[j]) &&
      forall i :: 0 <= i < |outputs| ==> outputs[i].Valid()
    }

    constructor (os: seq<Output>)
      requires forall i, j :: 0 <= i < j < |os| ==> os[i] != os[j]
      requires forall i :: 0 <= i < |os| ==> os[i].Valid()
      ensures outputs == os && Valid()
    {
      outputs := os;
    }

    /** `collection(calc, name)` (lines 35-38): the members run in order and the
        first failure propagates. The first `done` members record the run in
        full, a failing member keeps what it recorded before failing, and the
        members after it are untouched. */
    method Invoke(c: Calc, name: Option<string>, close: Close) returns (res: Outcome, ghost done: nat)
      requires Valid()
      modifies outputs
      ensures Valid()
      ensures done <= |outputs| && (res.Ok? <==> done == |outputs|)
      ensures forall j :: 0 <= j < done ==>
                (Ok, outputs[j].State()) == Step(outputs[j].kind, old(outputs[j].State()), c, name, close)
      ensures done < |outputs| ==>
                (res, outputs[done].State()) == Step(outputs[done].kind, old(outputs[done].State()), c, name, close)
      ensures forall j :: done < j < |outputs| ==> outputs[j].State() == old(outputs[j].State())
    {
      var i := 0;
      while i < |outputs|
        invariant 0 <= i <= |outputs|
        invariant Valid()
        invariant forall j :: 0 <= j < i ==>
                    (Ok, outputs[j].State()) == Step(outputs[j].kind, old(outputs[j].State()), c, name, close)
        invariant forall j :: i <= j < |outputs| ==> outputs[j].State() == old(outputs[j].State())
      {
        var o := outputs[i];
        var r := o.Invoke(c, name, close);
        assert forall j :: 0 <= j < |outputs| && j != i ==> outputs[j] != o;
        if r.Failed? {
          return r, i;
        }
        i := i + 1;
      }
      return Ok, i;
    }

    /** `collection.reset()` (lines 40-42): every member is reset. */
    method Reset()
      requires Valid()
      modifies outputs
      ensures Valid()
      ensures forall j :: 0 <= j < |outputs| ==>
                outputs[j].State() == Cleared(old(outputs[j].State()), ConstRef(outputs[j].kind)) &&
                Aligned(outputs[j].State())
    {
      var i := 0;
      while i < |outputs|
        invariant 0 <= i <= |outputs|
        invariant Valid()
        invariant forall j :: 0 <= j < i ==>
                    outputs[j].State() == Cleared(old(outputs[j].State()), ConstRef(outputs[j].kind)) &&
                    Aligned(outputs[j].State())
        invariant forall j :: i <= j < |outputs| ==> outputs[j].State() == old(outputs[j].State())
      {
        outputs[i].Reset();
        i := i + 1;
      }
    }
  }
}
