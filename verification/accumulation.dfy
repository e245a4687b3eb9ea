/** The state one `Output` accumulates across analysis runs (pysra/output.py:76-137),
    as a value: run naming, `_add_values`, `_add_refs`, `reset` and the triples
    `iter_results` yields. The class in module Outputs is proved against these. */
module Accumulation {
  import opened Arrays
  import opened Naming
  import opened Numbers
  import opened Optional

  /** `_refs`, `_values` and `_names`. */
  datatype Acc = Acc(refs: NdArray<real>, values: NdArray<Complex>, names: seq<string>)

  /** `np.allclose(incoming, stored)` at line 125, left abstract: its tolerance and its
      broadcasting against a 2-D `stored` are numpy's, not this layer's. */
  type Close = (seq<Cell<real>>, NdArray<real>) -> bool

  /** One item of `iter_results`: (name, refs, values). */
  datatype Triple = Triple(name: string, refs: seq<Cell<real>>, values: seq<Cell<Complex>>)

  predicate WfAcc(a: Acc) { Wf(a.refs) && Wf(a.values) }

  // ---------------------------------------------------------------- naming

  /** The label of an unnamed run, read off the shape of `_values` (lines 85-92). */
  function DefaultName(values: NdArray<Complex>): (r: string)
    ensures r == "r" + NatToString(Width(values) + 1)
  {
    var i := match values
      case NoArray => 1
      case Vec(_) => 2
      case Mat(cols) => |cols| + 1;
    "r" + NatToString(i)
  }

  /** The label a run records: the given name verbatim, else the default. */
  function RunName(a: Acc, name: Option<string>): string
  {
    if name.Some? then name.value else DefaultName(a.values)
  }

  /** `Output.__call__`: append the run's label to `_names` (line 93). */
  function WithName(a: Acc, name: Option<string>): (r: Acc)
    ensures r.refs == a.refs && r.values == a.values
    ensures |r.names| == |a.names| + 1 && r.names[..|a.names|] == a.names
    ensures name.Some? ==> r.names[|a.names|] == name.value
    ensures name.None? ==> r.names[|a.names|] == DefaultName(a.values)
  {
    a.(names := a.names + [RunName(a, name)])
  }

  // ---------------------------------------------------------------- values

  /** Store a first vector, or merge one more column in (lines 134-137). */
  function Push<T>(a: NdArray<T>, v: seq<Cell<T>>): (r: NdArray<T>)
    requires Wf(a)
    ensures Wf(r) && !r.NoArray?
    ensures Width(r) == Width(a) + 1
    ensures Rows(r) == Max(Rows(a), |v|)
    ensures forall j :: 0 <= j < Width(a) ==> PaddedFrom(Columns(r)[j], Columns(a)[j])
    ensures PaddedFrom(Columns(r)[Width(a)], v)
  {
    if a.NoArray? then
      assert PaddedFrom(v, v) by { assert v[..|v|] == v; }
      Vec(v)
    else AppendArrays(a, v)
  }

  /** `_add_values` (lines 132-137). */
  function WithValues(a: Acc, v: seq<Cell<Complex>>): (r: Acc)
    requires Wf(a.values)
    ensures r.refs == a.refs && r.names == a.names && Wf(r.values)
    ensures a.values.NoArray? ==> r.values == Vec(v)
    ensures !a.values.NoArray? ==> r.values.Mat? && Width(r.values) == Width(a.values) + 1
    ensures Rows(r.values) == Max(Rows(a.values), |v|)
    ensures forall j :: 0 <= j < Width(a.values) ==> PaddedFrom(Columns(r.values)[j], Columns(a.values)[j])
    ensures PaddedFrom(Columns(r.values)[Width(a.values)], v)
  {
    a.(values := Push(a.values, v))
  }

  // ---------------------------------------------------------------- refs

  /** `_add_refs` exactly as lines 121-130 write it, `append_arrays` included. */
  function MergeRefsAsWritten(refs: NdArray<real>, incoming: seq<Cell<real>>, close: Close): (r: NdArray<real>)
    requires Wf(refs)
    ensures Wf(r)
    ensures refs.NoArray? ==> r == Vec(incoming)
    ensures !refs.NoArray? && |incoming| == Rows(refs) && close(incoming, refs) ==> r == refs
    ensures !refs.NoArray? && !(|incoming| == Rows(refs) && close(incoming, refs)) ==>
              r.Mat? && Width(r) > Width(refs)
  {
    if refs.NoArray? then Vec(incoming)
    else if |incoming| == Rows(refs) && close(incoming, refs) then refs
    else AppendArraysAsWritten(refs, incoming)
  }

  /** `n` runs sharing the vector `v`, one column each. */
  function Spread(v: seq<Cell<real>>, n: nat): (r: NdArray<real>)
    ensures Wf(r) && Width(r) == n
    ensures forall j :: 0 <= j < n ==> Columns(r)[j] == v
  {
    if n == 0 then NoArray else if n == 1 then Vec(v) else Mat(seq(n, _ => v))
  }

  /** `refs` describes `runs` runs: one vector shared by all of them, or one
      column per run, or nothing before the first run. */
  predicate RefsAligned(refs: NdArray<real>, runs: nat)
  {
    match refs
    case NoArray => runs == 0
    case Vec(_) => true
    case Mat(cols) => |cols| == runs
  }

  /** The refs of run `i`: the shared vector, or column `i` (line 116). */
  function RefsFor(refs: NdArray<real>, i: nat): Option<seq<Cell<real>>>
  {
    match refs
    case NoArray => None
    case Vec(v) => Some(v)
    case Mat(cols) => if i < |cols| then Some(cols[i]) else None
  }

  /** The values of run `i`: the whole 1-D array, or column `i` (lines 117-118). */
  function ValuesFor(values: NdArray<Complex>, i: nat): Option<seq<Cell<Complex>>>
  {
    match values
    case NoArray => None
    case Vec(v) => Some(v)
    case Mat(cols) => if i < |cols| then Some(cols[i]) else None
  }

  /** `_add_refs` with the run alignment `iter_results` relies on (see Findings in
      README): the stored vector is kept when the incoming refs are as long and close;
      when a run departs from refs shared by `prior` earlier runs, the shared vector
      is first spread to one column per earlier run, and the incoming refs appended. */
  function MergeRefs(refs: NdArray<real>, incoming: seq<Cell<real>>, prior: nat, close: Close): (r: NdArray<real>)
    requires Wf(refs)
    ensures Wf(r) && !r.NoArray?
    ensures refs.NoArray? ==> r == Vec(incoming)
    ensures refs.Vec? && |incoming| == |refs.elems| && close(incoming, refs) ==> r == refs
    ensures r.Mat? ==> Rows(r) == Max(Rows(refs), |incoming|)
    ensures RefsAligned(refs, prior) ==> RefsAligned(r, prior + 1)
    ensures RefsAligned(refs, prior) ==>
              forall i :: 0 <= i < prior ==>
                RefsFor(r, i).Some? && RefsFor(refs, i).Some? &&
                PaddedFrom(RefsFor(r, i).value, RefsFor(refs, i).value)
    ensures RefsAligned(refs, prior) ==>
              RefsFor(r, prior).Some? &&
              (PaddedFrom(RefsFor(r, prior).value, incoming) ||
               (r == refs && |incoming| == |r.elems| && close(incoming, refs)))
  {
    match refs
    case NoArray =>
      assert PaddedFrom(incoming, incoming) by { assert incoming[..|incoming|] == incoming; }
      Vec(incoming)
    case Vec(v) =>
      if |incoming| == |v| && close(incoming, refs) then
        assert PaddedFrom(v, v) by { assert v[..|v|] == v; }
        refs
      else
        var r := Push(Spread(v, prior), incoming);
        assert forall i :: 0 <= i < prior ==> RefsFor(r, i).value == Columns(r)[i];
        r
    case Mat(cols) =>
      AppendArrays(refs, incoming)
  }

  /** The number of runs before the current one, whose name is already recorded. */
  function Prior(a: Acc): nat
  {
    if |a.names| > 0 then |a.names| - 1 else 0
  }

  /** `_add_refs` on the whole state. */
  function WithRefs(a: Acc, incoming: seq<Cell<real>>, close: Close): (r: Acc)
    requires Wf(a.refs)
    ensures r.values == a.values && r.names == a.names && Wf(r.refs) && !r.refs.NoArray?
    ensures a.refs.NoArray? ==> r.refs == Vec(incoming)
    ensures a.refs.Vec? && |incoming| == |a.refs.elems| && close(incoming, a.refs) ==> r.refs == a.refs
    ensures r.refs.Mat? ==> Rows(r.refs) == Max(Rows(a.refs), |incoming|)
    ensures RefsAligned(a.refs, Prior(a)) ==> RefsAligned(r.refs, Prior(a) + 1)
    ensures RefsAligned(a.refs, Prior(a)) ==>
              forall i :: 0 <= i < Prior(a) ==>
                RefsFor(r.refs, i).Some? && RefsFor(a.refs, i).Some? &&
                PaddedFrom(RefsFor(r.refs, i).value, RefsFor(a.refs, i).value)
    ensures RefsAligned(a.refs, Prior(a)) ==>
              RefsFor(r.refs, Prior(a)).Some? &&
              (PaddedFrom(RefsFor(r.refs, Prior(a)).value, incoming) ||
               (r.refs == a.refs && |incoming| == |a.refs.elems| && close(incoming, a.refs)))
  {
    a.(refs := MergeRefs(a.refs, incoming, Prior(a), close))
  }

  // ---------------------------------------------------------------- reset

  /** `reset` (lines 107-111): values and names cleared, refs kept only for a
      constant-reference output. */
  function Cleared(a: Acc, constRef: bool): (r: Acc)
    ensures r.values.NoArray? && r.names == []
    ensures constRef ==> r.refs == a.refs
    ensures !constRef ==> r.refs.NoArray?
  {
    Acc(if constRef then a.refs else NoArray, NoArray, [])
  }

  // ---------------------------------------------------------------- results

  /** The `i`-th item `iter_results` yields, or `None` where it raises. */
  function ResultAt(a: Acc, i: nat): (r: Option<Triple>)
    ensures r.Some? ==> i < |a.names| && r.value.name == a.names[i]
    ensures a.refs.NoArray? || a.values.NoArray? || i >= |a.names| ==> r.None?
    ensures i < |a.names| && a.refs.Vec? && a.values.Vec? ==>
              r == Some(Triple(a.names[i], a.refs.elems, a.values.elems))
    ensures a.refs.Mat? && i >= |a.refs.cols| ==> r.None?
    ensures r.Some? && a.refs.Vec? ==> r.value.refs == a.refs.elems
    ensures r.Some? && a.refs.Mat? ==> i < |a.refs.cols| && r.value.refs == a.refs.cols[i]
    ensures r.Some? && a.values.Vec? ==> r.value.values == a.values.elems
    ensures r.Some? && a.values.Mat? ==> i < |a.values.cols| && r.value.values == a.values.cols[i]
  {
    if i < |a.names| && RefsFor(a.refs, i).Some? && ValuesFor(a.values, i).Some? then
      Some(Triple(a.names[i], RefsFor(a.refs, i).value, ValuesFor(a.values, i).value))
    else None
  }

  /** One name per accumulated column, and refs for every run. */
  predicate Aligned(a: Acc)
  {
    WfAcc(a) && |a.names| == Width(a.values) && RefsAligned(a.refs, |a.names|)
  }

  /** On an aligned state every recorded name yields a triple, whose values are
      that run's column (or the whole vector after a single run), and whose refs
      are the shared vector or that run's refs column (line 116). */
  lemma AlignedResultsComplete(a: Acc, i: nat)
    requires Aligned(a) && i < |a.names|
    ensures ResultAt(a, i).Some?
    ensures ResultAt(a, i).value.name == a.names[i]
    ensures ResultAt(a, i).value.values == Columns(a.values)[i]
    ensures ResultAt(a, i).value.refs == if a.refs.Vec? then a.refs.elems else a.refs.cols[i]
  {
  }

  /** On an aligned state the default label numbers the runs: `r` followed by
      one more than the number of runs already recorded. */
  lemma DefaultNameCountsRuns(a: Acc)
    requires Aligned(a)
    ensures DefaultName(a.values) == "r" + NatToString(|a.names| + 1)
  {
  }

  /** A reset output is aligned again (a constant-reference output holds one
      shared vector, never a matrix). */
  lemma ClearedIsAligned(a: Acc, constRef: bool)
    requires Wf(a.refs) && (constRef ==> !a.refs.Mat?)
    ensures Aligned(Cleared(a, constRef))
  {
  }

  // ---------------------------------------------------------------- runs

  /** `b` still holds every run `a` held, each with its own name, and its refs
      and values at most padded with the sentinel. */
  ghost predicate KeepsRuns(b: Acc, a: Acc)
  {
    forall i :: 0 <= i < |a.names| ==>
      ResultAt(a, i).Some? && ResultAt(b, i).Some? &&
      ResultAt(b, i).value.name == ResultAt(a, i).value.name &&
      PaddedFrom(ResultAt(b, i).value.refs, ResultAt(a, i).value.refs) &&
      PaddedFrom(ResultAt(b, i).value.values, ResultAt(a, i).value.values)
  }

  /** Item `i` of `b` is the run named `name` that produced `values` over `refs`
      (or over the shared vector its refs were close to). */
  ghost predicate HoldsRun(b: Acc, i: nat, name: string, values: seq<Cell<Complex>>,
                           refs: seq<Cell<real>>, close: Close)
  {
    ResultAt(b, i).Some? &&
    ResultAt(b, i).value.name == name &&
    PaddedFrom(ResultAt(b, i).value.values, values) &&
    (PaddedFrom(ResultAt(b, i).value.refs, refs) ||
     (b.refs.Vec? && |refs| == |b.refs.elems| && close(refs, b.refs)))
  }

  /** A run that records its name, then its values, then its refs (the
      time-series order, lines 197-206) keeps the state aligned, keeps every
      earlier run, and adds itself as the last item, under the default label
      `r<runs + 1>` when no name is given. */
  lemma ValuesThenRefs(a: Acc, name: Option<string>, v: seq<Cell<Complex>>,
                        refs: seq<Cell<real>>, close: Close)
    requires Aligned(a)
    ensures var a1 := WithName(a, name);
            var b := WithRefs(WithValues(a1, v), refs, close);
            Aligned(b) && KeepsRuns(b, a) &&
            b.names == a.names + [RunName(a, name)] &&
            HoldsRun(b, |a.names|, RunName(a, name), v, refs, close)
  {
    var a1 := WithName(a, name);
    var a2 := WithValues(a1, v);
    var b := WithRefs(a2, refs, close);
    RunRecorded(a, a1, a2, b, name, v, refs, close);
  }

  /** The same for a run that records its name, then its refs, then its values
      (the profile order, lines 395-407). */
  lemma RefsThenValues(a: Acc, name: Option<string>, v: seq<Cell<Complex>>,
                        refs: seq<Cell<real>>, close: Close)
    requires Aligned(a)
    ensures var a1 := WithName(a, name);
            var b := WithValues(WithRefs(a1, refs, close), v);
            Aligned(b) && KeepsRuns(b, a) &&
            b.names == a.names + [RunName(a, name)] &&
            HoldsRun(b, |a.names|, RunName(a, name), v, refs, close)
  {
    var a1 := WithName(a, name);
    var a2 := WithRefs(a1, refs, close);
    var b := WithValues(a2, v);
    assert b == WithRefs(WithValues(a1, v), refs, close);
    RunRecorded(a, a1, WithValues(a1, v), b, name, v, refs, close);
  }

  lemma RunRecorded(a: Acc, a1: Acc, a2: Acc, b: Acc, name: Option<string>,
                    v: seq<Cell<Complex>>, refs: seq<Cell<real>>, close: Close)
    requires Aligned(a)
    requires a1 == WithName(a, name)
    requires a2 == WithValues(a1, v)
    requires b == WithRefs(a2, refs, close)
    ensures Aligned(b) && KeepsRuns(b, a)
    ensures b.names == a.names + [RunName(a, name)]
    ensures HoldsRun(b, |a.names|, RunName(a, name), v, refs, close)
  {
    var n := |a.names|;
    assert Prior(a2) == n;
    var vals := Push(a.values, v);
    assert b.values == vals;
    assert b.refs == MergeRefs(a.refs, refs, n, close);
    forall i | 0 <= i < n
      ensures ResultAt(a, i).Some? && ResultAt(b, i).Some?
      ensures ResultAt(b, i).value.name == ResultAt(a, i).value.name
      ensures PaddedFrom(ResultAt(b, i).value.refs, ResultAt(a, i).value.refs)
      ensures PaddedFrom(ResultAt(b, i).value.values, ResultAt(a, i).value.values)
    {
      assert ValuesFor(a.values, i) == Some(Columns(a.values)[i]);
      assert ValuesFor(b.values, i) == Some(Columns(b.values)[i]);
      assert b.names[i] == a.names[i];
    }
    assert ValuesFor(b.values, n) == Some(Columns(b.values)[n]);
    assert b.names[n] == RunName(a, name);
  }

  /** The first three default labels. */
  lemma FirstDefaultNames()
    ensures "r" + NatToString(1) == "r1" && "r" + NatToString(2) == "r2" && "r" + NatToString(3) == "r3"
  {
    assert NatToString(1) == "1" && NatToString(2) == "2" && NatToString(3) == "3";
  }

  /** A time-series run as lines 197-206 write it: name, then values merged by
      line 69 as written, then refs merged by `MergeRefsAsWritten`. */
  function RunAsWritten(a: Acc, v: seq<Cell<Complex>>, refs: seq<Cell<real>>, close: Close): (r: Acc)
    requires WfAcc(a)
    ensures WfAcc(r)
    ensures r.names == a.names + [DefaultName(a.values)]
    ensures a.values.NoArray? ==> r.values == Vec(v)
    ensures !a.values.NoArray? ==> r.values.Mat? && Width(r.values) > Width(a.values)
    ensures a.refs.NoArray? ==> r.refs == Vec(refs)
    ensures !a.refs.NoArray? && |refs| == Rows(a.refs) && close(refs, a.refs) ==> r.refs == a.refs
  {
    var values := if a.values.NoArray? then Vec(v) else AppendArraysAsWritten(a.values, v);
    Acc(MergeRefsAsWritten(a.refs, refs, close), values, a.names + [DefaultName(a.values)])
  }

  /** A run that records its name and then only its values, over refs shared
      by every run (the constant-reference outputs, lines 307-312 and 377-387). */
  lemma NameThenValues(a: Acc, name: Option<string>, v: seq<Cell<Complex>>)
    requires Aligned(a) && a.refs.Vec?
    ensures var b := WithValues(WithName(a, name), v);
            Aligned(b) && KeepsRuns(b, a) &&
            b.names == a.names + [RunName(a, name)] &&
            ResultAt(b, |a.names|).Some? &&
            ResultAt(b, |a.names|).value.name == RunName(a, name) &&
            ResultAt(b, |a.names|).value.refs == a.refs.elems &&
            PaddedFrom(ResultAt(b, |a.names|).value.values, v)
  {
    var n := |a.names|;
    var b := WithValues(WithName(a, name), v);
    assert PaddedFrom(a.refs.elems, a.refs.elems) by { assert a.refs.elems[..|a.refs.elems|] == a.refs.elems; }
    forall i | 0 <= i < n
      ensures ResultAt(a, i).Some? && ResultAt(b, i).Some?
      ensures ResultAt(b, i).value.name == ResultAt(a, i).value.name
      ensures PaddedFrom(ResultAt(b, i).value.refs, ResultAt(a, i).value.refs)
      ensures PaddedFrom(ResultAt(b, i).value.values, ResultAt(a, i).value.values)
    {
      assert ValuesFor(a.values, i) == Some(Columns(a.values)[i]);
      assert ValuesFor(b.values, i) == Some(Columns(b.values)[i]);
      assert b.names[i] == a.names[i];
    }
    assert ValuesFor(b.values, n) == Some(Columns(b.values)[n]);
    assert b.names[n] == RunName(a, name);
  }

  /** Finding at lines 121-130: a run whose refs differ in length from refs
      shared by two earlier runs turns the shared vector into a 2-column matrix
      although three names are recorded, so `iter_results` pairs the second name
      with the third run's refs and raises on the third name. */
  lemma SharedThenDivergentRefsMisalign(t1: seq<Cell<real>>, t3: seq<Cell<real>>,
                                        v1: seq<Cell<Complex>>, v3: seq<Cell<Complex>>, close: Close)
    requires close(t1, Vec(t1)) && |t1| != |t3| && |v1| == |t1| && |v3| == |t3|
    ensures var w1 := RunAsWritten(Acc(NoArray, NoArray, []), v1, t1, close);
            var w2 := RunAsWritten(w1, v1, t1, close);
            var w3 := RunAsWritten(w2, v3, t3, close);
            w3.names == ["r1", "r2", "r3"] &&
            ResultAt(w3, 1).Some? && PaddedFrom(ResultAt(w3, 1).value.refs, t3) &&
            ResultAt(w3, 2).None?
  {
    FirstDefaultNames();
    var w1 := RunAsWritten(Acc(NoArray, NoArray, []), v1, t1, close);
    assert w1.refs == Vec(t1) && w1.values == Vec(v1);
    var w2 := RunAsWritten(w1, v1, t1, close);
    assert w2.refs == Vec(t1) && Width(w2.values) == 2;
    var w3 := RunAsWritten(w2, v3, t3, close);
    assert w3.refs == AppendArraysAsWritten(Vec(t1), t3) == AppendArrays(Vec(t1), t3);
    assert Width(w3.refs) == 2 && Width(w3.values) >= 3;
    assert DefaultName(w1.values) == "r2" && DefaultName(w2.values) == "r3";
    assert w1.names == ["r1"];
    assert w2.names == ["r1", "r2"];
    assert w3.names == ["r1", "r2", "r3"];
    assert ResultAt(w3, 1).Some?;
    assert PaddedFrom(ResultAt(w3, 1).value.refs, t3);
    assert ResultAt(w3, 2).None?;
  }

  /** The same three runs merged by `MergeRefs`: both earlier runs keep the
      first refs and the third run gets its own. */
  lemma SharedThenDivergentRefsAligned(t1: seq<Cell<real>>, t3: seq<Cell<real>>,
                                       v1: seq<Cell<Complex>>, v3: seq<Cell<Complex>>, close: Close)
    requires close(t1, Vec(t1)) && |t1| != |t3| && |v1| == |t1| && |v3| == |t3|
    ensures var b1 := WithRefs(WithValues(WithName(Acc(NoArray, NoArray, []), None), v1), t1, close);
            var b2 := WithRefs(WithValues(WithName(b1, None), v1), t1, close);
            var b3 := WithRefs(WithValues(WithName(b2, None), v3), t3, close);
            b3.names == ["r1", "r2", "r3"] &&
            ResultAt(b3, 0).Some? && PaddedFrom(ResultAt(b3, 0).value.refs, t1) &&
            ResultAt(b3, 1).Some? && PaddedFrom(ResultAt(b3, 1).value.refs, t1) &&
            ResultAt(b3, 2).Some? && PaddedFrom(ResultAt(b3, 2).value.refs, t3)
  {
    FirstDefaultNames();
    var n1 := WithName(Acc(NoArray, NoArray, []), None);
    var b1 := WithRefs(WithValues(n1, v1), t1, close);
    assert b1.refs == Vec(t1) && b1.values == Vec(v1) && b1.names == ["r1"];
    var u2 := WithValues(WithName(b1, None), v1);
    var b2 := WithRefs(u2, t1, close);
    assert b2.refs == Vec(t1) && Width(b2.values) == 2 && b2.names == ["r1", "r2"];
    var u3 := WithValues(WithName(b2, None), v3);
    assert u3.names == ["r1", "r2", "r3"] && Prior(u3) == 2 && Width(u3.values) == 3;
    var b3 := WithRefs(u3, t3, close);
    assert RefsAligned(u3.refs, Prior(u3));
    assert forall i :: 0 <= i < 3 ==> ValuesFor(b3.values, i).Some?;
  }
}
