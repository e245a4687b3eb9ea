/** Ragged 1-D/2-D arrays with a missing-value sentinel, and `append_arrays`
    (pysra/output.py:45-73), which adds one vector as a new trailing column. */
module Arrays {

  /** One array element: a number, or the missing-value sentinel (NaN in numpy). */
  datatype Cell<T> = Missing | Val(x: T)

  /** An accumulated array: absent (Python `None`), 1-D, or 2-D. A 2-D array is
      stored as its list of columns, so `cols[j][i]` is the numpy cell `[i, j]`. */
  datatype NdArray<T> = NoArray | Vec(elems: seq<Cell<T>>) | Mat(cols: seq<seq<Cell<T>>>)

  function Max(a: int, b: int): int { if a < b then b else a }

  /** Every element of `xs` as a present cell. */
  function Vals<T>(xs: seq<T>): (r: seq<Cell<T>>)
    ensures |r| == |xs|
    ensures forall i :: 0 <= i < |xs| ==> r[i] == Val(xs[i])
  {
    seq(|xs|, i requires 0 <= i < |xs| => Val(xs[i]))
  }

  function Missings<T>(n: nat): (r: seq<Cell<T>>)
    ensures |r| == n
    ensures forall i :: 0 <= i < n ==> r[i] == Missing
  {
    seq(n, _ => Missing)
  }

  /** `col` is `orig` followed by nothing but missing cells. */
  ghost predicate PaddedFrom<T>(col: seq<Cell<T>>, orig: seq<Cell<T>>)
  {
    |orig| <= |col| && col[..|orig|] == orig &&
    forall i :: |orig| <= i < |col| ==> col[i] == Missing
  }

  /** Extends `s` to length `n` with the sentinel (`np.pad(..., constant_values=np.nan)`). */
  function Pad<T>(s: seq<Cell<T>>, n: nat): (r: seq<Cell<T>>)
    requires |s| <= n
    ensures |r| == n && PaddedFrom(r, s)
  {
    var r := s + Missings(n - |s|);
    assert r[..|s|] == s;
    r
  }

  /** A numpy array is rectangular: every column of a 2-D array has the same length. */
  predicate Wf<T>(a: NdArray<T>)
  {
    a.Mat? ==> |a.cols| >= 1 && forall j :: 0 <= j < |a.cols| ==> |a.cols[j]| == |a.cols[0]|
  }

  /** `shape[0]`: the number of rows (the length of a 1-D array). */
  function Rows<T>(a: NdArray<T>): nat
  {
    match a
    case NoArray => 0
    case Vec(e) => |e|
    case Mat(cols) => if |cols| == 0 then 0 else |cols[0]|
  }

  /** The number of columns, a 1-D array counting as one column. */
  function Width<T>(a: NdArray<T>): nat
  {
    match a
    case NoArray => 0
    case Vec(_) => 1
    case Mat(cols) => |cols|
  }

  /** The array as a list of columns. */
  function Columns<T>(a: NdArray<T>): (r: seq<seq<Cell<T>>>)
    requires Wf(a)
    ensures |r| == Width(a)
    ensures forall j :: 0 <= j < |r| ==> |r[j]| == Rows(a)
  {
    match a
    case NoArray => []
    case Vec(e) => [e]
    case Mat(cols) => cols
  }

  /** `append_arrays(many, single)` as its documentation (lines 56-60) describes it:
      the result is 2-D with one more column than `many` and max(rows, |single|)
      rows; every original cell is kept, every cell past an operand's original
      length is the sentinel. The source never calls it with `None`. */
  function AppendArrays<T>(many: NdArray<T>, single: seq<Cell<T>>): (r: NdArray<T>)
    requires Wf(many) && !many.NoArray?
    ensures r.Mat? && Wf(r)
    ensures Width(r) == Width(many) + 1
    ensures Rows(r) == Max(Rows(many), |single|)
    ensures forall j :: 0 <= j < Width(many) ==> PaddedFrom(r.cols[j], Columns(many)[j])
    ensures PaddedFrom(r.cols[Width(many)], single)
  {
    var n := Max(Rows(many), |single|);
    var old_cols := Columns(many);
    var padded := seq(|old_cols|, j requires 0 <= j < |old_cols| => Pad(old_cols[j], n));
    Mat(padded + [Pad(single, n)])
  }

  /** Line 69 as written: `np.pad(many, ((0, diff),), ...)` broadcasts the pad
      width to every axis, so a 2-D `many` that is shorter than `single` gains
      `diff` rows AND `diff` all-missing columns before `single` is appended. */
  function AppendArraysAsWritten<T>(many: NdArray<T>, single: seq<Cell<T>>): (r: NdArray<T>)
    requires Wf(many) && !many.NoArray?
    ensures r.Mat? && Wf(r)
    ensures Width(r) == Width(many) + 1 + (if many.Mat? && |single| > Rows(many) then |single| - Rows(many) else 0)
  {
    var diff := |single| - Rows(many);
    if many.Mat? && diff > 0 then
      var n := |single|;
      var padded := seq(|many.cols|, j requires 0 <= j < |many.cols| => Pad(many.cols[j], n));
      Mat(padded + seq(diff, _ => Missings(n)) + [single])
    else
      AppendArrays(many, single)
  }

  /** Where line 69 pads only a 1-D array, or pads nothing, the code meets its documentation. */
  lemma AsWrittenAgreesWithoutWidening<T>(many: NdArray<T>, single: seq<Cell<T>>)
    requires Wf(many) && !many.NoArray?
    requires many.Vec? || |single| <= Rows(many)
    ensures AppendArraysAsWritten(many, single) == AppendArrays(many, single)
  {
  }

  /** The discrepancy at line 69: a 1-row, 2-column matrix merged with a
      3-element vector gets 5 columns as written, not the documented 3. */
  lemma PadEveryAxisAddsColumns()
    ensures var many := Mat([[Val(1)], [Val(2)]]);
            var single := [Val(3), Val(4), Val(5)];
            Width(AppendArraysAsWritten(many, single)) == 5 &&
            Width(AppendArrays(many, single)) == 3
  {
  }
}
