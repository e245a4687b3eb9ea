/** The numbers stored in value arrays. numpy upcasts a merge of real and complex
    arrays to complex, and `AccelTransferFunctionOutput` stores a complex transfer
    function, so a value cell holds a complex number; real outputs store a zero
    imaginary part. */
module Numbers {
  import opened Arrays

  datatype Complex = Complex(re: real, im: real)

  /** A real number as a complex one. */
  function Real(x: real): (c: Complex)
    ensures c.re == x && c.im == 0.0
  {
    Complex(x, 0.0)
  }

  /** Real cells as complex value cells; the sentinel stays the sentinel. */
  function RealCells(xs: seq<Cell<real>>): (r: seq<Cell<Complex>>)
    ensures |r| == |xs|
    ensures forall i :: 0 <= i < |xs| ==> (xs[i].Missing? <==> r[i].Missing?)
    ensures forall i :: 0 <= i < |xs| ==> xs[i].Val? ==> r[i] == Val(Real(xs[i].x))
  {
    seq(|xs|, i requires 0 <= i < |xs| => if xs[i].Missing? then Missing else Val(Real(xs[i].x)))
  }

  /** IEEE division of a real by a real: a zero divisor gives inf or NaN, which
      the model represents by the sentinel. */
  function Divide(x: real, d: real): (r: Cell<real>)
    ensures r.Val? <==> d != 0.0
    ensures r.Val? ==> r.x * d == x
  {
    if d == 0.0 then Missing else Val(x / d)
  }

  /** `tf / d` for a complex transfer function and a real divisor, cell by cell. */
  function DivideAll(tf: seq<Cell<Complex>>, d: real): (r: seq<Cell<Complex>>)
    ensures |r| == |tf|
    ensures forall i :: 0 <= i < |tf| ==> (r[i].Val? <==> tf[i].Val? && d != 0.0)
    ensures forall i :: 0 <= i < |tf| ==> r[i].Val? ==>
              r[i].x.re * d == tf[i].x.re && r[i].x.im * d == tf[i].x.im
  {
    seq(|tf|, i requires 0 <= i < |tf| =>
      if tf[i].Missing? || d == 0.0 then Missing else Val(Complex(tf[i].x.re / d, tf[i].x.im / d)))
  }

  /** `k * xs` for a real factor, cell by cell (NaN times k stays NaN). */
  function ScaleAll(k: real, xs: seq<Cell<real>>): (r: seq<Cell<real>>)
    ensures |r| == |xs|
    ensures forall i :: 0 <= i < |xs| ==> (r[i].Val? <==> xs[i].Val?)
    ensures forall i :: 0 <= i < |xs| ==> xs[i].Val? ==> r[i].x == k * xs[i].x
  {
    seq(|xs|, i requires 0 <= i < |xs| => if xs[i].Missing? then Missing else Val(k * xs[i].x))
  }
}
