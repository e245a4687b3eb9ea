/** The concrete outputs (pysra/output.py:183-429): what one invocation computes
    and records, in the order the source records it, as the function `Step`
    that the `Output` class is proved against. */
module Variants {
  import opened Arrays
  import opened Numbers
  import opened Optional
  import opened Naming
  import opened Accumulation
  import opened Collaborators

  /** The output classes with their configuration. */
  datatype Kind =
    | AccelerationTS(location: OutputLocation)
    | AriasIntensityTS(location: OutputLocation)
    | StrainTS(location: OutputLocation, inPercent: bool)
    | StressTS(location: OutputLocation, damped: bool, normalized: bool)
    | ResponseSpectrum(freqs: seq<real>, location: OutputLocation, oscDamping: real)
    | AccelTransferFunction(initialRefs: Option<seq<real>>, locationIn: OutputLocation, locationOut: OutputLocation)
    | ResponseSpectrumRatio(freqs: seq<real>, locationIn: OutputLocation, locationOut: OutputLocation, oscDamping: real)
    | MaxStrainProfile
    | CyclicStressRatioProfile

  /** Why an invocation stops: the motion is not a `TimeSeriesMotion` (line 196),
      the profile cannot resolve a location, the profile has no layer above the
      half-space for `values[0]` (line 428), or the two spectra differ in length
      (line 386). */
  datatype Error = NotTimeSeriesMotion | LocationNotFound | NoLayerAboveHalfspace | ShapeMismatch

  datatype Outcome = Ok | Failed(error: Error)

  predicate IsTimeSeries(k: Kind)
  {
    k.AccelerationTS? || k.AriasIntensityTS? || k.StrainTS? || k.StressTS?
  }

  /** `_const_ref = True` (lines 284, 354). */
  predicate ConstRef(k: Kind)
  {
    k.ResponseSpectrum? || k.ResponseSpectrumRatio?
  }

  /** The assertions of the strain and stress constructors (lines 236, 258). */
  predicate WellConfigured(k: Kind)
  {
    (k.StrainTS? || k.StressTS?) ==> k.location.waveField == Within
  }

  /** The refs a freshly constructed output holds (`Output.__init__(refs)`). */
  function InitialRefs(k: Kind): (r: NdArray<real>)
    ensures Wf(r) && !r.Mat?
    ensures ConstRef(k) ==> r.Vec?
    ensures k.ResponseSpectrum? || k.ResponseSpectrumRatio? ==> r == Vec(Vals(k.freqs))
    ensures IsTimeSeries(k) || k.MaxStrainProfile? || k.CyclicStressRatioProfile? ==> r.NoArray?
    ensures k.AccelTransferFunction? ==>
              r == if k.initialRefs.Some? then Vec(Vals(k.initialRefs.value)) else NoArray
  {
    match k
    case ResponseSpectrum(freqs, _, _) => Vec(Vals(freqs))
    case ResponseSpectrumRatio(freqs, _, _, _) => Vec(Vals(freqs))
    case AccelTransferFunction(initial, _, _) => if initial.Some? then Vec(Vals(initial.value)) else NoArray
    case _ => NoArray
  }

  /** Real numbers as value cells. */
  function Reals(xs: seq<real>): (r: seq<Cell<Complex>>)
    ensures |r| == |xs| && forall i :: 0 <= i < |xs| ==> r[i] == Val(Real(xs[i]))
  {
    RealCells(Vals(xs))
  }

  // ------------------------------------------------------------ time series

  /** `time_step * np.arange(n)` (line 205). */
  function TimeAxis(dt: real, n: nat): (r: seq<Cell<real>>)
    ensures |r| == n
    ensures forall i :: 0 <= i < n ==> r[i] == Val(dt * (i as real))
  {
    var r := seq(n, i requires 0 <= i < n => Val(dt * (i as real)));
    assert forall i :: 0 <= i < n ==> r[i].x == dt * (i as real);
    r
  }

  /** The trapezoid rule over all of `y`. */
  function Trapz(y: seq<real>, dx: real): real
  {
    if |y| <= 1 then 0.0 else Trapz(y[..|y| - 1], dx) + dx * (y[|y| - 2] + y[|y| - 1]) / 2.0
  }

  /** `scipy.integrate.cumtrapz(y, dx=dx)`: the integral up to every sample after
      the first, so one element fewer than `y`. */
  function CumTrapz(y: seq<real>, dx: real): (r: seq<real>)
    ensures |r| == if |y| == 0 then 0 else |y| - 1
    ensures forall i :: 0 <= i < |r| ==> r[i] == Trapz(y[..i + 2], dx)
  {
    seq(if |y| == 0 then 0 else |y| - 1, i requires 0 <= i < |y| - 1 => Trapz(y[..i + 2], dx))
  }

  /** The cumulative trapezoid rule step by step: the first element is the first
      trapezoid, and each next one adds the next trapezoid. */
  lemma CumTrapzSteps(y: seq<real>, dx: real)
    requires |y| >= 2
    ensures CumTrapz(y, dx)[0] == dx * (y[0] + y[1]) / 2.0
    ensures forall i :: 0 <= i < |y| - 2 ==>
              CumTrapz(y, dx)[i + 1] == CumTrapz(y, dx)[i] + dx * (y[i + 1] + y[i + 2]) / 2.0
  {
    assert y[..2][..1] == y[..1];
    assert Trapz(y[..1], dx) == 0.0;
    forall i | 0 <= i < |y| - 2
      ensures CumTrapz(y, dx)[i + 1] == CumTrapz(y, dx)[i] + dx * (y[i + 1] + y[i + 2]) / 2.0
    {
      assert y[..i + 3][..i + 2] == y[..i + 2];
    }
  }

  function Squares(xs: seq<real>): (r: seq<real>)
    ensures |r| == |xs| && forall i :: 0 <= i < |xs| ==> r[i] == xs[i] * xs[i]
  {
    seq(|xs|, i requires 0 <= i < |xs| => xs[i] * xs[i])
  }

  /** Lines 226-229: the cumulative integral of the squared series, scaled. */
  function AriasIntensity(xs: seq<real>, dt: real, scale: real): (r: seq<real>)
    ensures |r| == if |xs| == 0 then 0 else |xs| - 1
    ensures forall i :: 0 <= i < |r| ==> r[i] == scale * Trapz(Squares(xs)[..i + 2], dt)
  {
    var c := CumTrapz(Squares(xs), dt);
    seq(|c|, i requires 0 <= i < |c| => scale * c[i])
  }

  /** Lines 242-244: decimal strain as percent. */
  function Percent(xs: seq<real>): (r: seq<real>)
    ensures |r| == |xs| && forall i :: 0 <= i < |xs| ==> r[i] == 100.0 * xs[i]
  {
    seq(|xs|, i requires 0 <= i < |xs| => xs[i] * 100.0)
  }

  /** `_get_trans_func` of each time-series output (lines 218-219, 238-239, 273-280). */
  function TransferFunction(k: Kind, c: Calc, loc: Location): (r: seq<Cell<Complex>>)
    requires IsTimeSeries(k)
    ensures k.AccelerationTS? || k.AriasIntensityTS? ==> r == Vals(c.calcAccelTf(c.locInput, loc))
    ensures k.StrainTS? ==> r == Vals(c.calcStrainTf(c.locInput, loc))
    ensures k.StressTS? ==>
              var tf := c.calcStressTf(c.locInput, loc, k.damped);
              var d := c.effectiveStressVert(loc);
              |r| == |tf| &&
              forall i :: 0 <= i < |tf| ==>
                (r[i].Val? <==> !k.normalized || d != 0.0) &&
                (r[i].Val? && !k.normalized ==> r[i].x == tf[i]) &&
                (r[i].Val? && k.normalized ==> r[i].x.re * d == tf[i].re && r[i].x.im * d == tf[i].im)
  {
    match k
    case AccelerationTS(_) => Vals(c.calcAccelTf(c.locInput, loc))
    case AriasIntensityTS(_) => Vals(c.calcAccelTf(c.locInput, loc))
    case StrainTS(_, _) => Vals(c.calcStrainTf(c.locInput, loc))
    case StressTS(_, damped, normalized) =>
      var tf := Vals(c.calcStressTf(c.locInput, loc, damped));
      if normalized then DivideAll(tf, c.effectiveStressVert(loc)) else tf
  }

  /** `_modify_values` of each time-series output (lines 211-212, 225-229, 241-245). */
  function ModifiedValues(k: Kind, c: Calc, xs: seq<real>): (r: seq<real>)
    requires IsTimeSeries(k)
    ensures k.AriasIntensityTS? ==> |r| == (if |xs| == 0 then 0 else |xs| - 1)
    ensures k.StrainTS? && k.inPercent ==>
              |r| == |xs| && forall i :: 0 <= i < |xs| ==> r[i] == 100.0 * xs[i]
    ensures k.AccelerationTS? || k.StressTS? || (k.StrainTS? && !k.inPercent) ==> r == xs
  {
    match k
    case AriasIntensityTS(_) => AriasIntensity(xs, c.motion.timeStep, c.ariasScale)
    case StrainTS(_, inPercent) => if inPercent then Percent(xs) else xs
    case _ => xs
  }

  /** The series a time-series output records for a resolved location (lines 200-202). */
  function TimeSeriesValues(k: Kind, c: Calc, loc: Location): seq<real>
    requires IsTimeSeries(k)
  {
    ModifiedValues(k, c, c.motion.calcTimeSeries(TransferFunction(k, c, loc)))
  }

  /** Arias intensity is one sample shorter than the acceleration series of the
      same run, and integrates exactly that series. */
  lemma AriasOneSampleShorter(location: OutputLocation, c: Calc, loc: Location)
    ensures var accel := TimeSeriesValues(AccelerationTS(location), c, loc);
            var arias := TimeSeriesValues(AriasIntensityTS(location), c, loc);
            |arias| == (if |accel| == 0 then 0 else |accel| - 1) &&
            forall i :: 0 <= i < |arias| ==>
              arias[i] == c.ariasScale * Trapz(Squares(accel)[..i + 2], c.motion.timeStep)
  {
    assert TransferFunction(AccelerationTS(location), c, loc) == TransferFunction(AriasIntensityTS(location), c, loc);
  }

  /** A percent strain output records 100 times what the decimal one records. */
  lemma PercentStrainIsHundredfold(location: OutputLocation, c: Calc, loc: Location)
    ensures var dec := TimeSeriesValues(StrainTS(location, false), c, loc);
            var pct := TimeSeriesValues(StrainTS(location, true), c, loc);
            |pct| == |dec| && forall i :: 0 <= i < |dec| ==> pct[i] == 100.0 * dec[i]
  {
    assert TransferFunction(StrainTS(location, false), c, loc) == TransferFunction(StrainTS(location, true), c, loc);
  }

  // ------------------------------------------------------------ spectra

  /** Peak oscillator accelerations at the configured frequencies for the
      acceleration transfer function between two locations (lines 310-311, 380-385). */
  function SpectrumAt(c: Calc, freqs: seq<real>, damping: real, from: Location, to: Location): seq<real>
  {
    c.motion.calcOscAccels(freqs, damping, Vals(c.calcAccelTf(from, to)))
  }

  /** `out_ars / in_ars` (line 386), element by element; spectra of different
      lengths do not broadcast. */
  function SpectralRatio(outArs: seq<real>, inArs: seq<real>): (r: Option<seq<Cell<real>>>)
    ensures r.Some? <==> |outArs| == |inArs|
    ensures r.Some? ==> (|r.value| == |inArs| &&
              forall i :: 0 <= i < |inArs| ==>
                (r.value[i].Val? <==> inArs[i] != 0.0) &&
                (r.value[i].Val? ==> r.value[i].x * inArs[i] == outArs[i]))
  {
    if |outArs| != |inArs| then None
    else Some(seq(|inArs|, i requires 0 <= i < |inArs| => Divide(outArs[i], inArs[i])))
  }

  /** Equal nonzero responses at both locations give a ratio of one at every frequency. */
  lemma RatioOfEqualSpectraIsOne(ars: seq<real>)
    requires forall i :: 0 <= i < |ars| ==> ars[i] != 0.0
    ensures SpectralRatio(ars, ars).Some?
    ensures forall i :: 0 <= i < |ars| ==> SpectralRatio(ars, ars).value[i] == Val(1.0)
  {
  }

  // ------------------------------------------------------------ profiles

  /** `profile[:-1]`: every layer but the half-space. */
  function NonTerminal(layers: seq<Layer>): (r: seq<Layer>)
    ensures |r| == if |layers| == 0 then 0 else |layers| - 1
    ensures forall i :: 0 <= i < |r| ==> r[i] == layers[i]
  {
    if |layers| == 0 then [] else layers[..|layers| - 1]
  }

  /** `[0] + [l.depth_mid for l in profile[:-1]]` (line 396). */
  function ProfileDepths(layers: seq<Layer>): (r: seq<Cell<real>>)
    ensures |r| == Max(|layers|, 1) && r[0] == Val(0.0)
    ensures forall i :: 0 <= i < |layers| - 1 ==> r[i + 1] == Val(layers[i].depthMid)
  {
    var nt := NonTerminal(layers);
    [Val(0.0)] + seq(|nt|, i requires 0 <= i < |nt| => Val(nt[i].depthMid))
  }

  /** `[0] + [l.strain for l in profile[:-1]]` (line 406). */
  function MaxStrains(layers: seq<Layer>): (r: seq<Cell<real>>)
    ensures |r| == Max(|layers|, 1) && r[0] == Val(0.0)
    ensures forall i :: 0 <= i < |layers| - 1 ==> r[i + 1] == Val(layers[i].strain)
  {
    var nt := NonTerminal(layers);
    [Val(0.0)] + seq(|nt|, i requires 0 <= i < |nt| => Val(nt[i].strain))
  }

  /** `l.stress_shear_max / l.stress_vert(l.thickness / 2, True)` (line 424). */
  function StressRatio(l: Layer): Cell<real>
  {
    Divide(l.stressShearMax, l.stressVert(l.thickness / 2.0, true))
  }

  /** The reference stress level of the cyclic stress ratio (line 416). */
  const StressLevel: real := 0.65

  /** Lines 423-428: the stress ratio of every layer above the half-space, the
      first repeated for the surface, all scaled by 0.65; a profile without a
      layer above the half-space has no first ratio. */
  function CyclicStressRatios(layers: seq<Layer>): (r: Option<seq<Cell<real>>>)
    ensures r.Some? <==> |layers| >= 2
    ensures r.Some? ==>
              |r.value| == |layers| && r.value[0] == r.value[1] &&
              forall i :: 0 <= i < |layers| ==>
                var ratio := StressRatio(layers[Max(i - 1, 0)]);
                (r.value[i].Val? <==> ratio.Val?) &&
                (r.value[i].Val? ==> r.value[i].x == StressLevel * ratio.x)
  {
    var nt := NonTerminal(layers);
    if |nt| == 0 then None
    else
      var ratios := seq(|nt|, i requires 0 <= i < |nt| => StressRatio(nt[i]));
      Some(ScaleAll(StressLevel, [ratios[0]] + ratios))
  }

  // ------------------------------------------------------------ one run

  /** `TimeSeriesOutput.__call__` (lines 194-206): the motion kind is checked
      before anything is recorded; then the name, the values, and the time axis
      as long as the recorded values. */
  function TimeSeriesStep(k: Kind, a: Acc, c: Calc, name: Option<string>, close: Close): (r: (Outcome, Acc))
    requires IsTimeSeries(k) && WfAcc(a)
    ensures WfAcc(r.1)
    ensures !c.motion.isTimeSeries <==> r.0 == Failed(NotTimeSeriesMotion)
    ensures !c.motion.isTimeSeries ==> r.1 == a
    ensures c.motion.isTimeSeries ==> r.1.names == a.names + [RunName(a, name)]
    ensures r.0.Failed? ==> r.1.values == a.values && r.1.refs == a.refs
    ensures r.0.Ok? ==> Rows(r.1.values) >= Rows(a.values)
  {
    if !c.motion.isTimeSeries then (Failed(NotTimeSeriesMotion), a)
    else
      var a1 := WithName(a, name);
      var loc := Resolve(k.location, c.profile);
      if loc.None? then (Failed(LocationNotFound), a1)
      else
        var v := TimeSeriesValues(k, c, loc.value);
        (Ok, WithRefs(WithValues(a1, Reals(v)), TimeAxis(c.motion.timeStep, |v|), close))
  }

  /** One invocation `output(calc, name)` of an output of kind `k` on state `a`:
      its outcome and the state it leaves, partial records of a failed run included. */
  function Step(k: Kind, a: Acc, c: Calc, name: Option<string>, close: Close): (r: (Outcome, Acc))
    requires WfAcc(a)
    ensures WfAcc(r.1)
  {
    match k
    case AccelerationTS(_) => TimeSeriesStep(k, a, c, name, close)
    case AriasIntensityTS(_) => TimeSeriesStep(k, a, c, name, close)
    case StrainTS(_, _) => TimeSeriesStep(k, a, c, name, close)
    case StressTS(_, _, _) => TimeSeriesStep(k, a, c, name, close)
    case ResponseSpectrum(freqs, location, damping) =>
      // lines 307-312
      var a1 := WithName(a, name);
      var loc := Resolve(location, c.profile);
      if loc.None? then (Failed(LocationNotFound), a1)
      else (Ok, WithValues(a1, Reals(SpectrumAt(c, freqs, damping, c.locInput, loc.value))))
    case AccelTransferFunction(_, locationIn, locationOut) =>
      // lines 339-346
      var a1 := WithName(a, name);
      var locIn := Resolve(locationIn, c.profile);
      var locOut := Resolve(locationOut, c.profile);
      if locIn.None? || locOut.None? then (Failed(LocationNotFound), a1)
      else
        var a2 := WithValues(a1, Vals(c.calcAccelTf(locIn.value, locOut.value)));
        (Ok, WithRefs(a2, Vals(c.motion.freqs), close))
    case ResponseSpectrumRatio(freqs, locationIn, locationOut, damping) =>
      // lines 377-387
      var a1 := WithName(a, name);
      var locIn := Resolve(locationIn, c.profile);
      var locOut := Resolve(locationOut, c.profile);
      if locIn.None? || locOut.None? then (Failed(LocationNotFound), a1)
      else
        var inArs := SpectrumAt(c, freqs, damping, c.locInput, locIn.value);
        var outArs := SpectrumAt(c, freqs, damping, c.locInput, locOut.value);
        var ratio := SpectralRatio(outArs, inArs);
        if ratio.None? then (Failed(ShapeMismatch), a1)
        else (Ok, WithValues(a1, RealCells(ratio.value)))
    case MaxStrainProfile =>
      // lines 394-397 and 404-407
      var a2 := WithRefs(WithName(a, name), ProfileDepths(c.profile.layers), close);
      (Ok, WithValues(a2, RealCells(MaxStrains(c.profile.layers))))
    case CyclicStressRatioProfile =>
      // lines 394-397 and 421-429
      var a2 := WithRefs(WithName(a, name), ProfileDepths(c.profile.layers), close);
      var csr := CyclicStressRatios(c.profile.layers);
      if csr.None? then (Failed(NoLayerAboveHalfspace), a2)
      else (Ok, WithValues(a2, RealCells(csr.value)))
  }

  /** A time-series output invoked on a motion that is not a time series fails
      before recording a name, values or refs. */
  lemma NonTimeSeriesMotionRecordsNothing(k: Kind, a: Acc, c: Calc, name: Option<string>, close: Close)
    requires IsTimeSeries(k) && WfAcc(a) && !c.motion.isTimeSeries
    ensures Step(k, a, c, name, close) == (Failed(NotTimeSeriesMotion), a)
  {
  }

  /** What every run records whatever its outcome: only a time-series output
      on a motion that is not a time series fails before naming the run, any
      other run appends exactly one name; a failed run never adds values; and
      the cyclic-stress-ratio profile is the one output that fails for lack of
      a layer above the half-space. */
  lemma StepEffects(k: Kind, a: Acc, c: Calc, name: Option<string>, close: Close)
    requires WfAcc(a)
    ensures var r := Step(k, a, c, name, close);
            (r.0 == Failed(NotTimeSeriesMotion) <==> IsTimeSeries(k) && !c.motion.isTimeSeries) &&
            (r.0 == Failed(NotTimeSeriesMotion) ==> r.1 == a) &&
            (r.0 != Failed(NotTimeSeriesMotion) ==> r.1.names == a.names + [RunName(a, name)]) &&
            (r.0.Failed? ==> r.1.values == a.values) &&
            (r.0 == Failed(NoLayerAboveHalfspace) <==> k.CyclicStressRatioProfile? && |c.profile.layers| < 2)
  {
  }

  /** Only profile outputs and the transfer-function output touch the refs; a
      constant-reference output keeps its frequencies through every run. */
  lemma ConstRefStepKeepsRefs(k: Kind, a: Acc, c: Calc, name: Option<string>, close: Close)
    requires ConstRef(k) && WfAcc(a)
    ensures Step(k, a, c, name, close).1.refs == a.refs
  {
  }

  /** On an aligned state a successful run of any output keeps every earlier run,
      adds one item under its name (the default `r<runs + 1>` when none is
      given), and leaves the state aligned. */
  lemma StepRecordsRun(k: Kind, a: Acc, c: Calc, name: Option<string>, close: Close)
    requires Aligned(a) && (ConstRef(k) ==> a.refs.Vec?)
    requires Step(k, a, c, name, close).0 == Ok
    ensures var b := Step(k, a, c, name, close).1;
            Aligned(b) && KeepsRuns(b, a) &&
            b.names == a.names + [RunName(a, name)] &&
            ResultAt(b, |a.names|).Some? &&
            ResultAt(b, |a.names|).value.name == RunName(a, name)
  {
    var a1 := WithName(a, name);
    match k
    case AccelerationTS(_) => TimeSeriesRunRecorded(k, a, c, name, close);
    case AriasIntensityTS(_) => TimeSeriesRunRecorded(k, a, c, name, close);
    case StrainTS(_, _) => TimeSeriesRunRecorded(k, a, c, name, close);
    case StressTS(_, _, _) => TimeSeriesRunRecorded(k, a, c, name, close);
    case ResponseSpectrum(freqs, location, damping) =>
      var loc := Resolve(location, c.profile);
      NameThenValues(a, name, Reals(SpectrumAt(c, freqs, damping, c.locInput, loc.value)));
    case AccelTransferFunction(_, locationIn, locationOut) =>
      var locIn := Resolve(locationIn, c.profile);
      var locOut := Resolve(locationOut, c.profile);
      ValuesThenRefs(a, name, Vals(c.calcAccelTf(locIn.value, locOut.value)), Vals(c.motion.freqs), close);
    case ResponseSpectrumRatio(freqs, locationIn, locationOut, damping) =>
      var locIn := Resolve(locationIn, c.profile);
      var locOut := Resolve(locationOut, c.profile);
      var inArs := SpectrumAt(c, freqs, damping, c.locInput, locIn.value);
      var outArs := SpectrumAt(c, freqs, damping, c.locInput, locOut.value);
      NameThenValues(a, name, RealCells(SpectralRatio(outArs, inArs).value));
    case MaxStrainProfile =>
      ProfileRunRecorded(k, a, c, name, close);
    case CyclicStressRatioProfile =>
      ProfileRunRecorded(k, a, c, name, close);
  }

  /** A successful time-series run adds the item (name, time axis, series), the
      time axis as long as the recorded series with entry i equal to
      `time_step * i` (or the shared time axis it was close to). */
  lemma TimeSeriesRunRecorded(k: Kind, a: Acc, c: Calc, name: Option<string>, close: Close)
    requires IsTimeSeries(k) && Aligned(a)
    requires Step(k, a, c, name, close).0 == Ok
    ensures c.motion.isTimeSeries && Resolve(k.location, c.profile).Some?
    ensures var b := Step(k, a, c, name, close).1;
            var v := TimeSeriesValues(k, c, Resolve(k.location, c.profile).value);
            Aligned(b) && KeepsRuns(b, a) &&
            b.names == a.names + [RunName(a, name)] &&
            HoldsRun(b, |a.names|, RunName(a, name), Reals(v), TimeAxis(c.motion.timeStep, |v|), close)
  {
    var loc := Resolve(k.location, c.profile);
    var v := TimeSeriesValues(k, c, loc.value);
    ValuesThenRefs(a, name, Reals(v), TimeAxis(c.motion.timeStep, |v|), close);
  }

  /** A profile run adds the item (name, depths, profile values); the cyclic
      stress ratio needs a layer above the half-space to succeed. */
  lemma ProfileRunRecorded(k: Kind, a: Acc, c: Calc, name: Option<string>, close: Close)
    requires (k.MaxStrainProfile? || k.CyclicStressRatioProfile?) && Aligned(a)
    requires Step(k, a, c, name, close).0 == Ok
    ensures k.CyclicStressRatioProfile? ==> |c.profile.layers| >= 2
    ensures var b := Step(k, a, c, name, close).1;
            var v := if k.MaxStrainProfile? then MaxStrains(c.profile.layers)
                     else CyclicStressRatios(c.profile.layers).value;
            Aligned(b) && KeepsRuns(b, a) &&
            b.names == a.names + [RunName(a, name)] &&
            HoldsRun(b, |a.names|, RunName(a, name), RealCells(v), ProfileDepths(c.profile.layers), close)
  {
    var v := if k.MaxStrainProfile? then MaxStrains(c.profile.layers)
             else CyclicStressRatios(c.profile.layers).value;
    RefsThenValues(a, name, RealCells(v), ProfileDepths(c.profile.layers), close);
  }

  /** A cyclic-stress-ratio run on a profile without a layer above the half-space
      fails after recording its name and its depths, but no values. */
  lemma CyclicStressRatioPartialRecord(a: Acc, c: Calc, name: Option<string>, close: Close)
    requires WfAcc(a) && |c.profile.layers| < 2
    ensures var (res, b) := Step(CyclicStressRatioProfile, a, c, name, close);
            res == Failed(NoLayerAboveHalfspace) &&
            b.values == a.values &&
            b.names == a.names + [RunName(a, name)] &&
            b.refs == MergeRefs(a.refs, ProfileDepths(c.profile.layers), Prior(WithName(a, name)), close)
  {
  }

  /** The `m`-th unnamed successful run on an aligned state is labelled `r<m>`,
      and leaves the state aligned with its constant refs still a shared vector. */
  lemma UnnamedRunNumbered(k: Kind, a: Acc, c: Calc, close: Close, b: Acc, m: nat)
    requires Aligned(a) && (ConstRef(k) ==> a.refs.Vec?) && m == |a.names| + 1
    requires Step(k, a, c, None, close) == (Ok, b)
    ensures Aligned(b) && (ConstRef(k) ==> b.refs.Vec?)
    ensures b.names == a.names + ["r" + NatToString(m)]
  {
    StepRecordsRun(k, a, c, None, close);
    DefaultNameCountsRuns(a);
    if ConstRef(k) { ConstRefStepKeepsRefs(k, a, c, None, close); }
  }

  /** Three unnamed runs of a fresh output are named r1, r2, r3. */
  lemma ThreeUnnamedRuns(k: Kind, c1: Calc, c2: Calc, c3: Calc, close: Close, a1: Acc, a2: Acc, a3: Acc)
    requires Step(k, Acc(InitialRefs(k), NoArray, []), c1, None, close) == (Ok, a1)
    requires Step(k, a1, c2, None, close) == (Ok, a2)
    requires Step(k, a2, c3, None, close) == (Ok, a3)
    ensures a3.names == ["r1", "r2", "r3"]
  {
    UnnamedRunNumbered(k, Acc(InitialRefs(k), NoArray, []), c1, close, a1, 1);
    UnnamedRunNumbered(k, a1, c2, close, a2, 2);
    UnnamedRunNumbered(k, a2, c3, close, a3, 3);
    FirstThreeLabels(a1.names, a2.names, a3.names);
  }

  lemma FirstThreeLabels(n1: seq<string>, n2: seq<string>, n3: seq<string>)
    requires n1 == [] + ["r" + NatToString(1)]
    requires n2 == n1 + ["r" + NatToString(2)]
    requires n3 == n2 + ["r" + NatToString(3)]
    ensures n3 == ["r1", "r2", "r3"]
  {
    FirstDefaultNames();
  }
}
