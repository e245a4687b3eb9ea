/** What an output receives on each run: the calculator's state (its profile,
    motion and transfer functions) and the symbolic output locations
    (pysra/output.py:140-163). The solver, motion and profile are not part of
    this model; their operations are function-valued fields, so every fact
    proved here holds whatever they compute. */
module Collaborators {
  import opened Arrays
  import opened Numbers
  import opened Optional

  /** `pysra.motion.WaveField`. */
  datatype WaveField = Outcrop | Within | IncomingOnly

  /** The enumeration's member names. */
  function WaveFieldName(w: WaveField): string
  {
    match w
    case Outcrop => "outcrop"
    case Within => "within"
    case IncomingOnly => "incoming_only"
  }

  /** `WaveField[name]`: the member with that name, or `None` (a `KeyError`). */
  function WaveFieldNamed(s: string): (r: Option<WaveField>)
    ensures r.Some? ==> WaveFieldName(r.value) == s
    ensures forall w :: WaveFieldName(w) == s ==> r == Some(w)
  {
    if s == "outcrop" then Some(Outcrop)
    else if s == "within" then Some(Within)
    else if s == "incoming_only" then Some(IncomingOnly)
    else None
  }

  /** The `wave_field` argument of `OutputLocation`: a member, or its name. */
  datatype WaveFieldArg = Member(w: WaveField) | Named(s: string)

  /** A symbolic output position: wave field, and a depth or a layer index. */
  datatype OutputLocation = OutputLocation(waveField: WaveField, depth: Option<real>, index: Option<int>)

  /** `OutputLocation.__init__` (lines 141-146): a name is normalised to its
      member once, at construction; an unknown name fails. */
  function MakeOutputLocation(arg: WaveFieldArg, depth: Option<real>, index: Option<int>): (r: Option<OutputLocation>)
    ensures arg.Member? ==> r == Some(OutputLocation(arg.w, depth, index))
    ensures arg.Named? ==> (r.Some? <==> exists w :: WaveFieldName(w) == arg.s)
    ensures r.Some? ==> r.value.depth == depth && r.value.index == index
    ensures r.Some? && arg.Named? ==> WaveFieldName(r.value.waveField) == arg.s
  {
    var w := if arg.Member? then Some(arg.w) else WaveFieldNamed(arg.s);
    if w.None? then None else Some(OutputLocation(w.value, depth, index))
  }

  /** A location handle as the profile returns it. */
  datatype Location = Location(layerIndex: nat, depthWithin: real, waveField: WaveField)

  /** A soil layer as the outputs read it: mid-depth, thickness, strain, peak
      shear stress, and the vertical-stress query `stress_vert(depth_within, effective)`. */
  datatype Layer = Layer(depthMid: real, thickness: real, strain: real, stressShearMax: real,
                         stressVert: (real, bool) -> real)

  /** The layered profile: its layers, top to bottom (the last is the half-space),
      and `profile.location(wave_field, depth=, index=)`, which may fail. */
  datatype Profile = Profile(layers: seq<Layer>,
                             location: (WaveField, Option<real>, Option<int>) -> Option<Location>)

  /** The input motion: whether it is a `TimeSeriesMotion`, its time step and
      frequencies, `calc_time_series(tf)` and `calc_osc_accels(freqs, damping, tf)`. */
  datatype Motion = Motion(isTimeSeries: bool, timeStep: real, freqs: seq<real>,
                           calcTimeSeries: seq<Cell<Complex>> -> seq<real>,
                           calcOscAccels: (seq<real>, real, seq<Cell<Complex>>) -> seq<real>)

  /** The calculator after a run: profile, motion, its input location, the three
      transfer functions between two locations, `location.stress_vert(effective=True)`,
      and the Arias scale `GRAVITY * pi / 2` (a floating-point constant left abstract). */
  datatype Calc = Calc(profile: Profile, motion: Motion, locInput: Location,
                       calcAccelTf: (Location, Location) -> seq<Complex>,
                       calcStrainTf: (Location, Location) -> seq<Complex>,
                       calcStressTf: (Location, Location, bool) -> seq<Complex>,
                       effectiveStressVert: Location -> real,
                       ariasScale: real)

  /** `OutputLocation.__call__` (lines 160-163): look the location up in the
      profile, by the location's wave field, depth and index. */
  function Resolve(ol: OutputLocation, profile: Profile): Option<Location>
  {
    profile.location(ol.waveField, ol.depth, ol.index)
  }

  /** Naming the wave field or passing the member builds the same location,
      and it resolves to the profile's lookup of that member (lines 141-146
      and 160-163); a name that is no member builds nothing. */
  lemma NamedLocationResolvesLikeMember(w: WaveField, s: string, depth: Option<real>, index: Option<int>, profile: Profile)
    ensures MakeOutputLocation(Named(WaveFieldName(w)), depth, index) == MakeOutputLocation(Member(w), depth, index)
    ensures Resolve(MakeOutputLocation(Named(WaveFieldName(w)), depth, index).value, profile) ==
            profile.location(w, depth, index)
    ensures (forall v :: WaveFieldName(v) != s) ==> MakeOutputLocation(Named(s), depth, index).None?
  {
    match w {
      case Outcrop =>
      case Within =>
      case IncomingOnly =>
    }
  }
}
