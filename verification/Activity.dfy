/** The movement heuristic as a function of its state and one context. */
module Activity {
  import opened Common
  import opened Geometry
  import opened Tracking
  import opened Contexts

  /** Library functions the heuristic calls. */
  datatype Libm = Libm(hypot: Hypot, log: real -> real)

  const GAP: Time := 3 * SECOND
  const SEARCH: Time := 8 * SECOND
  const WINDOW: Time := 20 * SECOND
  const SUSTAINED: Time := 2 * SECOND
  const LINGER: Time := 5 * SECOND

  datatype Sample = Sample(at: Time, box: Box)

  /** A context as the heuristic reads it: camera offline; more than one cat detected or observed;
      one cat detected, one observed track and that track confirmed; or none of these. */
  datatype Reading = Gone | Crowd | One(cat: Snapshot) | Miss(catCount: nat, presence: State)
  {
    /** Nothing before this may be carried past it. */
    predicate Blank() { Gone? || Crowd? }
  }

  function Read(context: Context): (r: Reading)
    ensures r.One? ==> r.cat in context.tracks && ObservedCat(r.cat)
  {
    var observed := CountCats(context.tracks);
    if context.health == HealthOffline then Gone
    else if context.catCount > 1 || observed > 1 then Crowd
    else if context.catCount == 1 && observed == 1 && LastCat(context.tracks).confirmed then One(LastCat(context.tracks))
    else Miss(context.catCount, context.cat)
  }

  /** One update: what is read and the time given. */
  datatype Glance = Glance(reading: Reading, now: Time)

  datatype Beliefs = Beliefs(samples: seq<Sample>, trackId: nat, state: State, movingSince: Option<Time>,
                             changed: Time, confidence: real, evidence: Evidence, lastConfirmed: Option<Time>,
                             age: Option<Time>)

  const NO_BELIEFS := Beliefs([], 0, Unknown, None, 0, 0.0, NoEvidence, None, None)

  // ----- motion -----

  function AbsReal(x: real): real { if x < 0.0 then -x else x }

  /** A change of area by more than 0.12 in the logarithm per second. Where the quotient or its
      logarithm is not a number the floating-point comparison fails, and where it is infinite it holds. */
  predicate Resizes(libm: Libm, before: real, after: real, dt: real)
    requires dt > 0.0
  {
    if before == 0.0 then after > 0.0
    else if after == 0.0 then true
    else after / before > 0.0 && AbsReal(libm.log(after / before)) / dt > 0.12
  }

  /** Moving more than 3 percent of the frame, or changing size, since the previous sample. */
  predicate Moves(libm: Libm, a: Sample, b: Sample) {
    b.at > a.at &&
    var dt := Seconds(b.at - a.at);
    || libm.hypot(CenterX(b.box) - CenterX(a.box), CenterY(b.box) - CenterY(a.box)) / dt > 0.03
    || Resizes(libm, Area(a.box), Area(b.box), dt)
  }

  // ----- the twenty-second window -----

  /** The first sample that stays, looking from k on: all but one of those at or before the window
      boundary go. */
  function FirstKept(samples: seq<Sample>, now: Time, k: nat): (first: nat)
    requires k < |samples|
    ensures k <= first < |samples|
    decreases |samples| - k
  {
    if k + 1 < |samples| && now - samples[k + 1].at >= WINDOW then FirstKept(samples, now, k + 1) else k
  }

  function DropOld(samples: seq<Sample>, now: Time): seq<Sample>
    requires |samples| > 0
  {
    samples[FirstKept(samples, now, 0)..]
  }

  /** The extremes the code folds over the window, starting from 1 and 0. */
  datatype Extent = Extent(minX: real, maxX: real, minY: real, maxY: real, minArea: real, maxArea: real)

  const NO_EXTENT := Extent(1.0, 0.0, 1.0, 0.0, 1.0, 0.0)

  function Widen(e: Extent, b: Box): Extent {
    Extent(MinReal(e.minX, CenterX(b)), MaxReal(e.maxX, CenterX(b)),
           MinReal(e.minY, CenterY(b)), MaxReal(e.maxY, CenterY(b)),
           MinReal(e.minArea, Area(b)), MaxReal(e.maxArea, Area(b)))
  }

  function ExtentOf(samples: seq<Sample>): Extent {
    if |samples| == 0 then NO_EXTENT else Widen(ExtentOf(Front(samples)), Last(samples).box)
  }

  ghost predicate AllSolid(samples: seq<Sample>) { forall i | 0 <= i < |samples| :: Solid(samples[i].box) }

  lemma {:induction false} ExtentPositive(samples: seq<Sample>)
    requires AllSolid(samples)
    ensures ExtentOf(samples).minArea > 0.0
  {
    if |samples| > 0 { ExtentPositive(Front(samples)); }
  }

  /** Within 3 percent of the frame and a quarter in size. Over a smallest area of zero the quotient is
      infinite or not a number. */
  predicate Still(libm: Libm, samples: seq<Sample>) {
    var e := ExtentOf(samples);
    libm.hypot(e.maxX - e.minX, e.maxY - e.minY) <= 0.03 && e.minArea != 0.0 && e.maxArea / e.minArea <= 1.25
  }

  /** The two geometric tests, as the rest of the heuristic sees them. */
  datatype Senses = Senses(moves: (Sample, Sample) -> bool, still: seq<Sample> -> bool)

  function SensesOf(libm: Libm): Senses {
    Senses((a: Sample, b: Sample) => Moves(libm, a, b), (samples: seq<Sample>) => Still(libm, samples))
  }

  // ----- one update -----

  /** The samples a confirmed sighting can continue. */
  function Kept(s: Beliefs, cat: Snapshot, now: Time): seq<Sample> {
    if s.trackId != cat.trackId || (|s.samples| > 0 && now - Last(s.samples).at > GAP) then [] else s.samples
  }

  function MovingFrom(senses: Senses, s: Beliefs, cat: Snapshot, now: Time): Option<Time> {
    var kept := Kept(s, cat, now);
    if |kept| > 0 && senses.moves(Last(kept), Sample(now, cat.box)) then
      if s.movingSince.Some? then s.movingSince else Some(now)
    else None
  }

  /** Ten samples over twenty seconds, and still. */
  predicate Rests(senses: Senses, samples: seq<Sample>, now: Time) {
    |samples| >= 10 && now - samples[0].at >= WINDOW && senses.still(samples)
  }

  function AgeOf(s: Beliefs, now: Time): Option<Time> {
    if s.lastConfirmed.Some? then Some(now - s.lastConfirmed.value) else None
  }

  /** Forgets the series of sightings. */
  function Forget(s: Beliefs): Beliefs { s.(samples := [], movingSince := None, trackId := 0) }

  /** A confirmed sighting. */
  function JudgeSighting(senses: Senses, s: Beliefs, cat: Snapshot, now: Time): (Beliefs, State) {
    var movingSince := MovingFrom(senses, s, cat, now);
    var samples := DropOld(Kept(s, cat, now) + [Sample(now, cat.box)], now);
    var desired :=
      if movingSince.Some? && now - movingSince.value >= SUSTAINED then Active
      else if Rests(senses, samples, now) then Resting
      else if s.state == Active && now - s.changed < LINGER then Active
      else Unknown;
    (s.(samples := samples, movingSince := movingSince, trackId := cat.trackId, lastConfirmed := Some(now),
        age := Some(0), evidence := Observed,
        confidence := if desired == Active || desired == Resting then cat.confidence else 0.0), desired)
  }

  /** No confirmed sighting, but nothing that blanks the past either. */
  function JudgeMiss(s: Beliefs, catCount: nat, presence: State, now: Time): (Beliefs, State) {
    var age := AgeOf(s, now);
    var evidence :=
      if age.Some? && age.value <= GAP then Held
      else if age.Some? && age.value <= SEARCH then Searching
      else if catCount == 0 && presence == OutOfView then Absent
      else if catCount != 0 then Confirming
      else NoEvidence;
    var desired := if evidence == Held then s.state else if evidence == Absent then OutOfView else Unknown;
    var s' := s.(age := age, evidence := evidence, confidence := if evidence == Held then s.confidence else 0.0);
    (if evidence == Held && desired != Offline && desired != OutOfView then s' else Forget(s'), desired)
  }

  /** Offline or crowded. */
  function JudgeBlank(s: Beliefs, offline: bool): (Beliefs, State) {
    (Forget(s).(lastConfirmed := None, age := None, confidence := 0.0,
                evidence := if offline then CameraOffline else Ambiguous),
     if offline then Offline else Unknown)
  }

  /** Everything but the comparison with the state shown so far. */
  function Judge(senses: Senses, s: Beliefs, g: Glance): (Beliefs, State) {
    match g.reading
    case Gone => JudgeBlank(s, true)
    case Crowd => JudgeBlank(s, false)
    case One(cat) => JudgeSighting(senses, s, cat, g.now)
    case Miss(catCount, presence) => JudgeMiss(s, catCount, presence, g.now)
  }

  function Shown(judged: (Beliefs, State), now: Time): Beliefs {
    if judged.1 == judged.0.state then judged.0 else judged.0.(state := judged.1, changed := now)
  }

  function Update(senses: Senses, s: Beliefs, g: Glance): Beliefs { Shown(Judge(senses, s, g), g.now) }

  function After(senses: Senses, log: seq<Glance>): Beliefs {
    if |log| == 0 then NO_BELIEFS else Update(senses, After(senses, Front(log)), Last(log))
  }
}
