/** One pass of the service loop as a function: camera frames through tracker, appearance vote and
    engine into the store and the served snapshot. */
module Service {
  import opened Common
  import opened Geometry
  import opened Contexts
  import opened Engine
  import opened IntervalTable
  import opened LiveLaws
  import Activity
  import Monitor
  import T = Tracking
  import L = TrackerLaws
  import PA = Appearance

  /** A camera frame: what the detector finds in it, when that starts and ends, how many frames have
      been dropped so far, and the crop the appearance vote would see. */
  datatype Frame = Frame(received: Time, sequence: nat, observedAt: int, detections: seq<Detection>, begin: Time,
                         done: Time, dropped: nat, large: bool, sharp: bool, scores: seq<real>)
  {
    function Picture(): PA.Picture { PA.Picture(received, sequence, observedAt, large, sharp, scores) }
  }

  /** One pass: a frame, if there is one, the clock, and the wall clock in UTC seconds. */
  datatype Turn = Turn(frame: Option<Frame>, now: Time, utc: int)
  {
    predicate Timely() { frame.Some? && now - frame.value.received < FRAME_MAX_AGE }
  }

  datatype Failure = TrackerFailed(why: T.Refusal) | EngineFailed(error: EngineError) | RecordFailed

  /** What the service was built with. */
  datatype Setup = Setup(config: T.Config, track: TrackerStep, senses: Activity.Senses, names: seq<string>, interval: Time)
  {
    ghost predicate Built() { config.Valid() && track == TrackerOf(config) }
  }

  datatype ServiceState = ServiceState(engine: EngineState, tracker: T.TrackerState, ballot: PA.Ballot,
                                       events: seq<Event>, log: seq<Entry>, next: Time, inferred: nat, current: Context)

  /** The observation made of a frame; the inference time is in milliseconds. */
  function ObservationOf(source: string, f: Frame, tracks: seq<T.Snapshot>): Observation {
    Observation(source, Some(f.observedAt), f.received, f.sequence, f.dropped,
                CountClass(f.detections, PERSON), CountClass(f.detections, CAT),
                TopConfidence(f.detections, PERSON), TopConfidence(f.detections, CAT), tracks,
                (f.done - f.begin) as real / 1000000.0)
  }

  /** Stores the events, records the engine's context and serves it; an offline camera clears the portrait. */
  function Published(s: ServiceState, events: seq<Event>, at: int): Result<ServiceState, Failure> {
    var ballot := if s.engine.context.health == HealthOffline then PA.BLANK else s.ballot;
    var entry := EntryOf(s.engine.context, at);
    if !entry.Valid() then Failure(RecordFailed)
    else Success(s.(ballot := ballot, events := s.events + events, log := s.log + [entry],
                    current := s.engine.context.(portrait := ballot.portrait)))
  }

  /** The engine has moved on, and what it told is stored. */
  function Moved(s: ServiceState, engine: EngineState, at: int): Result<ServiceState, Failure> {
    Published(s.(engine := engine), News(s.engine, engine), at)
  }

  /** Tracks and votes, unless inference took too long for the frame to count. */
  function Tracked(setup: Setup, s: ServiceState, f: Frame): Result<(ServiceState, seq<T.Snapshot>), Failure>
    requires |f.scores| == |setup.names|
  {
    if f.done - f.received >= FRAME_MAX_AGE then Success((s, []))
    else
      var (tracker, why) := setup.track(s.tracker, f.detections, f.received);
      if why.Some? then Failure(TrackerFailed(why.value))
      else
        var tracks := T.Snapshots(tracker.tracks);
        Success((s.(tracker := tracker,
                    ballot := PA.Expose(setup.names, s.ballot, PA.Exposed(tracks), f.Picture())), tracks))
  }

  function Witnessed(setup: Setup, s: ServiceState, f: Frame, tracks: seq<T.Snapshot>): Result<ServiceState, Failure> {
    var o := ObservationOf(s.engine.context.source, f, tracks);
    var rejected := Rejected(s.engine, o);
    if rejected.Some? then Failure(EngineFailed(rejected.value))
    else Moved(s, Taken(setup.senses, s.engine, o, f.done), f.observedAt)
  }

  function Inferred(setup: Setup, s: ServiceState, f: Frame): Result<ServiceState, Failure>
    requires |f.scores| == |setup.names|
  {
    match Tracked(setup, s, f)
    case Failure(e) => Failure(e)
    case Success((s', tracks)) => Witnessed(setup, s', f, tracks)
  }

  function Idle(setup: Setup, s: ServiceState, now: Time, utc: int): Result<ServiceState, Failure> {
    match Moved(s, Ticked(setup.senses, s.engine, now, utc), utc)
    case Failure(e) => Failure(e)
    case Success(s') => Success(if s'.engine.context.health == HealthOffline then s'.(tracker := T.Reset(s'.tracker)) else s')
  }

  /** An inference is due: the next one is scheduled and this one counted. */
  function Due(setup: Setup, s: ServiceState, f: Frame): ServiceState {
    s.(next := f.done + setup.interval, inferred := s.inferred + 1)
  }

  /** A timely frame is heard at once but inferred only when an inference is due. */
  function Arrived(setup: Setup, s: ServiceState, f: Frame, now: Time): Result<ServiceState, Failure>
    requires |f.scores| == |setup.names|
  {
    var heard := s.(engine := Heard(s.engine, f.received, now));
    if now < s.next then Success(heard) else Inferred(setup, Due(setup, heard, f), f)
  }

  lemma {:induction false} ArrivedDue(setup: Setup, s: ServiceState, heard: ServiceState, f: Frame, now: Time)
    requires |f.scores| == |setup.names| && heard == s.(engine := Heard(s.engine, f.received, now)) && now >= s.next
    ensures Arrived(setup, s, f, now) == Inferred(setup, Due(setup, heard, f), f)
  {
  }

  /** One pass of the loop. */
  function Pass(setup: Setup, s: ServiceState, turn: Turn): Result<ServiceState, Failure>
    requires turn.frame.Some? ==> |turn.frame.value.scores| == |setup.names|
  {
    if turn.Timely() then Arrived(setup, s, turn.frame.value, turn.now)
    else Idle(setup, s, turn.now, turn.utc)
  }

  // ----- what every pass keeps -----

  ghost predicate Good(setup: Setup, s: ServiceState) {
    && setup.Built() && T.Sound(setup.config, s.tracker) && Healthy(setup.senses, s.engine)
    && Publishable(s.current)
  }

  lemma {:induction false} MovedGood(setup: Setup, s: ServiceState, engine: EngineState, at: int)
    requires setup.Built() && T.Sound(setup.config, s.tracker) && Healthy(setup.senses, engine)
    ensures Moved(s, engine, at).Success? ==> Good(setup, Moved(s, engine, at).value)
  {
    HealthyPublishes(setup.senses, engine);
  }

  lemma {:induction false} TrackedGood(setup: Setup, s: ServiceState, f: Frame)
    requires setup.Built() && T.Sound(setup.config, s.tracker) && |f.scores| == |setup.names|
    ensures var r := Tracked(setup, s, f);
            r.Success? ==>
              && T.Sound(setup.config, r.value.0.tracker) && r.value.0.engine == s.engine
              && (f.done - f.received >= FRAME_MAX_AGE || Trackable(r.value.1, CountClass(f.detections, CAT)))
  {
    if Tracked(setup, s, f).Success? && f.done - f.received < FRAME_MAX_AGE {
      L.UpdateKeepsSound(setup.config, s.tracker, f.detections, f.received);
      UpdateTrackable(setup.config, s.tracker, f.detections, f.received);
    }
  }

  lemma {:induction false} WitnessedGood(setup: Setup, s: ServiceState, f: Frame, tracks: seq<T.Snapshot>)
    requires setup.Built() && T.Sound(setup.config, s.tracker) && Healthy(setup.senses, s.engine)
    requires f.done - f.received >= FRAME_MAX_AGE || Trackable(tracks, CountClass(f.detections, CAT))
    ensures Witnessed(setup, s, f, tracks).Success? ==> Good(setup, Witnessed(setup, s, f, tracks).value)
  {
    var o := ObservationOf(s.engine.context.source, f, tracks);
    if Rejected(s.engine, o).None? {
      TakenHealthy(setup.senses, s.engine, o, f.done);
      MovedGood(setup, s, Taken(setup.senses, s.engine, o, f.done), f.observedAt);
    }
  }

  lemma {:induction false} IdleGood(setup: Setup, s: ServiceState, now: Time, utc: int)
    requires setup.Built() && T.Sound(setup.config, s.tracker) && Healthy(setup.senses, s.engine)
    ensures Idle(setup, s, now, utc).Success? ==> Good(setup, Idle(setup, s, now, utc).value)
  {
    TickedHealthy(setup.senses, s.engine, now, utc);
    MovedGood(setup, s, Ticked(setup.senses, s.engine, now, utc), utc);
  }

  lemma {:induction false} PassGood(setup: Setup, s: ServiceState, turn: Turn)
    requires Good(setup, s)
    requires turn.frame.Some? ==> |turn.frame.value.scores| == |setup.names|
    ensures Pass(setup, s, turn).Success? ==> Good(setup, Pass(setup, s, turn).value)
  {
    if turn.Timely() { ArrivedGood(setup, s, turn.frame.value, turn.now); } else { IdleGood(setup, s, turn.now, turn.utc); }
  }

  lemma {:induction false} InferredGood(setup: Setup, s: ServiceState, f: Frame)
    requires setup.Built() && T.Sound(setup.config, s.tracker) && Healthy(setup.senses, s.engine) && |f.scores| == |setup.names|
    ensures Inferred(setup, s, f).Success? ==> Good(setup, Inferred(setup, s, f).value)
  {
    TrackedGood(setup, s, f);
    if Tracked(setup, s, f).Success? {
      var (s', tracks) := Tracked(setup, s, f).value;
      WitnessedGood(setup, s', f, tracks);
    }
  }

  lemma {:induction false} ArrivedGood(setup: Setup, s: ServiceState, f: Frame, now: Time)
    requires Good(setup, s) && |f.scores| == |setup.names|
    ensures Arrived(setup, s, f, now).Success? ==> Good(setup, Arrived(setup, s, f, now).value)
  {
    HeardHealthy(setup.senses, s.engine, f.received, now);
    var heard := s.(engine := Heard(s.engine, f.received, now));
    if now >= s.next {
      InferredGood(setup, Due(setup, heard, f), f);
    }
  }

  // ----- whole runs -----

  function Start(setup: Setup, source: string, started: Time): ServiceState {
    ServiceState(NewEngine(source, started), T.TrackerState([], 1, 0, false), PA.BLANK, [], [], started, 0,
                 NewContext(source))
  }

  ghost predicate Scored(setup: Setup, turns: seq<Turn>) {
    forall t | t in turns && t.frame.Some? :: |t.frame.value.scores| == |setup.names|
  }

  /** The state after some turns; None once a pass has failed, which ends the service. */
  function Run(setup: Setup, source: string, started: Time, turns: seq<Turn>): Option<ServiceState>
    requires Scored(setup, turns)
  {
    if |turns| == 0 then Some(Start(setup, source, started))
    else
      assert Last(turns) in turns;
      match Run(setup, source, started, Front(turns))
      case None => None
      case Some(s) =>
        match Pass(setup, s, Last(turns))
        case Failure(_) => None
        case Success(s') => Some(s')
  }

  /** In every run of the service, every published context counts the observed cat tracks, is offline
      exactly when the camera is, shows no activity of several cats, has a valid confidence, and is
      accepted by the monitor. */
  lemma {:induction false} EveryPublishedContext(setup: Setup, source: string, started: Time, turns: seq<Turn>)
    requires setup.Built() && Scored(setup, turns)
    requires Run(setup, source, started, turns).Some?
    ensures Good(setup, Run(setup, source, started, turns).value)
    ensures Monitor.Objections(Run(setup, source, started, turns).value.current).None?
  {
    if |turns| == 0 {
      NewHealthy(setup.senses, source, started);
    } else {
      assert Last(turns) in turns;
      EveryPublishedContext(setup, source, started, Front(turns));
      PassGood(setup, Run(setup, source, started, Front(turns)).value, Last(turns));
    }
  }

  /** What is served is the engine's context and what was recorded last; the stored events are exactly
      those the engine has told. */
  ghost predicate Served(s: ServiceState, source: string) {
    && s.current == s.engine.context.(portrait := s.current.portrait) && s.engine.context.source == source
    && s.events == s.engine.past.events
    && (forall e | e in s.log :: e.Valid())
    && (if |s.log| == 0 then s.current == NewContext(source) else Last(s.log) == EntryOf(s.current, Last(s.log).at))
  }

  lemma {:induction false} MovedServed(s: ServiceState, source: string, engine: EngineState, at: int)
    requires Served(s, source) && Grown(s.engine, engine) && engine.context.source == source
    ensures Moved(s, engine, at).Success? ==> Served(Moved(s, engine, at).value, source)
  {
    assert s.engine.past.events + News(s.engine, engine) == engine.past.events;
    if Moved(s, engine, at).Success? {
      assert Moved(s, engine, at).value.log == s.log + [EntryOf(engine.context, at)];
    }
  }

  lemma {:induction false} PassServed(setup: Setup, s: ServiceState, source: string, turn: Turn)
    requires Served(s, source)
    requires turn.frame.Some? ==> |turn.frame.value.scores| == |setup.names|
    ensures Pass(setup, s, turn).Success? ==> Served(Pass(setup, s, turn).value, source)
  {
    if turn.Timely() {
      ArrivedServed(setup, s, source, turn.frame.value, turn.now);
    } else {
      TickedGrown(setup.senses, s.engine, turn.now, turn.utc);
      MovedServed(s, source, Ticked(setup.senses, s.engine, turn.now, turn.utc), turn.utc);
    }
  }

  lemma {:induction false} ArrivedServed(setup: Setup, s: ServiceState, source: string, f: Frame, now: Time)
    requires Served(s, source) && |f.scores| == |setup.names|
    ensures Arrived(setup, s, f, now).Success? ==> Served(Arrived(setup, s, f, now).value, source)
  {
    var heard := s.(engine := Heard(s.engine, f.received, now));
    if now >= s.next {
      var due := Due(setup, heard, f);
      if Tracked(setup, due, f).Success? {
        var (s', tracks) := Tracked(setup, due, f).value;
        WitnessedServed(setup, s', source, f, tracks);
      }
    }
  }

  lemma {:induction false} WitnessedServed(setup: Setup, s: ServiceState, source: string, f: Frame,
                                           tracks: seq<T.Snapshot>)
    requires Served(s, source)
    ensures Witnessed(setup, s, f, tracks).Success? ==> Served(Witnessed(setup, s, f, tracks).value, source)
  {
    var o := ObservationOf(s.engine.context.source, f, tracks);
    if Rejected(s.engine, o).None? {
      TakenGrown(setup.senses, s.engine, o, f.done);
      MovedServed(s, source, Taken(setup.senses, s.engine, o, f.done), f.observedAt);
    }
  }

  /** In every run of the service the snapshot that clients are served is the context recorded last in
      the store, every recorded context is valid, and the stored events are exactly those the engine has
      told, in order. */
  lemma {:induction false} ServedIsRecorded(setup: Setup, source: string, started: Time, turns: seq<Turn>)
    requires Scored(setup, turns) && Run(setup, source, started, turns).Some?
    ensures Served(Run(setup, source, started, turns).value, source)
  {
    if |turns| > 0 {
      assert Last(turns) in turns;
      ServedIsRecorded(setup, source, started, Front(turns));
      PassServed(setup, Run(setup, source, started, Front(turns)).value, source, Last(turns));
    }
  }

  /** In every run of the service the stored events never repeat a state within a category, and the
      last one of each category is the state shown. */
  lemma {:induction false} StoredEventsTell(setup: Setup, source: string, started: Time, turns: seq<Turn>)
    requires setup.Built() && Scored(setup, turns) && Run(setup, source, started, turns).Some?
    ensures var s := Run(setup, source, started, turns).value;
            && TellsChanges(s.events)
            && LastTold(s.events, Person) == s.current.person && LastTold(s.events, Cat) == s.current.cat
            && LastTold(s.events, Pet) == s.current.petState
  {
    ServedIsRecorded(setup, source, started, turns);
    EveryPublishedContext(setup, source, started, turns);
  }

  // ----- when a pass fails -----

  predicate TooSure(d: Detection) { (d.classId == 0 || d.classId == 15) && d.confidence > 1.0 }

  lemma {:induction false} TopInRange(detections: seq<Detection>, classId: int)
    ensures ValidConfidence(TopConfidence(detections, classId)) <==>
            forall d | d in detections && d.classId == classId :: d.confidence <= 1.0
  {
    CountsExact(detections, classId);
    TopNotNegative(detections, classId);
  }

  lemma {:induction false} TopNotNegative(detections: seq<Detection>, classId: int)
    ensures TopConfidence(detections, classId) >= 0.0
    decreases |detections|
  {
    if |detections| > 0 { TopNotNegative(Front(detections), classId); }
  }

  lemma {:induction false} RejectedExact(s: EngineState, f: Frame, tracks: seq<T.Snapshot>)
    ensures Rejected(s, ObservationOf(s.context.source, f, tracks)).Some? <==>
            f.sequence == 0 || f.done < f.begin || exists d :: d in f.detections && TooSure(d)
  {
    TopInRange(f.detections, 0);
    TopInRange(f.detections, 15);
  }

  lemma {:induction false} MovedFails(setup: Setup, s: ServiceState, engine: EngineState, at: int)
    requires Healthy(setup.senses, engine) && engine.context.source != ""
    ensures Moved(s, engine, at).Failure? <==> at < 0
  {
    HealthyPublishes(setup.senses, engine);
  }

  lemma {:induction false} InferredFails(setup: Setup, s: ServiceState, f: Frame)
    requires setup.Built() && T.Sound(setup.config, s.tracker) && Healthy(setup.senses, s.engine) && |f.scores| == |setup.names|
    requires s.engine.context.source != ""
    ensures Inferred(setup, s, f).Failure? <==>
            || (f.done - f.received < 2_000_000_000 &&
                T.Update(setup.config, s.tracker, f.detections, f.received).1.Some?)
            || f.sequence == 0 || f.done < f.begin || f.observedAt < 0
            || exists d :: d in f.detections && TooSure(d)
  {
    TrackedGood(setup, s, f);
    if Tracked(setup, s, f).Success? {
      var (s', tracks) := Tracked(setup, s, f).value;
      var o := ObservationOf(s.engine.context.source, f, tracks);
      RejectedExact(s.engine, f, tracks);
      if Rejected(s.engine, o).None? {
        TakenHealthy(setup.senses, s.engine, o, f.done);
        MovedFails(setup, s', Taken(setup.senses, s.engine, o, f.done), f.observedAt);
      }
    }
  }

  /** Exactly when a pass of a running service fails, which ends it: an idle pass only by a clock before
      1970; a frame only when it is inferred, and then if the tracker refuses it, it has no number, inference
      ended before it began, its stamp lies before 1970, or a detection is more than certain. */
  lemma {:induction false} PassFailsExact(setup: Setup, s: ServiceState, turn: Turn)
    requires Good(setup, s) && s.engine.context.source != ""
    requires turn.frame.Some? ==> |turn.frame.value.scores| == |setup.names|
    ensures Pass(setup, s, turn).Failure? <==>
            if turn.frame.None? || turn.now - turn.frame.value.received >= 2_000_000_000 then turn.utc < 0
            else
              var f := turn.frame.value;
              turn.now >= s.next &&
              (|| (f.done - f.received < 2_000_000_000 &&
                   T.Update(setup.config, s.tracker, f.detections, f.received).1.Some?)
               || f.sequence == 0 || f.done < f.begin || f.observedAt < 0
               || exists d :: d in f.detections && TooSure(d))
  {
    if turn.Timely() {
      var f := turn.frame.value;
      var heard := s.(engine := Heard(s.engine, f.received, turn.now));
      HeardHealthy(setup.senses, s.engine, f.received, turn.now);
      if turn.now >= s.next {
        ArrivedDue(setup, s, heard, f, turn.now);
        InferredFails(setup, Due(setup, heard, f), f);
      }
    } else {
      TickedHealthy(setup.senses, s.engine, turn.now, turn.utc);
      MovedFails(setup, s, Ticked(setup.senses, s.engine, turn.now, turn.utc), turn.utc);
    }
  }
}
