/** Replaying groups through tracker and engine, one after the other. */
module ReplayLaws {
  import opened Common
  import opened Geometry
  import opened Contexts
  import opened Engine
  import IntervalTable
  import opened LiveLaws
  import opened Reading
  import opened Replay
  import Activity
  import T = Tracking
  import L = TrackerLaws

  const EPOCH: Time := SECOND

  function TimeOf(elapsed: nat): Time { EPOCH + elapsed * 1_000_000 }

  datatype ReplayState = ReplayState(engine: EngineState, tracker: T.TrackerState, sequence: nat, events: seq<Event>,
                                     log: seq<IntervalTable.Entry>)

  datatype FlushError = TrackerFailed(why: T.Refusal) | EngineFailed(error: EngineError) | RecordFailed

  /** What a replay is built with. */
  datatype Setup = Setup(config: T.Config, track: TrackerStep, senses: Activity.Senses)
  {
    ghost predicate Built() { config.Valid() && track == TrackerOf(config) }
  }

  function ObservationOf(source: string, g: Group, sequence: nat, tracks: seq<T.Snapshot>): Observation {
    Observation(source, Some(g.stamp), TimeOf(g.elapsed), sequence, 0,
                CountClass(g.detections, PERSON), CountClass(g.detections, CAT),
                TopConfidence(g.detections, PERSON), TopConfidence(g.detections, CAT), tracks, 0.0)
  }

  /** Stores the events and records the context. */
  function Emitted(s: ReplayState, events: seq<Event>, at: int): Result<ReplayState, FlushError> {
    var entry := EntryOf(s.engine.context, at);
    if entry.Valid() then Success(s.(events := s.events + events, log := s.log + [entry])) else Failure(RecordFailed)
  }

  /** A tick moves the clock of the engine and restarts the tracker of an offline camera. */
  function Idled(s: ReplayState, engine: EngineState): ReplayState {
    s.(engine := engine, tracker := if engine.context.health == HealthOffline then T.Reset(s.tracker) else s.tracker)
  }

  function Advanced(s: ReplayState, engine: EngineState, tracker: T.TrackerState): ReplayState {
    s.(engine := engine, tracker := tracker, sequence := s.sequence + 1)
  }

  /** A frame the tracker has taken goes to the engine. */
  function Framed(senses: Activity.Senses, s: ReplayState, g: Group,
                  tracker: T.TrackerState): Result<ReplayState, FlushError> {
    Engaged(senses, s, g, tracker, ObservationOf(s.engine.context.source, g, s.sequence + 1, T.Snapshots(tracker.tracks)))
  }

  function Engaged(senses: Activity.Senses, s: ReplayState, g: Group, tracker: T.TrackerState, o: Observation)
    : Result<ReplayState, FlushError>
  {
    var rejected := Rejected(s.engine, o);
    if rejected.Some? then Failure(EngineFailed(rejected.value))
    else
      var engine := Taken(senses, s.engine, o, TimeOf(g.elapsed));
      Emitted(Advanced(s, engine, tracker), News(s.engine, engine), g.stamp)
  }

  /** One group: a tick or a frame. */
  function Flushed(setup: Setup, s: ReplayState, g: Group): Result<ReplayState, FlushError> {
    if g.kind == TickRow then
      var engine := Ticked(setup.senses, s.engine, TimeOf(g.elapsed), g.stamp);
      Emitted(Idled(s, engine), News(s.engine, engine), g.stamp)
    else
      var (tracker, why) := setup.track(s.tracker, g.detections, TimeOf(g.elapsed));
      if why.Some? then Failure(TrackerFailed(why.value)) else Framed(setup.senses, s, g, tracker)
  }

  function NewReplay(source: string): ReplayState {
    ReplayState(NewEngine(source, EPOCH), T.TrackerState([], 1, 0, false), 0, [], [])
  }

  function FlushOf(setup: Setup): (ReplayState, Group) -> Result<ReplayState, FlushError> {
    (s: ReplayState, g: Group) => Flushed(setup, s, g)
  }

  // ----- nothing is late -----

  /** Nothing so far is later than the last group, and the stored events are those the engine has told. */
  ghost predicate UpTo(setup: Setup, s: ReplayState, elapsed: Option<nat>) {
    && setup.Built() && T.Sound(setup.config, s.tracker) && Healthy(setup.senses, s.engine)
    && s.engine.context.source != "" && s.engine.context.sequence == s.sequence && s.events == s.engine.past.events
    && (elapsed.None? ==> !s.tracker.started && !s.engine.hasObservation)
    && (elapsed.Some? && s.tracker.started ==> s.tracker.lastUpdate <= TimeOf(elapsed.value))
    && (elapsed.Some? && s.engine.hasObservation ==> s.engine.lastObservation <= TimeOf(elapsed.value))
  }

  predicate Later(elapsed: Option<nat>, g: Group) { elapsed.Some? ==> elapsed.value < g.elapsed }

  /** What an accepted frame leaves in the tracker. */
  ghost predicate TrackerHas(config: T.Config, g: Group, tracker: T.TrackerState) {
    && T.Sound(config, tracker) && tracker.started && tracker.lastUpdate == TimeOf(g.elapsed)
    && T.AllValid(g.detections) && Trackable(T.Snapshots(tracker.tracks), CountClass(g.detections, CAT))
  }

  lemma {:induction false} AcceptedTracked(config: T.Config, s: T.TrackerState, g: Group)
    requires L.Accepted(config, s, g.detections, TimeOf(g.elapsed))
    ensures TrackerHas(config, g, T.Update(config, s, g.detections, TimeOf(g.elapsed)).0)
  {
    var live, chosen := L.UpdateShape(config, s, g.detections, TimeOf(g.elapsed));
    L.UpdateKeepsSound(config, s, g.detections, TimeOf(g.elapsed));
    UpdateTrackable(config, s, g.detections, TimeOf(g.elapsed));
  }

  lemma {:induction false} TopConfidenceValid(detections: seq<Detection>, classId: int)
    requires T.AllValid(detections)
    ensures ValidConfidence(TopConfidence(detections, classId))
  {
    if |detections| > 0 {
      assert Last(detections) in detections;
      assert forall d | d in Front(detections) :: d in detections;
      TopConfidenceValid(Front(detections), classId);
    }
  }

  /** The engine takes the next frame in time that the tracker has taken: it neither rejects nor
      ignores it. */
  lemma {:induction false} GroupTaken(setup: Setup, s: ReplayState, elapsed: Option<nat>, g: Group,
                                      tracker: T.TrackerState)
    requires UpTo(setup, s, elapsed) && Later(elapsed, g) && TrackerHas(setup.config, g, tracker)
    ensures var o := ObservationOf(s.engine.context.source, g, s.sequence + 1, T.Snapshots(tracker.tracks));
            Rejected(s.engine, o).None? && !Ignored(s.engine, o, TimeOf(g.elapsed))
  {
    TopConfidenceValid(g.detections, PERSON);
    TopConfidenceValid(g.detections, CAT);
  }

  lemma {:induction false} TakenMarks(senses: Activity.Senses, s: EngineState, o: Observation, now: Time)
    requires Rejected(s, o).None? && !Ignored(s, o, now)
    ensures var s' := Taken(senses, s, o, now);
            && s'.context.sequence == o.sequence && s'.context.source == s.context.source
            && s'.hasObservation && s'.lastObservation == o.received
  {
  }

  /** Recording fails only for stamps before 1970. */
  lemma {:induction false} EmittedAlways(senses: Activity.Senses, s: ReplayState, events: seq<Event>, at: int)
    requires Healthy(senses, s.engine) && s.engine.context.source != ""
    ensures Emitted(s, events, at) ==
            if at < 0 then Failure(RecordFailed)
            else Success(s.(events := s.events + events, log := s.log + [EntryOf(s.engine.context, at)]))
  {
    HealthyPublishes(senses, s.engine);
  }

  /** What a flush may leave: everything up to the time of the group, with a frame counted or not, or
      the one failure that a stamp before 1970 causes. */
  ghost predicate Kept(setup: Setup, r: Result<ReplayState, FlushError>, g: Group, sequence: nat,
                       log: seq<IntervalTable.Entry>) {
    match r
    case Success(s) =>
      && UpTo(setup, s, Some(g.elapsed)) && s.sequence == sequence && g.stamp >= 0
      && s.log == log + [EntryOf(s.engine.context, g.stamp)]
    case Failure(e) => e == RecordFailed && g.stamp < 0
  }

  lemma {:induction false} TickUpTo(setup: Setup, s: ReplayState, elapsed: Option<nat>, g: Group)
    requires UpTo(setup, s, elapsed) && Later(elapsed, g)
    ensures var engine := Ticked(setup.senses, s.engine, TimeOf(g.elapsed), g.stamp);
            Kept(setup, Emitted(Idled(s, engine), News(s.engine, engine), g.stamp), g, s.sequence, s.log)
  {
    var engine := Ticked(setup.senses, s.engine, TimeOf(g.elapsed), g.stamp);
    TickedHealthy(setup.senses, s.engine, TimeOf(g.elapsed), g.stamp);
    TickedGrown(setup.senses, s.engine, TimeOf(g.elapsed), g.stamp);
    EmittedAlways(setup.senses, Idled(s, engine), News(s.engine, engine), g.stamp);
    assert s.events + News(s.engine, engine) == engine.past.events;
  }

  lemma {:induction false} FramedUpTo(setup: Setup, s: ReplayState, elapsed: Option<nat>, g: Group,
                                      tracker: T.TrackerState)
    requires UpTo(setup, s, elapsed) && Later(elapsed, g) && TrackerHas(setup.config, g, tracker)
    ensures Kept(setup, Framed(setup.senses, s, g, tracker), g, s.sequence + 1, s.log)
  {
    GroupTaken(setup, s, elapsed, g, tracker);
    FrameTaken(setup, s, ObservationOf(s.engine.context.source, g, s.sequence + 1, T.Snapshots(tracker.tracks)), tracker, g);
  }

  lemma {:induction false} FrameTaken(setup: Setup, s: ReplayState, o: Observation, tracker: T.TrackerState, g: Group)
    requires Healthy(setup.senses, s.engine) && s.engine.context.source != "" && s.events == s.engine.past.events
    requires Rejected(s.engine, o).None? && !Ignored(s.engine, o, TimeOf(g.elapsed)) && Trackable(o.tracks, o.catCount)
    requires o.sequence == s.sequence + 1 && o.received == TimeOf(g.elapsed)
    requires setup.Built() && TrackerHas(setup.config, g, tracker)
    ensures Kept(setup, Engaged(setup.senses, s, g, tracker, o), g, s.sequence + 1, s.log)
  {
    TakenMarks(setup.senses, s.engine, o, TimeOf(g.elapsed));
    TakenHealthy(setup.senses, s.engine, o, TimeOf(g.elapsed));
    TakenGrown(setup.senses, s.engine, o, TimeOf(g.elapsed));
    AdvancedUpTo(setup, s, Taken(setup.senses, s.engine, o, TimeOf(g.elapsed)), tracker, g);
  }

  lemma {:induction false} AdvancedUpTo(setup: Setup, s: ReplayState, engine: EngineState, tracker: T.TrackerState,
                                        g: Group)
    requires setup.Built() && Healthy(setup.senses, engine) && s.events == s.engine.past.events && Grown(s.engine, engine)
    requires engine.context.source != "" && engine.context.sequence == s.sequence + 1
    requires engine.hasObservation && engine.lastObservation == TimeOf(g.elapsed)
    requires T.Sound(setup.config, tracker) && tracker.started && tracker.lastUpdate == TimeOf(g.elapsed)
    ensures Kept(setup, Emitted(Advanced(s, engine, tracker), News(s.engine, engine), g.stamp), g, s.sequence + 1, s.log)
  {
    EmittedAlways(setup.senses, Advanced(s, engine, tracker), News(s.engine, engine), g.stamp);
    assert s.events + News(s.engine, engine) == engine.past.events;
  }

  // ----- what can fail -----

  /** The unmatched detections fit beside the surviving tracks, and there are ids for them. */
  ghost predicate Fits(config: T.Config, s: T.TrackerState, g: Group) {
    var live := config.Live(s.tracks, TimeOf(g.elapsed));
    && T.Measurable(live, g.detections)
    && var unmatched := T.Unmatched(T.Chosen(config, live, g.detections, TimeOf(g.elapsed)), |g.detections|);
       |live| + unmatched <= 256 && s.nextId + unmatched <= 18_446_744_073_709_551_615
  }

  /** Why the tracker refuses a frame that is in time. */
  ghost function TrackFault(config: T.Config, s: T.TrackerState, g: Group): Option<T.Refusal> {
    if |g.detections| > 256 then Some(T.TooManyDetections)
    else if !T.AllValid(g.detections) then Some(T.InvalidDetection)
    else if !Fits(config, s, g) then Some(T.CapacityExhausted)
    else None
  }

  lemma {:induction false} TrackFaultExact(config: T.Config, s: T.TrackerState, g: Group)
    requires T.Sound(config, s) && (s.started ==> s.lastUpdate < TimeOf(g.elapsed))
    ensures T.Update(config, s, g.detections, TimeOf(g.elapsed)).1 == TrackFault(config, s, g)
  {
    if T.Refused(s, g.detections, TimeOf(g.elapsed)).None? { L.CapacityExact(config, s, g.detections, TimeOf(g.elapsed)); }
  }

  /** Why the next group in time fails, told from the group and the tracks alone: too many or invalid
      boxes, no room for them, or a stamp before 1970. It is never the time of the frame, nor the engine. */
  ghost function FlushFault(setup: Setup, s: ReplayState, g: Group): (fault: Option<FlushError>)
    ensures fault != Some(TrackerFailed(T.NotLater)) && (fault.Some? ==> !fault.value.EngineFailed?)
  {
    var why := TrackFault(setup.config, s.tracker, g);
    if g.kind != TickRow && why.Some? then Some(TrackerFailed(why.value))
    else if g.stamp < 0 then Some(RecordFailed)
    else None
  }

  function Frames(g: Group): nat { if g.kind == TickRow then 0 else 1 }

  /** The flush of the next group in time fails exactly for the reasons above, in that order. */
  lemma {:induction false} FlushedUpTo(setup: Setup, s: ReplayState, elapsed: Option<nat>, g: Group)
    requires UpTo(setup, s, elapsed) && Later(elapsed, g)
    ensures match Flushed(setup, s, g)
            case Success(s') => FlushFault(setup, s, g).None? && Kept(setup, Success(s'), g, s.sequence + Frames(g), s.log)
            case Failure(e) => FlushFault(setup, s, g) == Some(e)
  {
    if g.kind == TickRow {
      TickUpTo(setup, s, elapsed, g);
    } else {
      TrackFaultExact(setup.config, s.tracker, g);
      if TrackFault(setup.config, s.tracker, g).None? {
        AcceptedTracked(setup.config, s.tracker, g);
        FramedUpTo(setup, s, elapsed, g, T.Update(setup.config, s.tracker, g.detections, TimeOf(g.elapsed)).0);
      }
    }
  }

  // ----- whole replays -----

  function FramesIn(groups: seq<Group>): nat { if |groups| == 0 then 0 else FramesIn(Front(groups)) + Frames(Last(groups)) }

  function TimeOfLast(groups: seq<Group>): Option<nat> { if |groups| == 0 then None else Some(Last(groups).elapsed) }

  function AllFlushed(setup: Setup, source: string, groups: seq<Group>): Result<ReplayState, FlushError> {
    FlushAll(FlushOf(setup), NewReplay(source), groups)
  }

  /** Group k is the one that fails, after those before it have been flushed. */
  ghost predicate Fails(setup: Setup, source: string, groups: seq<Group>, k: nat, e: FlushError) {
    k < |groups| && AllFlushed(setup, source, groups[..k]).Success? &&
    FlushFault(setup, AllFlushed(setup, source, groups[..k]).value, groups[k]) == Some(e)
  }

  /** Replayed to the end, every frame counted and every group recorded, if no group fails; and
      stopped with the failure of the group that does. */
  ghost predicate Replayed(setup: Setup, source: string, groups: seq<Group>) {
    match AllFlushed(setup, source, groups)
    case Success(s) =>
      && Finished(setup, s, groups)
      && forall k, e :: !Fails(setup, source, groups, k, e)
    case Failure(e) => exists k :: Fails(setup, source, groups, k, e)
  }

  ghost predicate Finished(setup: Setup, s: ReplayState, groups: seq<Group>) {
    && UpTo(setup, s, TimeOfLast(groups)) && s.sequence == FramesIn(groups) && |s.log| == |groups|
    && forall i | 0 <= i < |groups| :: s.log[i].at == groups[i].stamp
  }

  lemma {:induction false} FailsStill(setup: Setup, source: string, groups: seq<Group>, k: nat, e: FlushError)
    requires |groups| > 0
    ensures Fails(setup, source, groups, k, e) <==>
            if k == |groups| - 1 then
              AllFlushed(setup, source, Front(groups)).Success? &&
              FlushFault(setup, AllFlushed(setup, source, Front(groups)).value, Last(groups)) == Some(e)
            else Fails(setup, source, Front(groups), k, e)
  {
    if k < |groups| - 1 { assert Front(groups)[..k] == groups[..k]; }
  }

  lemma {:induction false} FinishedNext(setup: Setup, s: ReplayState, groups: seq<Group>, g: Group, s': ReplayState)
    requires Finished(setup, s, groups) && Kept(setup, Success(s'), g, s.sequence + Frames(g), s.log)
    ensures Finished(setup, s', groups + [g])
  {
    assert Front(groups + [g]) == groups;
  }

  lemma {:induction false} AllReplayed(setup: Setup, source: string, groups: seq<Group>)
    requires setup.Built() && source != "" && Increasing(groups)
    ensures Replayed(setup, source, groups)
  {
    if |groups| == 0 {
      NewHealthy(setup.senses, source, EPOCH);
    } else {
      AllReplayed(setup, source, Front(groups));
      match AllFlushed(setup, source, Front(groups))
      case Success(s) => NextReplayed(setup, source, groups, s);
      case Failure(e) =>
        var k :| Fails(setup, source, Front(groups), k, e);
        FailsStill(setup, source, groups, k, e);
    }
  }

  lemma {:induction false} NextReplayed(setup: Setup, source: string, groups: seq<Group>, s: ReplayState)
    requires |groups| > 0 && Increasing(groups) && Replayed(setup, source, Front(groups))
    requires AllFlushed(setup, source, Front(groups)) == Success(s)
    ensures Replayed(setup, source, groups)
  {
    var front, g := Front(groups), Last(groups);
    FlushedUpTo(setup, s, TimeOfLast(front), g);
    match Flushed(setup, s, g)
    case Success(s') =>
      FinishedNext(setup, s, front, g, s');
      assert front + [g] == groups;
      forall k, e ensures !Fails(setup, source, groups, k, e) { FailsStill(setup, source, groups, k, e); }
    case Failure(e) =>
      FailsStill(setup, source, groups, |groups| - 1, e);
      assert Fails(setup, source, groups, |groups| - 1, e);
  }

  /** Any well-formed list of rows is replayed to the end, exactly if none of its groups fails when its
      turn comes; the failure of the replay is the failure of that group. */
  lemma {:induction false} WellFormedReplay(setup: Setup, source: string, rows: seq<Row>)
    requires setup.Built() && source != "" && GroupsOf(rows).Grouped?
    ensures Replayed(setup, source, GroupsOf(rows).groups)
  {
    GroupsIncrease(rows);
    AllReplayed(setup, source, GroupsOf(rows).groups);
  }

  /** In every replay of increasing groups the stored events never repeat a state within a category, and
      the last one of each category is the state of the engine. */
  lemma {:induction false} ReplayedEventsTell(setup: Setup, source: string, groups: seq<Group>)
    requires setup.Built() && source != "" && Increasing(groups) && AllFlushed(setup, source, groups).Success?
    ensures var s := AllFlushed(setup, source, groups).value;
            && s.events == s.engine.past.events && TellsChanges(s.events)
            && LastTold(s.events, Person) == s.engine.context.person && LastTold(s.events, Cat) == s.engine.context.cat
            && LastTold(s.events, Pet) == s.engine.context.petState
  {
    AllReplayed(setup, source, groups);
  }
}
