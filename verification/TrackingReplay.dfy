/** The replay itself: it reads rows one by one, collects the rows of one time into a sample, and
    flushes the sample into tracker, engine and store when a later row begins the next one. */
module TrackingReplay {
  import opened Common
  import opened Geometry
  import opened Contexts
  import opened Engine
  import opened LiveLaws
  import opened Reading
  import opened Replay
  import opened ReplayLaws
  import Activity
  import T = Tracking
  import BT = BoxTracker
  import CE = ContextEngine
  import ES = EventStore

  class TrackingReplay {
    const tracker: BT.BoxTracker
    const engine: CE.ContextEngine
    const store: ES.EventStore
    const source: string
    var sample: Group
    var pending: bool
    var sequence: nat
    var rows: nat

    ghost function Setup(): ReplayLaws.Setup {
      ReplayLaws.Setup(tracker.config, TrackerOf(tracker.config), Activity.SensesOf(engine.activity.libm))
    }

    ghost function Now(): ReplayState
      reads this, tracker, engine, engine.activity, engine.person, engine.cat, store
    {
      ReplayState(engine.Now(), tracker.State(), sequence, store.events, store.log)
    }

    /** The result of a flush: a failure, or else the new state. */
    ghost function Outcome(failure: Option<FlushError>): Result<ReplayState, FlushError>
      reads this, tracker, engine, engine.activity, engine.person, engine.cat, store
    {
      if failure.Some? then Failure(failure.value) else Success(Now())
    }

    /** The frame is tracked and counted, and the engine has not seen it yet. */
    ghost predicate Counted(before: ReplayState, tracked: T.TrackerState)
      reads this, tracker, engine, engine.activity, engine.person, engine.cat, store
    {
      && before.engine == engine.Now() && before.events == store.events && before.log == store.log
      && sequence == before.sequence + 1
      && tracked == tracker.State()
    }

    function Sampled(): Option<Group>
      reads this
    {
      if pending then Some(sample) else None
    }

    ghost predicate Valid()
      reads this, tracker, engine, engine.activity, engine.person, engine.cat, store
    {
      tracker.Valid() && engine.Valid() && store.Valid()
    }

    constructor (source: string, config: T.Config, libm: Activity.Libm)
      requires source != "" && config.Valid()
      ensures Valid() && Now() == NewReplay(source) && Sampled() == None && rows == 0
      ensures fresh(tracker) && fresh(engine) && fresh(engine.activity) && fresh(engine.person) && fresh(engine.cat)
      ensures fresh(store) && this.source == source
      ensures Setup() == ReplayLaws.Setup(config, TrackerOf(config), Activity.SensesOf(libm))
    {
      this.source := source;
      tracker := new BT.BoxTracker(config);
      engine := new CE.ContextEngine(source, EPOCH, libm);
      store := new ES.EventStore();
      sample, pending, sequence, rows := Group(0, OtherKind, 0, []), false, 0, 0;
    }

    /** Why a row is refused; everything is checked before the pending sample is committed. */
    method Check(row: Row) returns (fault: Option<RowError>)
      ensures fault == Fault(row, Sampled())
    {
      if row.fields != 9 || row.stamp.None? {
        return Some(BadRow);
      }
      if row.elapsed.None? {
        return Some(BadTime);
      }
      if row.elapsed.value > DAY_MS || (pending && row.elapsed.value < sample.elapsed) {
        return Some(TimeGoesBack);
      }
      if row.kind == OtherKind {
        return Some(BadKind);
      }
      var sameFrame := pending && row.elapsed.value == sample.elapsed;
      if sameFrame && (row.kind != DetectionRow || sample.kind != DetectionRow || row.stamp.value != sample.stamp) {
        return Some(MixedFrame);
      }
      if row.kind == DetectionRow {
        if row.classText != Zero && row.classText != Fifteen {
          return Some(BadClass);
        }
        fault := if row.Numeric() then None else Some(BadNumber);
      } else {
        if row.classText != MinusOne {
          return Some(BadClass);
        }
        fault := CheckMarker(row);
      }
    }

    method CheckMarker(row: Row) returns (fault: Option<RowError>)
      ensures fault == MarkerFault(row)
    {
      var measures := row.Measures();
      for i := 0 to 5
        invariant 0 < i ==> MeasureFault(row.confidence).None?
        invariant 1 < i ==> MeasureFault(row.x).None?
        invariant 2 < i ==> MeasureFault(row.y).None?
        invariant 3 < i ==> MeasureFault(row.width).None?
        invariant 4 < i ==> MeasureFault(row.height).None?
      {
        if measures[i].None? {
          return Some(BadNumber);
        }
        if measures[i].value != 0.0 {
          return Some(BadMarker);
        }
      }
      fault := None;
    }

    /** Commits the sample: a tick or a frame. */
    method Flush(ghost s: ReplayState) returns (failure: Option<FlushError>)
      requires Valid() && s == Now()
      modifies this`sequence, tracker, engine, engine.activity, engine.person, engine.cat, store
      ensures failure.None? ==> Valid()
      ensures Flushed(Setup(), s, sample) == Outcome(failure)
    {
      if sample.kind == TickRow {
        failure := FlushTick(s);
      } else {
        failure := FlushFrame(s);
      }
    }

    method FlushTick(ghost s: ReplayState) returns (failure: Option<FlushError>)
      requires Valid() && sample.kind == TickRow && s == Now()
      modifies tracker, engine, engine.activity, engine.person, engine.cat, store
      ensures failure.None? ==> Valid()
      ensures Flushed(Setup(), s, sample) == Outcome(failure)
    {
      var events := engine.Tick(TimeOf(sample.elapsed), sample.stamp);
      if engine.context.health == HealthOffline {
        tracker.Reset();
      }
      assert Now() == Idled(s, Ticked(Setup().senses, s.engine, TimeOf(sample.elapsed), sample.stamp));
      assert events == News(s.engine, engine.Now());
      failure := Emit(events, Now());
    }

    method FlushFrame(ghost s: ReplayState) returns (failure: Option<FlushError>)
      requires Valid() && sample.kind != TickRow && s == Now()
      modifies this`sequence, tracker, engine, engine.activity, engine.person, engine.cat, store
      ensures failure.None? ==> Valid()
      ensures Flushed(Setup(), s, sample) == Outcome(failure)
    {
      assert T.Sound(tracker.config, tracker.State()) by { BT.ValidIsSound(tracker); }
      sequence := sequence + 1;
      var updated := tracker.Update(sample.detections, TimeOf(sample.elapsed));
      if updated.Failure? {
        return Some(TrackerFailed(updated.error));
      }
      failure := Observe(updated.value, s, tracker.State());
    }

    /** Makes the observation of the tracked sample. */
    method Observe(tracks: seq<T.Snapshot>, ghost before: ReplayState, ghost tracked: T.TrackerState)
      returns (failure: Option<FlushError>)
      requires Valid() && T.AllValid(sample.detections) && tracks == T.Snapshots(tracked.tracks)
      requires Counted(before, tracked)
      modifies engine, engine.activity, engine.person, engine.cat, store
      ensures failure.None? ==> Valid()
      ensures Framed(Setup().senses, before, sample, tracked) == Outcome(failure)
    {
      var people, cats, personConfidence, catConfidence := Count(sample.detections);
      var observation := Observation(engine.context.source, Some(sample.stamp), TimeOf(sample.elapsed), sequence, 0,
                                     people, cats, personConfidence, catConfidence, tracks, 0.0);
      assert observation == ObservationOf(before.engine.context.source, sample, before.sequence + 1, tracks);
      failure := Feed(observation, before, tracked);
    }

    method Feed(observation: Observation, ghost before: ReplayState, ghost tracked: T.TrackerState)
      returns (failure: Option<FlushError>)
      requires Valid() && Counted(before, tracked)
      modifies engine, engine.activity, engine.person, engine.cat, store
      ensures failure.None? ==> Valid()
      ensures Engaged(Setup().senses, before, sample, tracked, observation) == Outcome(failure)
    {
      var observed := engine.Observe(observation, TimeOf(sample.elapsed));
      if observed.Failure? {
        return Some(EngineFailed(observed.error));
      }
      assert Now() == Advanced(before, Taken(Setup().senses, before.engine, observation, TimeOf(sample.elapsed)), tracked);
      assert observed.value == News(before.engine, engine.Now());
      failure := Emit(observed.value, Now());
    }

    /** Counts and best confidences by class. */
    method Count(detections: seq<Detection>)
      returns (people: nat, cats: nat, personConfidence: real, catConfidence: real)
      requires T.AllValid(detections)
      ensures people == CountClass(detections, PERSON) && cats == CountClass(detections, CAT)
      ensures personConfidence == TopConfidence(detections, PERSON) && catConfidence == TopConfidence(detections, CAT)
    {
      people, cats, personConfidence, catConfidence := 0, 0, 0.0, 0.0;
      for i := 0 to |detections|
        invariant people == CountClass(detections[..i], PERSON) && cats == CountClass(detections[..i], CAT)
        invariant personConfidence == TopConfidence(detections[..i], PERSON)
        invariant catConfidence == TopConfidence(detections[..i], CAT)
      {
        assert Front(detections[..i + 1]) == detections[..i];
        var d := detections[i];
        assert d in detections;
        if d.classId == PERSON {
          people := people + 1;
          personConfidence := MaxReal(personConfidence, d.confidence);
        } else {
          cats := cats + 1;
          catConfidence := MaxReal(catConfidence, d.confidence);
        }
      }
      assert detections[..|detections|] == detections;
    }

    /** Stores the events and records the context. */
    method Emit(events: seq<Event>, ghost s: ReplayState) returns (failure: Option<FlushError>)
      requires Valid() && s == Now()
      modifies store
      ensures failure.None? ==> Valid()
      ensures Emitted(s, events, sample.stamp) == Outcome(failure)
    {
      var i := 0;
      while i < |events|
        invariant 0 <= i <= |events|
        invariant store.events == old(store.events) + events[..i]
        invariant store.rows == old(store.rows) && store.log == old(store.log)
      {
        assert events[..i + 1] == events[..i] + [events[i]];
        store.Append(events[i]);
        i := i + 1;
      }
      assert events[..i] == events;
      var recorded := store.RecordContext(EntryOf(engine.context, sample.stamp));
      failure := if recorded.Failure? then Some(RecordFailed) else None;
    }

    /** A detection row joins the sample. */
    method Join(row: Row)
      requires pending && (row.kind == DetectionRow ==> row.Numeric())
      modifies this`sample
      ensures sample == old(sample).(detections := old(sample).detections + DetectionsOf(row))
    {
      if row.kind == DetectionRow {
        sample := sample.(detections := sample.detections + [row.Measured()]);
      }
    }

    /** One row: refused, joined to the sample, or the first of the next sample, which commits this one. */
    method Read(row: Row, ghost s: ReplayState)
      returns (failure: Option<ReplayError<FlushError>>)
      requires Valid() && s == Now()
      modifies this`sample, this`pending, this`sequence, this`rows, tracker, engine, engine.activity, engine.person,
               engine.cat, store
      ensures RowResult(FlushOf(Setup()), s, old(Sampled()), row, failure, Now())
      ensures failure.None? ==> Valid() && rows == old(rows) + 1
      ensures failure.None? && Readable(row) ==> Sampled() == Some(NextSample(old(Sampled()), row))
    {
      var fault := Check(row);
      if fault.Some? {
        return Some(BadInput(fault.value));
      }
      if !(pending && row.elapsed.value == sample.elapsed) {
        if pending {
          var failed := Flush(s);
          if failed.Some? {
            return Some(FlushFailed(failed.value));
          }
        }
        sample, pending := Group(row.elapsed.value, row.kind, row.stamp.value, []), true;
        assert [] + DetectionsOf(row) == DetectionsOf(row);
      }
      Join(row);
      rows := rows + 1;
      failure := None;
    }

    /** Where the reading stands: the last group is the sample, the others are committed. */
    ghost predicate Reading(groups: seq<Group>)
      reads this, tracker, engine, engine.activity, engine.person, engine.cat, store
    {
      && Valid() && Sampled() == Pending(groups)
      && FlushAll(FlushOf(Setup()), NewReplay(source), AllButPending(groups)) == Success(Now())
    }

    method ReadNext(row: Row, ghost groups: seq<Group>)
      returns (failure: Option<ReplayError<FlushError>>)
      requires Reading(groups)
      modifies this`sample, this`pending, this`sequence, this`rows, tracker, engine, engine.activity, engine.person,
               engine.cat, store
      ensures var after := GroupNext(Grouped(groups), row, old(rows));
              && (failure.None? ==> rows == old(rows) + 1 && after.Grouped? && Reading(after.groups))
              && (failure.Some? ==>
                    StoppedBy(FlushOf(Setup()), NewReplay(source), Grouped(groups), after, old(rows), failure.value, Now()))
    {
      ghost var s := Now();
      failure := Read(row, s);
      NextRow(FlushOf(Setup()), NewReplay(source), groups, row, old(rows), s, failure, Now());
    }

    /** The whole input: counts the rows, or stops at the first failure. */
    method Run(input: seq<Row>)
      returns (r: Result<nat, ReplayError<FlushError>>)
      requires Valid() && Now() == NewReplay(source) && !pending && rows == 0
      modifies this`sample, this`pending, this`sequence, this`rows, tracker, engine, engine.activity, engine.person,
               engine.cat, store
      ensures Results(FlushOf(Setup()), NewReplay(source), input, r, Now())
    {
      ghost var groups := [];
      while rows < |input|
        invariant rows <= |input| && GroupsOf(input[..rows]) == Grouped(groups) && Reading(groups)
        modifies this`sample, this`pending, this`sequence, this`rows, tracker, engine, engine.activity, engine.person,
                 engine.cat, store
      {
        var failure := ReadRow(input, groups);
        if failure.Some? {
          return Failure(failure.value);
        }
        groups := GroupsOf(input[..rows]).groups;
      }
      assert input[..rows] == input;
      r := Finish(input, groups);
    }

    /** The next row of the input. */
    method ReadRow(input: seq<Row>, ghost groups: seq<Group>) returns (failure: Option<ReplayError<FlushError>>)
      requires rows < |input| && GroupsOf(input[..rows]) == Grouped(groups) && Reading(groups)
      modifies this`sample, this`pending, this`sequence, this`rows, tracker, engine, engine.activity, engine.person,
               engine.cat, store
      ensures failure.None? ==>
                && rows == old(rows) + 1 && GroupsOf(input[..rows]).Grouped?
                && Reading(GroupsOf(input[..rows]).groups)
      ensures failure.Some? ==> Results(FlushOf(Setup()), NewReplay(source), input, Failure(failure.value), Now())
    {
      ghost var i := rows;
      GroupsSnoc(input, i);
      failure := ReadNext(input[rows], groups);
      if failure.Some? {
        Stopped(FlushOf(Setup()), NewReplay(source), input, i, failure.value, Now());
      }
    }

    /** The end of the input commits the last sample. */
    method Finish(ghost input: seq<Row>, ghost groups: seq<Group>)
      returns (r: Result<nat, ReplayError<FlushError>>)
      requires GroupsOf(input) == Grouped(groups) && rows == |input| && Reading(groups)
      modifies this`sequence, tracker, engine, engine.activity, engine.person, engine.cat, store
      ensures Results(FlushOf(Setup()), NewReplay(source), input, r, Now())
    {
      if !pending {
        return Failure(Empty);
      }
      var failed := Flush(Now());
      assert FlushAll(FlushOf(Setup()), NewReplay(source), groups) == Outcome(failed);
      r := if failed.Some? then Failure(FlushFailed(failed.value)) else Success(rows);
    }
  }
}
