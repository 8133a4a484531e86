/** The service itself: it owns tracker, engine, appearance vote and store, and drives them from the
    loop. Each pass does what the function Service.Pass says. */
module LiveLoop {
  import opened Common
  import opened Geometry
  import opened Contexts
  import opened Engine
  import opened LiveLaws
  import opened Service
  import Activity
  import T = Tracking
  import BT = BoxTracker
  import CE = ContextEngine
  import ES = EventStore
  import PA = Appearance

  class ContextService {
    const interval: Time
    const tracker: BT.BoxTracker
    const engine: CE.ContextEngine
    const appearance: PA.PetAppearance
    const store: ES.EventStore
    var next: Time
    var inferred: nat
    /** The snapshot served to clients. */
    var current: Context

    ghost function Setup(): Service.Setup {
      Service.Setup(tracker.config, TrackerOf(tracker.config), Activity.SensesOf(engine.activity.libm), appearance.names, interval)
    }

    ghost function Now(): ServiceState
      reads this, tracker, engine, engine.activity, engine.person, engine.cat, appearance, store
    {
      ServiceState(engine.Now(), tracker.State(), appearance.Now(), store.events, store.log, next, inferred, current)
    }

    /** The result of a pass: a failure, or else the new state. */
    ghost function Outcome(failure: Option<Failure>): Result<ServiceState, Failure>
      reads this, tracker, engine, engine.activity, engine.person, engine.cat, appearance, store
    {
      if failure.Some? then Failure(failure.value) else Success(Now())
    }

    ghost predicate Valid()
      reads this, tracker, engine, engine.activity, engine.person, engine.cat, store
    {
      tracker.Valid() && engine.Valid() && store.Valid()
    }

    constructor (source: string, started: Time, interval: Time, config: T.Config, libm: Activity.Libm,
                 names: seq<string>)
      requires source != "" && config.Valid()
      requires forall i, j | 0 <= i < j < |names| :: names[i] != names[j]
      requires forall i | 0 <= i < |names| :: names[i] != ""
      ensures Valid() && Now() == Start(Setup(), source, started)
      ensures fresh(tracker) && fresh(appearance) && fresh(store)
      ensures fresh(engine) && fresh(engine.activity) && fresh(engine.person) && fresh(engine.cat)
      ensures Setup() == Service.Setup(config, TrackerOf(config), Activity.SensesOf(libm), names, interval)
    {
      this.interval := interval;
      tracker := new BT.BoxTracker(config);
      engine := new CE.ContextEngine(source, started, libm);
      appearance := new PA.PetAppearance(names);
      store := new ES.EventStore();
      next, inferred, current := started, 0, NewContext(source);
    }

    /** One pass of the loop. */
    method Step(turn: Turn) returns (failure: Option<Failure>)
      requires Valid()
      requires turn.frame.Some? ==> |turn.frame.value.scores| == |appearance.names|
      modifies this`next, this`inferred, this`current, tracker, engine, engine.activity, engine.person, engine.cat,
               appearance, store`events, store`rows, store`log
      ensures failure.None? ==> Valid()
      ensures Pass(Setup(), old(Now()), turn) == Outcome(failure)
    {
      if turn.frame.Some? && turn.now - turn.frame.value.received < FRAME_MAX_AGE {
        failure := Arrive(turn.frame.value, turn.now);
      } else {
        failure := Rest(turn.now, turn.utc);
      }
    }

    /** A timely frame: heard at once, inferred if an inference is due. */
    method Arrive(frame: Frame, now: Time) returns (failure: Option<Failure>)
      requires Valid() && |frame.scores| == |appearance.names|
      modifies this`next, this`inferred, this`current, tracker, engine, engine.activity, engine.person, engine.cat,
               appearance, store`events, store`rows, store`log
      ensures failure.None? ==> Valid()
      ensures Arrived(Setup(), old(Now()), frame, now) == Outcome(failure)
    {
      ghost var before := Now();
      engine.FrameReceived(frame.received, now);
      ghost var heard := Now();
      assert heard == before.(engine := Heard(before.engine, frame.received, now));
      if now < next {
        return None;
      }
      next := frame.done + interval;
      inferred := inferred + 1;
      assert Now() == Due(Setup(), heard, frame);
      failure := Infer(frame, Now());
      ArrivedDue(Setup(), before, heard, frame, now);
    }

    /** No timely frame: the clock ticks, and an offline camera restarts the tracker. */
    method Rest(now: Time, utc: int) returns (failure: Option<Failure>)
      requires Valid()
      modifies this`current, tracker, engine, engine.activity, engine.person, engine.cat, appearance,
               store`events, store`rows, store`log
      ensures failure.None? ==> Valid()
      ensures Idle(Setup(), old(Now()), now, utc) == Outcome(failure)
    {
      ghost var before := Now();
      var events := engine.Tick(now, utc);
      assert events == News(before.engine, engine.Now());
      assert Now() == before.(engine := engine.Now());
      failure := Publish(events, utc);
      if failure.None? && engine.context.health == HealthOffline {
        tracker.Reset();
      }
    }

    /** Tracks, votes on and observes the detections of a frame, and publishes the result. */
    method Infer(frame: Frame, ghost s: ServiceState) returns (failure: Option<Failure>)
      requires Valid() && |frame.scores| == |appearance.names| && s == Now()
      modifies this`current, tracker, engine, engine.activity, engine.person, engine.cat, appearance,
               store`events, store`rows, store`log
      ensures failure.None? ==> Valid()
      ensures Inferred(Setup(), s, frame) == Outcome(failure)
    {
      var tracks;
      failure, tracks := Track(frame);
      if failure.None? {
        failure := Observe(frame, tracks);
      }
    }

    /** Updates the tracker and the vote, unless inference took too long for the frame to count. */
    method Track(frame: Frame) returns (failure: Option<Failure>, tracks: seq<T.Snapshot>)
      requires Valid() && |frame.scores| == |appearance.names|
      modifies tracker, appearance
      ensures failure.None? ==> Valid()
      ensures failure.None? ==> Tracked(Setup(), old(Now()), frame) == Success((Now(), tracks))
      ensures failure.Some? ==> Tracked(Setup(), old(Now()), frame) == Failure(failure.value)
    {
      failure, tracks := None, [];
      assert T.Sound(tracker.config, tracker.State()) by { BT.ValidIsSound(tracker); }
      if frame.done - frame.received < FRAME_MAX_AGE {
        var updated := tracker.Update(frame.detections, frame.received);
        if updated.Failure? {
          return Some(TrackerFailed(updated.error)), [];
        }
        tracks := updated.value;
        appearance.Observe(frame.Picture(), tracks);
      }
    }

    method Observe(frame: Frame, tracks: seq<T.Snapshot>) returns (failure: Option<Failure>)
      requires Valid()
      modifies this`current, engine, engine.activity, engine.person, engine.cat, appearance,
               store`events, store`rows, store`log
      ensures failure.None? ==> Valid()
      ensures Witnessed(Setup(), old(Now()), frame, tracks) == Outcome(failure)
    {
      var people, cats, personConfidence, catConfidence := Count(frame.detections);
      var observation := Observation(engine.context.source, Some(frame.observedAt), frame.received, frame.sequence,
                                     frame.dropped, people, cats, personConfidence, catConfidence, tracks,
                                     (frame.done - frame.begin) as real / 1000000.0);
      assert observation == ObservationOf(engine.context.source, frame, tracks);
      failure := Feed(observation, frame.done, frame.observedAt);
    }

    method Feed(observation: Observation, now: Time, at: int) returns (failure: Option<Failure>)
      requires Valid()
      modifies this`current, engine, engine.activity, engine.person, engine.cat, appearance,
               store`events, store`rows, store`log
      ensures failure.None? ==> Valid()
      ensures var before := old(Now());
              var rejected := Rejected(before.engine, observation);
              if rejected.Some? then failure == Some(EngineFailed(rejected.value))
              else Moved(before, Taken(Setup().senses, before.engine, observation, now), at) == Outcome(failure)
    {
      ghost var before := Now();
      var observed := engine.Observe(observation, now);
      if observed.Failure? {
        return Some(EngineFailed(observed.error));
      }
      assert observed.value == News(before.engine, engine.Now());
      assert Now() == before.(engine := engine.Now());
      failure := Publish(observed.value, at);
    }

    /** Counts and best confidences by class. */
    method Count(detections: seq<Detection>)
      returns (people: nat, cats: nat, personConfidence: real, catConfidence: real)
      ensures people == CountClass(detections, PERSON) && cats == CountClass(detections, CAT)
      ensures personConfidence == TopConfidence(detections, PERSON) && catConfidence == TopConfidence(detections, CAT)
    {
      people, cats, personConfidence, catConfidence := 0, 0, 0.0, 0.0;
      for i := 0 to |detections|
        invariant people == CountClass(detections[..i], PERSON) && cats == CountClass(detections[..i], CAT)
        invariant personConfidence == TopConfidence(detections[..i], PERSON)
        invariant catConfidence == TopConfidence(detections[..i], CAT)
      {
        assert Front(detections[..i + 1]) == detections[..i];
        var d := detections[i];
        if d.classId == PERSON {
          people := people + 1;
          personConfidence := MaxReal(personConfidence, d.confidence);
        }
        if d.classId == CAT {
          cats := cats + 1;
          catConfidence := MaxReal(catConfidence, d.confidence);
        }
      }
      assert detections[..|detections|] == detections;
    }

    method AppendAll(events: seq<Event>)
      modifies store`events
      ensures store.events == old(store.events) + events
    {
      var i := 0;
      while i < |events|
        invariant 0 <= i <= |events|
        invariant store.events == old(store.events) + events[..i]
      {
        assert events[..i + 1] == events[..i] + [events[i]];
        store.Append(events[i]);
        i := i + 1;
      }
      assert events[..i] == events;
    }

    /** Stores the events and the context, and replaces the served snapshot. */
    method Publish(events: seq<Event>, at: int) returns (failure: Option<Failure>)
      requires Valid()
      modifies this`current, appearance, store`events, store`rows, store`log
      ensures failure.None? ==> Valid()
      ensures Published(old(Now()), events, at) == Outcome(failure)
    {
      if engine.context.health == HealthOffline {
        appearance.Clear();
      }
      AppendAll(events);
      var recorded := store.RecordContext(EntryOf(engine.context, at));
      if recorded.Failure? {
        return Some(RecordFailed);
      }
      current := engine.context.(portrait := appearance.portrait);
      failure := None;
    }
  }
}
