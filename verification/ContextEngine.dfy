/** The state engine, which owns the presence machines and the movement heuristic and updates them
    and its context in place. */
module ContextEngine {
  import opened Common
  import opened Contexts
  import opened Activity
  import opened Engine
  import A = PetActivity
  import P = Presence

  datatype SourceError = EmptySource

  class ContextEngine {
    const activity: A.PetActivity
    const person: P.PresenceState
    const cat: P.PresenceState
    var context: Context
    var lastFrame: Time
    var lastObservation: Time
    var hasObservation: bool
    ghost var past: History

    ghost function Now(): EngineState
      reads this, activity, person, cat
    {
      EngineState(context, activity.Now(), person.Now(), cat.Now(), lastFrame, lastObservation, hasObservation, past)
    }

    ghost predicate Valid()
      reads this, activity, person, cat
    {
      person != cat && person.category == Person && cat.category == Cat
    }

    constructor (source: string, started: Time, libm: Libm)
      requires source != ""
      ensures Valid() && fresh(activity) && fresh(person) && fresh(cat) && activity.libm == libm
      ensures Now() == NewEngine(source, started)
    {
      activity := new A.PetActivity(libm);
      person := new P.PresenceState(Person);
      cat := new P.PresenceState(Cat);
      context := NewContext(source);
      lastFrame, lastObservation, hasObservation := started, 0, false;
      past := History([], [], [], []);
    }

    /** An engine for any source name; the empty one is refused. */
    static method Create(source: string, started: Time, libm: Libm) returns (r: Result<ContextEngine, SourceError>)
      ensures r.Success? <==> source != ""
      ensures r.Success? ==>
                && fresh(r.value) && fresh(r.value.activity) && fresh(r.value.person) && fresh(r.value.cat)
                && r.value.Valid() && r.value.activity.libm == libm && r.value.Now() == NewEngine(source, started)
    {
      if source == "" {
        return Failure(EmptySource);
      }
      var engine := new ContextEngine(source, started, libm);
      r := Success(engine);
    }

    /** A heartbeat of the camera, independent of inference. */
    method FrameReceived(received: Time, now: Time)
      requires Valid()
      modifies this`lastFrame
      ensures Valid() && Now() == Heard(old(Now()), received, now)
    {
      if received <= now && now - received < FRAME_MAX_AGE && received > lastFrame {
        lastFrame := received;
      }
    }

    /** An inferred sample. Returns the transitions. */
    method Observe(o: Observation, now: Time) returns (r: Result<seq<Event>, EngineError>)
      requires Valid()
      modifies this, activity, person, cat
      ensures Valid()
      ensures Rejected(old(Now()), o).Some? ==>
                r == Failure(Rejected(old(Now()), o).value) && Now() == old(Now())
      ensures Rejected(old(Now()), o).None? ==>
                && r.Success? && Now() == Taken(SensesOf(activity.libm), old(Now()), o, now)
                && past.events == old(past.events) + r.value
    {
      if o.source != context.source {
        return Failure(ForeignSource);
      }
      if o.observedAt.None? || !ValidConfidence(o.personConfidence) || !ValidConfidence(o.catConfidence) ||
         o.inferenceMs < 0.0 || o.sequence == 0 {
        return Failure(InvalidObservation);
      }
      if o.received > now || now - o.received >= FRAME_MAX_AGE ||
         (hasObservation && (o.sequence <= context.sequence || o.received < lastObservation)) {
        return Success([]);
      }
      FrameReceived(o.received, now);
      lastObservation, hasObservation := o.received, true;
      assert Now() == Heard(old(Now()), o.received, now).(lastObservation := o.received, hasObservation := true);
      var next := context.(health := Online, personCount := o.personCount, catCount := o.catCount, sequence := o.sequence,
                           dropped := o.dropped, observedAt := o.observedAt, updated := Some(o.received),
                           inferenceMs := o.inferenceMs, tracks := o.tracks);
      var result := Feed(next, o.personCount > 0, o.personConfidence, o.catCount > 0, o.catConfidence, true, o.received,
                         o.observedAt.value);
      r := Success(result);
    }

    /** A clock tick: without a frame for five seconds the camera is offline. */
    method Tick(now: Time, at: int) returns (result: seq<Event>)
      requires Valid()
      modifies this, activity, person, cat
      ensures Valid() && Now() == Ticked(SensesOf(activity.libm), old(Now()), now, at)
      ensures past.events == old(past.events) + result
    {
      if now - lastFrame < CAPTURE_TIMEOUT {
        return [];
      }
      var next := context.(health := HealthOffline, tracks := [], personCount := 0, catCount := 0);
      result := Feed(next, false, 0.0, false, 0.0, false, now, at);
    }

    /** Feeds the presence machines and the movement heuristic and publishes what they say. */
    method Feed(next: Context, seesPerson: bool, personConfidence: real, seesCat: bool, catConfidence: real,
                online: bool, now: Time, at: int) returns (result: seq<Event>)
      requires Valid()
      modifies this`context, this`past, activity, person, cat
      ensures Valid() && past.events == old(past.events) + result
      ensures Now() == Absorb(SensesOf(activity.libm), old(Now()), next,
                              P.Look(seesPerson, online, now), if seesPerson && online then personConfidence else 0.0,
                              P.Look(seesCat, online, now), if seesCat && online then catConfidence else 0.0, now, at)
    {
      var personEvent := person.Update(seesPerson, personConfidence, online, now, next.source, at);
      var catEvent := cat.Update(seesCat, catConfidence, online, now, next.source, at);
      context := next.(person := person.state, cat := cat.state);
      ghost var glance := Glance(Read(context), now);
      var petEvent := activity.Update(context, now, at);
      context := context.(petState := activity.state, petConfidence := activity.confidence,
                          petEvidence := activity.evidence, petAge := activity.age);
      result := AsList(personEvent) + AsList(catEvent) + AsList(petEvent);
      past := History(past.glances + [glance], past.personLooks + [P.Look(seesPerson, online, now)],
                      past.catLooks + [P.Look(seesCat, online, now)], past.events + result);
    }
  }

  function AsList(event: Option<Event>): seq<Event> { if event.Some? then [event.value] else [] }
}
