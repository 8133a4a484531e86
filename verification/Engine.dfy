/** The single-source state engine as a function of what it has been told. */
module Engine {
  import opened Common
  import opened Contexts
  import opened Activity
  import opened ActivityTrace
  import Presence
  import T = Tracking

  const FRAME_MAX_AGE: Time := 2 * SECOND
  const CAPTURE_TIMEOUT: Time := 5 * SECOND

  /** A successfully inferred sample. */
  datatype Observation = Observation(source: string, observedAt: Option<int>, received: Time, sequence: nat, dropped: nat,
                                     personCount: nat, catCount: nat, personConfidence: real, catConfidence: real,
                                     tracks: seq<T.Snapshot>, inferenceMs: real)

  datatype EngineError = ForeignSource | InvalidObservation

  predicate ValidConfidence(v: real) { 0.0 <= v <= 1.0 }

  /** What the parts of an engine have been shown and what it has told, from the start. */
  datatype History = History(glances: seq<Glance>, personLooks: seq<Presence.Look>, catLooks: seq<Presence.Look>,
                             events: seq<Event>)

  /** The engine and its history. */
  datatype EngineState = EngineState(context: Context, beliefs: Beliefs, person: Presence.Debounce,
                                     cat: Presence.Debounce, lastFrame: Time, lastObservation: Time,
                                     hasObservation: bool, past: History)

  function NewEngine(source: string, started: Time): EngineState {
    EngineState(NewContext(source), NO_BELIEFS, Presence.UNSEEN, Presence.UNSEEN, started, 0, false,
                History([], [], [], []))
  }

  // ----- the three inputs -----

  /** A frame that is not from the future, younger than two seconds and newer than the last one. */
  predicate FrameCounts(s: EngineState, received: Time, now: Time) {
    received <= now && now - received < FRAME_MAX_AGE && received > s.lastFrame
  }

  function Heard(s: EngineState, received: Time, now: Time): EngineState {
    s.(lastFrame := if FrameCounts(s, received, now) then received else s.lastFrame)
  }

  function Rejected(s: EngineState, o: Observation): Option<EngineError> {
    if o.source != s.context.source then Some(ForeignSource)
    else if o.observedAt.None? || !ValidConfidence(o.personConfidence) || !ValidConfidence(o.catConfidence) ||
            o.inferenceMs < 0.0 || o.sequence == 0 then Some(InvalidObservation)
    else None
  }

  /** Duplicate, out-of-order and stale samples are ignored. */
  predicate Ignored(s: EngineState, o: Observation, now: Time) {
    || o.received > now || now - o.received >= FRAME_MAX_AGE
    || (s.hasObservation && (o.sequence <= s.context.sequence || o.received < s.lastObservation))
  }

  function Change(source: string, category: Category, before: State, after: State, at: int,
                  confidence: real): seq<Event> {
    if after == before then [] else [Event(source, category, after, at, confidence)]
  }

  /** Feeds the presence machines and the movement heuristic and publishes what they say. */
  function Absorb(senses: Senses, s: EngineState, context: Context, person: Presence.Look, personConfidence: real,
                  cat: Presence.Look, catConfidence: real, now: Time, at: int): EngineState
  {
    var person', cat' := Presence.Step(s.person, person), Presence.Step(s.cat, cat);
    var seen := context.(person := person'.state, cat := cat'.state);
    var glance := Glance(Read(seen), now);
    var beliefs := Activity.Update(senses, s.beliefs, glance);
    var shown := seen.(petState := beliefs.state, petConfidence := beliefs.confidence, petEvidence := beliefs.evidence,
                       petAge := beliefs.age);
    var events := Change(context.source, Person, s.person.state, person'.state, at, personConfidence) +
                  Change(context.source, Cat, s.cat.state, cat'.state, at, catConfidence) +
                  Change(context.source, Pet, s.beliefs.state, beliefs.state, at, beliefs.confidence);
    s.(context := shown, beliefs := beliefs, person := person', cat := cat',
       past := History(s.past.glances + [glance], s.past.personLooks + [person], s.past.catLooks + [cat],
                       s.past.events + events))
  }

  function Taken(senses: Senses, s: EngineState, o: Observation, now: Time): EngineState
    requires Rejected(s, o).None?
  {
    if Ignored(s, o, now) then s
    else
      var context := s.context.(health := Online, personCount := o.personCount, catCount := o.catCount,
                                sequence := o.sequence, dropped := o.dropped, observedAt := o.observedAt,
                                updated := Some(o.received), inferenceMs := o.inferenceMs, tracks := o.tracks);
      var seesPerson, seesCat := o.personCount > 0, o.catCount > 0;
      Absorb(senses, Heard(s, o.received, now).(lastObservation := o.received, hasObservation := true), context,
             Presence.Look(seesPerson, true, o.received), if seesPerson then o.personConfidence else 0.0,
             Presence.Look(seesCat, true, o.received), if seesCat then o.catConfidence else 0.0,
             o.received, o.observedAt.value)
  }

  predicate TimedOut(s: EngineState, now: Time) { now - s.lastFrame >= CAPTURE_TIMEOUT }

  function Ticked(senses: Senses, s: EngineState, now: Time, at: int): EngineState {
    if !TimedOut(s, now) then s
    else
      var context := s.context.(health := HealthOffline, personCount := 0, catCount := 0, tracks := []);
      Absorb(senses, s, context, Presence.Look(false, false, now), 0.0, Presence.Look(false, false, now), 0.0, now, at)
  }

  // ----- events -----

  /** The state last told for a category. */
  function LastTold(events: seq<Event>, category: Category): State {
    if |events| == 0 then Unknown
    else if Last(events).category == category then Last(events).state
    else LastTold(Front(events), category)
  }

  /** No event repeats the state told before it in its category. */
  ghost predicate TellsChanges(events: seq<Event>) {
    |events| > 0 ==>
      TellsChanges(Front(events)) && Last(events).state != LastTold(Front(events), Last(events).category)
  }

  lemma {:induction false} ToldNext(events: seq<Event>, e: Event)
    requires TellsChanges(events)
    ensures TellsChanges(events + [e]) <==> e.state != LastTold(events, e.category)
    ensures forall c :: LastTold(events + [e], c) == if c == e.category then e.state else LastTold(events, c)
  {
    assert Front(events + [e]) == events;
  }

  lemma {:induction false} ToldChange(events: seq<Event>, source: string, category: Category, before: State,
                                      after: State, at: int, confidence: real)
    requires TellsChanges(events) && LastTold(events, category) == before
    ensures var events' := events + Change(source, category, before, after, at, confidence);
            && TellsChanges(events') && LastTold(events', category) == after
            && forall c | c != category :: LastTold(events', c) == LastTold(events, c)
  {
    if after == before {
      assert events + [] == events;
    } else {
      ToldNext(events, Event(source, category, after, at, confidence));
    }
  }

  // ----- what every run keeps -----

  /** The state machines are where their inputs took them. */
  ghost predicate Replays(senses: Senses, s: EngineState) {
    && s.beliefs == Activity.After(senses, s.past.glances)
    && s.person == Presence.After(s.past.personLooks) && s.cat == Presence.After(s.past.catLooks)
  }

  /** The published context mirrors the state machines. */
  ghost predicate Mirrors(s: EngineState) {
    var c, glances := s.context, s.past.glances;
    && c.petState == s.beliefs.state && c.petConfidence == s.beliefs.confidence
    && c.petEvidence == s.beliefs.evidence && c.petAge == s.beliefs.age
    && c.person == s.person.state && c.cat == s.cat.state
    && (|glances| == 0 <==> c.health == Starting)
    && (|glances| > 0 ==> Last(glances).reading == Read(c))
    && (c.health != Online ==> c.catCount == 0 && c.tracks == [])
  }

  /** Online glances came in order, none later than the last observation. */
  ghost predicate Ordered(s: EngineState) {
    && InOrder(s.past.glances)
    && forall g | g in s.past.glances && !g.reading.Gone? :: s.hasObservation && g.now <= s.lastObservation
  }

  /** The events tell exactly the changes that led to the present states. */
  ghost predicate Told(s: EngineState) {
    && TellsChanges(s.past.events)
    && LastTold(s.past.events, Person) == s.person.state && LastTold(s.past.events, Cat) == s.cat.state
    && LastTold(s.past.events, Pet) == s.beliefs.state
  }

  ghost predicate Sound(senses: Senses, s: EngineState) { Replays(senses, s) && Mirrors(s) && Ordered(s) && Told(s) }

  lemma {:induction false} NewSound(senses: Senses, source: string, started: Time)
    ensures Sound(senses, NewEngine(source, started))
  {
  }

  lemma {:induction false} GlanceInOrder(glances: seq<Glance>, g: Glance)
    requires InOrder(glances)
    requires forall h | h in glances && !h.reading.Gone? && !g.reading.Gone? :: h.now <= g.now
    ensures InOrder(glances + [g])
  {
    var more := glances + [g];
    forall i, j | 0 <= i < j < |more| && !more[i].reading.Gone? && !more[j].reading.Gone?
      ensures more[i].now <= more[j].now
    {
      if j == |glances| { assert more[i] in glances; }
    }
  }

  lemma {:induction false} ToldThree(events: seq<Event>, source: string, person: State, person': State, x: real,
                                     cat: State, cat': State, y: real, pet: State, pet': State, z: real, at: int)
    requires TellsChanges(events)
    requires LastTold(events, Person) == person && LastTold(events, Cat) == cat && LastTold(events, Pet) == pet
    ensures var events' := events + (Change(source, Person, person, person', at, x) +
                                     Change(source, Cat, cat, cat', at, y) + Change(source, Pet, pet, pet', at, z));
            && TellsChanges(events')
            && LastTold(events', Person) == person' && LastTold(events', Cat) == cat' && LastTold(events', Pet) == pet'
  {
    var e1, e2, e3 := Change(source, Person, person, person', at, x), Change(source, Cat, cat, cat', at, y),
                      Change(source, Pet, pet, pet', at, z);
    ToldChange(events, source, Person, person, person', at, x);
    ToldChange(events + e1, source, Cat, cat, cat', at, y);
    ToldChange(events + e1 + e2, source, Pet, pet, pet', at, z);
    Regrouped(events, e1, e2, e3);
  }

  lemma {:induction false} Regrouped(a: seq<Event>, b: seq<Event>, c: seq<Event>, d: seq<Event>)
    ensures a + (b + c + d) == a + b + c + d
  {
  }

  lemma {:induction false} AbsorbSound(senses: Senses, s: EngineState, context: Context, person: Presence.Look,
                                       personConfidence: real, cat: Presence.Look, catConfidence: real, now: Time, at: int)
    requires Replays(senses, s) && Ordered(s) && Told(s) && context.health != Starting
    requires context.health != Online ==> context.catCount == 0 && context.tracks == []
    requires context.health != HealthOffline ==> s.hasObservation && now == s.lastObservation
    ensures Sound(senses, Absorb(senses, s, context, person, personConfidence, cat, catConfidence, now, at))
  {
    var s' := Absorb(senses, s, context, person, personConfidence, cat, catConfidence, now, at);
    GlanceInOrder(s.past.glances, Last(s'.past.glances));
    ToldThree(s.past.events, context.source, s.person.state, s'.person.state, personConfidence, s.cat.state,
              s'.cat.state, catConfidence, s.beliefs.state, s'.beliefs.state, s'.beliefs.confidence, at);
    ReplaysNext(senses, s.past, Last(s'.past.glances), person, cat);
  }

  lemma {:induction false} ReplaysNext(senses: Senses, past: History, g: Glance, person: Presence.Look,
                                       cat: Presence.Look)
    ensures Activity.After(senses, past.glances + [g]) == Activity.Update(senses, Activity.After(senses, past.glances), g)
    ensures Presence.After(past.personLooks + [person]) == Presence.Step(Presence.After(past.personLooks), person)
    ensures Presence.After(past.catLooks + [cat]) == Presence.Step(Presence.After(past.catLooks), cat)
  {
    assert Front(past.glances + [g]) == past.glances;
    assert Front(past.personLooks + [person]) == past.personLooks;
    assert Front(past.catLooks + [cat]) == past.catLooks;
  }

  /** Every accepted observation keeps the engine sound. */
  lemma {:induction false} TakenSound(senses: Senses, s: EngineState, o: Observation, now: Time)
    requires Sound(senses, s) && Rejected(s, o).None?
    ensures Sound(senses, Taken(senses, s, o, now))
  {
    if !Ignored(s, o, now) {
      var context := s.context.(health := Online, personCount := o.personCount, catCount := o.catCount,
                                sequence := o.sequence, dropped := o.dropped, observedAt := o.observedAt,
                                updated := Some(o.received), inferenceMs := o.inferenceMs, tracks := o.tracks);
      AbsorbSound(senses, Heard(s, o.received, now).(lastObservation := o.received, hasObservation := true), context,
                  Presence.Look(o.personCount > 0, true, o.received), if o.personCount > 0 then o.personConfidence else 0.0,
                  Presence.Look(o.catCount > 0, true, o.received), if o.catCount > 0 then o.catConfidence else 0.0,
                  o.received, o.observedAt.value);
    }
  }

  lemma {:induction false} TickedSound(senses: Senses, s: EngineState, now: Time, at: int)
    requires Sound(senses, s)
    ensures Sound(senses, Ticked(senses, s, now, at))
  {
    if TimedOut(s, now) {
      var context := s.context.(health := HealthOffline, personCount := 0, catCount := 0, tracks := []);
      AbsorbSound(senses, s, context, Presence.Look(false, false, now), 0.0, Presence.Look(false, false, now), 0.0, now, at);
    }
  }
}
