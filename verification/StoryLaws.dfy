/** The whole behaviour of the engine, told from its inputs alone: which observations and clock ticks count,
    what each of them shows to the presence machines and to the movement heuristic, and which events follow. */
module StoryLaws {
  import opened Common
  import opened Contexts
  import opened Activity
  import opened Engine
  import opened EngineLaws
  import P = Presence

  /** What counts of a run: an observation taken, or a tick that finds the camera lost. */
  datatype Step = Saw(o: Observation) | Lost(now: Time, at: int)

  /** The newest frame (or the start), the last observation taken, and everything that counted so far. */
  datatype Memory = Memory(newest: Time, taken: Option<Observation>, steps: seq<Step>)

  /** Whether an observation is taken: from this camera, stamped, plausible, numbered, not from the future,
      younger than two seconds, numbered above and received no earlier than the last one taken. */
  predicate Accepts(source: string, taken: Option<Observation>, o: Observation, now: Time) {
    && o.source == source && o.observedAt.Some? && o.sequence > 0 && o.inferenceMs >= 0.0
    && 0.0 <= o.personConfidence <= 1.0 && 0.0 <= o.catConfidence <= 1.0
    && o.received <= now && now - o.received < 2_000_000_000
    && (taken.Some? ==> taken.value.sequence < o.sequence && taken.value.received <= o.received)
  }

  function Recalled(source: string, m: Memory, x: Input): Memory {
    match x
    case Heartbeat(received, now) =>
      if received <= now && now - received < 2_000_000_000 && received > m.newest then m.(newest := received) else m
    case Sampled(o, now) =>
      if Accepts(source, m.taken, o, now)
      then Memory(if o.received > m.newest then o.received else m.newest, Some(o), m.steps + [Saw(o)])
      else m
    case Clock(now, at) =>
      if now - m.newest >= 5_000_000_000 then m.(steps := m.steps + [Lost(now, at)]) else m
  }

  function Recall(source: string, started: Time, inputs: seq<Input>): Memory {
    if |inputs| == 0 then Memory(started, None, [])
    else Recalled(source, Recall(source, started, Front(inputs)), Last(inputs))
  }

  // ----- what each step shows -----

  function PersonLook(step: Step): P.Look {
    match step
    case Saw(o) => P.Look(o.personCount > 0, true, o.received)
    case Lost(now, _) => P.Look(false, false, now)
  }

  function CatLook(step: Step): P.Look {
    match step
    case Saw(o) => P.Look(o.catCount > 0, true, o.received)
    case Lost(now, _) => P.Look(false, false, now)
  }

  function PersonLooks(steps: seq<Step>): seq<P.Look> {
    seq(|steps|, i requires 0 <= i < |steps| => PersonLook(steps[i]))
  }

  function CatLooks(steps: seq<Step>): seq<P.Look> {
    seq(|steps|, i requires 0 <= i < |steps| => CatLook(steps[i]))
  }

  /** How the movement heuristic reads an observation beside the presence of the cat. */
  function ReadingOf(o: Observation, cat: State): Reading {
    Read(NewContext("").(health := Online, catCount := o.catCount, cat := cat, tracks := o.tracks))
  }

  /** The glance at the last of the steps. */
  function GlanceAt(steps: seq<Step>): Glance
    requires |steps| > 0
  {
    match Last(steps)
    case Saw(o) => Glance(ReadingOf(o, P.After(CatLooks(steps)).state), o.received)
    case Lost(now, _) => Glance(Gone, now)
  }

  function Glances(steps: seq<Step>): seq<Glance> {
    seq(|steps|, i requires 0 <= i < |steps| => GlanceAt(steps[..i + 1]))
  }

  function StampOf(step: Step): int {
    match step
    case Saw(o) => if o.observedAt.Some? then o.observedAt.value else 0
    case Lost(_, at) => at
  }

  function OneEvent(before: State, after: State, event: Event): seq<Event> { if before == after then [] else [event] }

  /** The events of the last of the steps: first the person, then the cat, then the pet, each one told only
      if its state changed, with the stamp of the step and the confidence that belongs to it. */
  function EventsAt(senses: Senses, source: string, steps: seq<Step>): seq<Event>
    requires |steps| > 0
  {
    var step, before, at := Last(steps), Front(steps), StampOf(Last(steps));
    var person, cat := P.After(PersonLooks(steps)).state, P.After(CatLooks(steps)).state;
    var pet := After(senses, Glances(steps));
    OneEvent(P.After(PersonLooks(before)).state, person,
             Event(source, Person, person, at, if step.Saw? && step.o.personCount > 0 then step.o.personConfidence else 0.0)) +
    OneEvent(P.After(CatLooks(before)).state, cat,
             Event(source, Cat, cat, at, if step.Saw? && step.o.catCount > 0 then step.o.catConfidence else 0.0)) +
    OneEvent(After(senses, Glances(before)).state, pet.state, Event(source, Pet, pet.state, at, pet.confidence))
  }

  function Events(senses: Senses, source: string, steps: seq<Step>): seq<Event> {
    if |steps| == 0 then [] else Events(senses, source, Front(steps)) + EventsAt(senses, source, steps)
  }

  function HealthOf(steps: seq<Step>): Health {
    if |steps| == 0 then Starting else if Last(steps).Saw? then Online else HealthOffline
  }

  // ----- the engine does just that -----

  /** What the engine was shown and has told is what the steps say. */
  ghost predicate Shown(senses: Senses, source: string, past: History, steps: seq<Step>) {
    && past.personLooks == PersonLooks(steps) && past.catLooks == CatLooks(steps)
    && past.glances == Glances(steps) && past.events == Events(senses, source, steps)
  }

  /** The engine remembers what the memory says. */
  ghost predicate Remembers(source: string, s: EngineState, m: Memory) {
    && s.context.source == source && s.lastFrame == m.newest
    && (s.hasObservation <==> m.taken.Some?)
    && (m.taken.Some? ==> s.lastObservation == m.taken.value.received && s.context.sequence == m.taken.value.sequence)
  }

  lemma {:induction false} LooksNext(steps: seq<Step>, step: Step)
    ensures PersonLooks(steps + [step]) == PersonLooks(steps) + [PersonLook(step)]
    ensures CatLooks(steps + [step]) == CatLooks(steps) + [CatLook(step)]
  {
  }

  lemma {:induction false} GlancesNext(steps: seq<Step>, step: Step)
    ensures Glances(steps + [step]) == Glances(steps) + [GlanceAt(steps + [step])]
  {
    var more := steps + [step];
    forall i | 0 <= i < |steps| ensures Glances(more)[i] == Glances(steps)[i] { assert more[..i + 1] == steps[..i + 1]; }
    assert more[..|steps| + 1] == more;
  }

  /** One absorbed step shows and tells what the step says. */
  lemma {:induction false} AbsorbShows(senses: Senses, source: string, s: EngineState, context: Context, steps: seq<Step>,
                                       step: Step, personConfidence: real, catConfidence: real, now: Time, at: int)
    requires Replays(senses, s) && s.context.petState == s.beliefs.state && Shown(senses, source, s.past, steps)
    requires context.source == source && at == StampOf(step)
    requires now == PersonLook(step).now
    requires personConfidence == if step.Saw? && step.o.personCount > 0 then step.o.personConfidence else 0.0
    requires catConfidence == if step.Saw? && step.o.catCount > 0 then step.o.catConfidence else 0.0
    requires GlanceAt(steps + [step]) ==
             Glance(Read(context.(person := P.Step(s.person, PersonLook(step)).state,
                                  cat := P.Step(s.cat, CatLook(step)).state)), now)
    ensures Shown(senses, source,
                  Absorb(senses, s, context, PersonLook(step), personConfidence, CatLook(step), catConfidence, now, at).past,
                  steps + [step])
  {
    LooksNext(steps, step);
    GlancesNext(steps, step);
    ReplaysNext(senses, s.past, GlanceAt(steps + [step]), PersonLook(step), CatLook(step));
    assert Front(steps + [step]) == steps;
  }

  lemma {:induction false} ReadDepends(a: Context, b: Context)
    requires a.health == b.health && a.catCount == b.catCount && a.cat == b.cat && a.tracks == b.tracks
    ensures Read(a) == Read(b)
  {
  }

  /** An observation is taken exactly if it is neither rejected nor ignored. */
  lemma {:induction false} AcceptsExact(source: string, s: EngineState, m: Memory, o: Observation, now: Time)
    requires Remembers(source, s, m)
    ensures Accepts(source, m.taken, o, now) <==> Rejected(s, o).None? && !Ignored(s, o, now)
    ensures Rejected(s, o) == Some(ForeignSource) <==> o.source != source
  {
  }

  /** The context an observation leads to. */
  function Sees(c: Context, o: Observation): Context {
    c.(health := Online, personCount := o.personCount, catCount := o.catCount, sequence := o.sequence,
       dropped := o.dropped, observedAt := o.observedAt, updated := Some(o.received), inferenceMs := o.inferenceMs,
       tracks := o.tracks)
  }

  lemma {:induction false} SawGlance(s: EngineState, o: Observation, steps: seq<Step>)
    requires s.past.catLooks == CatLooks(steps) && s.cat == P.After(s.past.catLooks)
    ensures GlanceAt(steps + [Saw(o)]) ==
            Glance(Read(Sees(s.context, o).(person := P.Step(s.person, PersonLook(Saw(o))).state,
                                            cat := P.Step(s.cat, CatLook(Saw(o))).state)), o.received)
  {
    var step := Saw(o);
    LooksNext(steps, step);
    assert Front(CatLooks(steps) + [CatLook(step)]) == CatLooks(steps);
    var cat := P.Step(s.cat, CatLook(step)).state;
    ReadDepends(Sees(s.context, o).(person := P.Step(s.person, PersonLook(step)).state, cat := cat),
                NewContext("").(health := Online, catCount := o.catCount, cat := cat, tracks := o.tracks));
  }

  lemma {:induction false} TakenShows(senses: Senses, source: string, s: EngineState, steps: seq<Step>, o: Observation,
                                      now: Time)
    requires Sound(senses, s) && s.context.source == source && Shown(senses, source, s.past, steps)
    requires Rejected(s, o).None? && !Ignored(s, o, now)
    ensures Shown(senses, source, Taken(senses, s, o, now).past, steps + [Saw(o)])
  {
    SawGlance(s, o, steps);
    AbsorbShows(senses, source, Heard(s, o.received, now).(lastObservation := o.received, hasObservation := true),
                Sees(s.context, o), steps, Saw(o), if o.personCount > 0 then o.personConfidence else 0.0,
                if o.catCount > 0 then o.catConfidence else 0.0, o.received, o.observedAt.value);
  }

  lemma {:induction false} TickedShows(senses: Senses, source: string, s: EngineState, steps: seq<Step>, now: Time,
                                       at: int)
    requires Sound(senses, s) && s.context.source == source && Shown(senses, source, s.past, steps)
    ensures TimedOut(s, now) ==> Shown(senses, source, Ticked(senses, s, now, at).past, steps + [Lost(now, at)])
  {
    if TimedOut(s, now) {
      var context := s.context.(health := HealthOffline, personCount := 0, catCount := 0, tracks := []);
      AbsorbShows(senses, source, s, context, steps, Lost(now, at), 0.0, 0.0, now, at);
    }
  }

  /** Everything the memory says of the engine. */
  ghost predicate Tells(senses: Senses, source: string, s: EngineState, m: Memory) {
    && Shown(senses, source, s.past, m.steps) && Remembers(source, s, m) && s.context.health == HealthOf(m.steps)
  }

  lemma {:induction false} SampledTells(senses: Senses, source: string, s: EngineState, m: Memory, o: Observation,
                                        now: Time)
    requires Sound(senses, s) && Tells(senses, source, s, m)
    ensures Tells(senses, source, Next(senses, s, Sampled(o, now)), Recalled(source, m, Sampled(o, now)))
  {
    AcceptsExact(source, s, m, o, now);
    if Accepts(source, m.taken, o, now) { TakenShows(senses, source, s, m.steps, o, now); }
  }

  lemma {:induction false} ClockTells(senses: Senses, source: string, s: EngineState, m: Memory, now: Time, at: int)
    requires Sound(senses, s) && Tells(senses, source, s, m)
    ensures Tells(senses, source, Next(senses, s, Clock(now, at)), Recalled(source, m, Clock(now, at)))
  {
    TickedShows(senses, source, s, m.steps, now, at);
  }

  lemma {:induction false} NextTells(senses: Senses, source: string, s: EngineState, m: Memory, x: Input)
    requires Sound(senses, s) && Tells(senses, source, s, m)
    ensures Tells(senses, source, Next(senses, s, x), Recalled(source, m, x))
  {
    match x
    case Heartbeat(received, now) =>
    case Sampled(o, now) => SampledTells(senses, source, s, m, o, now);
    case Clock(now, at) => ClockTells(senses, source, s, m, now, at);
  }

  lemma {:induction false} RunTells(senses: Senses, source: string, started: Time, inputs: seq<Input>)
    ensures Tells(senses, source, Run(senses, source, started, inputs), Recall(source, started, inputs))
    decreases |inputs|
  {
    if |inputs| > 0 {
      RunTells(senses, source, started, Front(inputs));
      RunSound(senses, source, started, Front(inputs));
      NextTells(senses, source, Run(senses, source, started, Front(inputs)), Recall(source, started, Front(inputs)),
                Last(inputs));
    }
  }

  lemma {:induction false} TakenIsLast(senses: Senses, source: string, started: Time, inputs: seq<Input>)
    ensures LastTaken(senses, source, started, inputs) == Recall(source, started, inputs).taken
    decreases |inputs|
  {
    if |inputs| > 0 {
      var front := Front(inputs);
      TakenIsLast(senses, source, started, front);
      RunTells(senses, source, started, front);
      if Last(inputs).Sampled? {
        AcceptsExact(source, Run(senses, source, started, front), Recall(source, started, front), Last(inputs).o,
                     Last(inputs).now);
      }
    }
  }

  /** In every run the engine has been shown exactly the looks and glances of the observations taken and of
      the ticks that found the camera lost, in their order, and has told exactly the events they lead to;
      its context shows the last observation taken and the camera as the last of these steps left it. */
  lemma {:induction false} RunIsStory(senses: Senses, source: string, started: Time, inputs: seq<Input>)
    ensures var s, m := Run(senses, source, started, inputs), Recall(source, started, inputs);
            Tells(senses, source, s, m) && Reports(s.context, m.taken)
  {
    RunTells(senses, source, started, inputs);
    TakenIsLast(senses, source, started, inputs);
    ReportsLastTaken(senses, source, started, inputs);
  }

  /** Look i and glance i report the step: whether persons (cats) were counted, and when. */
  ghost predicate Reported(past: History, step: Step, i: nat)
    requires i < |past.personLooks| && i < |past.catLooks| && i < |past.glances|
  {
    var person, cat, glance := past.personLooks[i], past.catLooks[i], past.glances[i];
    match step
    case Saw(o) =>
      && person.online && (person.seen <==> o.personCount >= 1) && person.now == o.received
      && cat.online && (cat.seen <==> o.catCount >= 1) && cat.now == o.received
      && !glance.reading.Gone? && glance.now == o.received
    case Lost(now, _) =>
      && !person.online && !person.seen && person.now == now
      && !cat.online && !cat.seen && cat.now == now
      && glance == Glance(Gone, now)
  }

  lemma {:induction false} LookReported(senses: Senses, source: string, past: History, steps: seq<Step>, i: nat)
    requires Shown(senses, source, past, steps) && i < |steps|
    ensures Reported(past, steps[i], i)
  {
    assert Last(steps[..i + 1]) == steps[i];
    assert past.glances[i] == GlanceAt(steps[..i + 1]);
    if steps[i].Saw? { ReadingOnline(steps[i].o, P.After(CatLooks(steps[..i + 1])).state); }
  }

  lemma {:induction false} ReadingOnline(o: Observation, cat: State)
    ensures !ReadingOf(o, cat).Gone?
  {
  }

  /** The looks taken one by one: each one belongs to an observation taken or to a tick that found the
      camera lost, and reports whether persons (cats) were counted in it, at the time it was received. */
  lemma {:induction false} LooksExact(senses: Senses, source: string, started: Time, inputs: seq<Input>)
    ensures var past, steps := Run(senses, source, started, inputs).past, Recall(source, started, inputs).steps;
            && |past.personLooks| == |past.catLooks| == |past.glances| == |steps|
            && forall i | 0 <= i < |steps| :: Reported(past, steps[i], i)
  {
    var past, steps := Run(senses, source, started, inputs).past, Recall(source, started, inputs).steps;
    RunTells(senses, source, started, inputs);
    forall i | 0 <= i < |steps| ensures Reported(past, steps[i], i) { LookReported(senses, source, past, steps, i); }
  }

  /** At a tick the camera is found lost exactly if it is five seconds since the newest frame. */
  lemma {:induction false} OfflineExact(senses: Senses, source: string, started: Time, inputs: seq<Input>, now: Time, at: int)
    ensures var before, m := Run(senses, source, started, inputs), Recall(source, started, inputs);
            var after := Run(senses, source, started, inputs + [Clock(now, at)]);
            && (now - m.newest >= 5_000_000_000 ==> after.context.health == HealthOffline && after.context.petState == Offline)
            && (now - m.newest < 5_000_000_000 ==> after == before)
  {
    assert Front(inputs + [Clock(now, at)]) == inputs;
    RunTells(senses, source, started, inputs);
    RunTells(senses, source, started, inputs + [Clock(now, at)]);
    RunSound(senses, source, started, inputs + [Clock(now, at)]);
    PublishedStates(senses, Run(senses, source, started, inputs + [Clock(now, at)]));
  }
}
