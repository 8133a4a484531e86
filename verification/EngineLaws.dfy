/** What every run of the engine promises about the contexts it publishes. */
module EngineLaws {
  import opened Common
  import opened Contexts
  import opened Activity
  import opened ActivityTrace
  import opened ActivityLaws
  import opened Engine

  datatype Input = Heartbeat(received: Time, now: Time) | Sampled(o: Observation, now: Time) | Clock(now: Time, at: int)

  /** A rejected observation changes nothing. */
  function Next(senses: Senses, s: EngineState, x: Input): EngineState {
    match x
    case Heartbeat(received, now) => Heard(s, received, now)
    case Sampled(o, now) => if Rejected(s, o).Some? then s else Taken(senses, s, o, now)
    case Clock(now, at) => Ticked(senses, s, now, at)
  }

  function Run(senses: Senses, source: string, started: Time, inputs: seq<Input>): EngineState {
    if |inputs| == 0 then NewEngine(source, started)
    else Next(senses, Run(senses, source, started, Front(inputs)), Last(inputs))
  }

  /** In every run: the movement heuristic sees online glances in order, the published context
      mirrors the state machines, and the events tell exactly the changes, category by category. */
  lemma {:induction false} RunSound(senses: Senses, source: string, started: Time, inputs: seq<Input>)
    ensures Sound(senses, Run(senses, source, started, inputs))
  {
    if |inputs| == 0 {
      NewSound(senses, source, started);
    } else {
      var s := Run(senses, source, started, Front(inputs));
      RunSound(senses, source, started, Front(inputs));
      match Last(inputs)
      case Heartbeat(received, now) =>
      case Sampled(o, now) => if Rejected(s, o).None? { TakenSound(senses, s, o, now); }
      case Clock(now, at) => TickedSound(senses, s, now, at);
    }
  }

  /** The pet is offline exactly when the camera is, and more than one detected or observed cat is
      never active or resting. */
  lemma {:induction false} PublishedStates(senses: Senses, s: EngineState)
    requires Sound(senses, s)
    ensures s.context.petState in STATES
    ensures s.context.petState == Offline <==> s.context.health == HealthOffline
    ensures s.context.catCount > 1 || CountCats(s.context.tracks) > 1 ==>
              s.context.petState != Active && s.context.petState != Resting
  {
    var glances := s.past.glances;
    if |glances| > 0 {
      BeliefsExplained(senses, Front(glances));
      BeliefsExplained(senses, glances);
      if Last(glances).reading.One? { SightingVerdict(senses, glances); }
    }
  }

  ghost predicate Confident(glances: seq<Glance>) {
    forall g | g in glances && g.reading.One? :: ValidConfidence(g.reading.cat.confidence)
  }

  lemma {:induction false} ConfidenceValid(senses: Senses, glances: seq<Glance>)
    requires Confident(glances)
    ensures ValidConfidence(Activity.After(senses, glances).confidence)
  {
    if |glances| > 0 {
      ConfidenceValid(senses, Front(glances));
      assert Last(glances) in glances;
    }
  }

  // ----- what the context reports -----

  /** The last observation of a run that was neither rejected nor ignored. */
  function LastTaken(senses: Senses, source: string, started: Time, inputs: seq<Input>): Option<Observation> {
    if |inputs| == 0 then None
    else
      var s := Run(senses, source, started, Front(inputs));
      match Last(inputs)
      case Sampled(o, now) =>
        if Rejected(s, o).None? && !Ignored(s, o, now) then Some(o) else LastTaken(senses, source, started, Front(inputs))
      case _ => LastTaken(senses, source, started, Front(inputs))
  }

  /** What a context may say, given the last observation taken. */
  ghost predicate Reports(c: Context, taken: Option<Observation>) {
    match taken
    case None => c.updated.None? && c.sequence == 0 && c.health != Online && c.tracks == [] && c.personCount == c.catCount == 0
    case Some(o) =>
      && c.updated == Some(o.received) && c.sequence == o.sequence && c.observedAt == o.observedAt
      && c.dropped == o.dropped && c.inferenceMs == o.inferenceMs && c.health != Starting
      && (if c.health == Online then c.tracks == o.tracks && c.personCount == o.personCount && c.catCount == o.catCount
          else c.tracks == [] && c.personCount == c.catCount == 0)
  }

  /** In every run the context reports the last observation taken, and while the camera is offline no
      tracks or counts but still the time of that observation. */
  lemma {:induction false} ReportsLastTaken(senses: Senses, source: string, started: Time, inputs: seq<Input>)
    ensures var s, taken := Run(senses, source, started, inputs), LastTaken(senses, source, started, inputs);
            && Reports(s.context, taken) && s.context.source == source
            && (s.hasObservation <==> taken.Some?) && (taken.Some? ==> s.lastObservation == taken.value.received)
  {
    if |inputs| > 0 { ReportsLastTaken(senses, source, started, Front(inputs)); }
  }

  /** Observations are taken in order: sequence numbers strictly increase, and times never go back. */
  lemma {:induction false} TakenInOrder(senses: Senses, source: string, started: Time, inputs: seq<Input>)
    requires |inputs| > 0 && Last(inputs).Sampled?
    ensures var before, after := LastTaken(senses, source, started, Front(inputs)), LastTaken(senses, source, started, inputs);
            after != before && before.Some? ==>
              after.Some? && before.value.sequence < after.value.sequence && before.value.received <= after.value.received
  {
    ReportsLastTaken(senses, source, started, Front(inputs));
  }

  // ----- going offline -----

  /** Input i brought a frame that was timely when it arrived and, if it carried an observation,
      was accepted. */
  ghost predicate Arrived(senses: Senses, source: string, started: Time, inputs: seq<Input>, i: nat, received: Time)
    requires i < |inputs|
  {
    match inputs[i]
    case Heartbeat(r, now) => r == received && r <= now && now - r < 2_000_000_000
    case Sampled(o, now) =>
      var s := Run(senses, source, started, inputs[..i]);
      o.received == received && Rejected(s, o).None? && !Ignored(s, o, now)
    case Clock(_, _) => false
  }

  lemma {:induction false} LastFrameIsLatest(senses: Senses, source: string, started: Time, inputs: seq<Input>,
                                             i: nat, received: Time)
    requires i < |inputs| && Arrived(senses, source, started, inputs, i, received)
    ensures received <= Run(senses, source, started, inputs).lastFrame
  {
    var front := Front(inputs);
    if i < |front| {
      assert front[..i] == inputs[..i];
      LastFrameIsLatest(senses, source, started, front, i, received);
    } else {
      assert inputs[..i] == front;
    }
  }

  /** Offline is entered only at a clock tick, five seconds or more after every frame that arrived. */
  lemma {:induction false} OfflineMeansNoFrames(senses: Senses, source: string, started: Time, inputs: seq<Input>)
    requires |inputs| > 0
    requires Run(senses, source, started, Front(inputs)).context.health != HealthOffline
    requires Run(senses, source, started, inputs).context.health == HealthOffline
    ensures Last(inputs).Clock?
    ensures forall i, received | 0 <= i < |inputs| - 1 && Arrived(senses, source, started, inputs, i, received) ::
              Last(inputs).now - received >= 5_000_000_000
  {
    var front := Front(inputs);
    forall i, received | 0 <= i < |front| && Arrived(senses, source, started, inputs, i, received)
      ensures Last(inputs).Clock? && Last(inputs).now - received >= 5_000_000_000
    {
      assert front[..i] == inputs[..i];
      LastFrameIsLatest(senses, source, started, front, i, received);
    }
  }
}
