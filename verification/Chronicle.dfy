/** What the service and the replay do to their parts, told from what comes in: which inputs the engine is
    given, which operations the tracker, which shots the appearance vote, and what is recorded. */
module Chronicle {
  import opened Common
  import opened Contexts
  import opened Engine
  import opened EngineLaws
  import opened LiveLaws
  import opened IntervalTable
  import Activity
  import T = Tracking
  import R = TrackerRuns
  import PA = Appearance
  import S = Service

  /** Everything handed on so far; due is when the next inference is, shots are those since the vote was
      last cleared, and served is the snapshot that clients get. */
  datatype Chronicle = Chronicle(inputs: seq<Input>, ops: seq<R.Op>, shots: seq<PA.Shot>, entries: seq<Entry>,
                                 due: Time, inferences: nat, served: Context)

  // ----- the steps -----

  /** The engine after some inputs. */
  function EngineAfter(senses: Activity.Senses, source: string, started: Time, inputs: seq<Input>): EngineState {
    EngineLaws.Run(senses, source, started, inputs)
  }

  /** The tracks after some operations of the tracker. */
  function TracksAfter(config: T.Config, ops: seq<R.Op>): seq<T.Snapshot>
    requires config.Valid()
  {
    match R.After(config, ops)
    case Some(s) => T.Snapshots(s.tracks)
    case None => []
  }

  /** What is recorded of a context. */
  function Recorded(c: Context, at: int): Entry { Entry(c.source, c.petState, c.petEvidence, c.petConfidence, at) }

  ghost function PortraitAfter(names: seq<string>, shots: seq<PA.Shot>): Portrait {
    if PA.Fitting(names, shots) then PA.After(names, shots).portrait else NO_PORTRAIT
  }

  /** The context of the engine is recorded and served; while the camera is offline the vote is cleared. */
  ghost function Published(setup: S.Setup, source: string, started: Time, c: Chronicle, at: int): Chronicle {
    var context := EngineAfter(setup.senses, source, started, c.inputs).context;
    var shots := if context.health == HealthOffline then [] else c.shots;
    c.(shots := shots, entries := c.entries + [Recorded(context, at)],
       served := context.(portrait := PortraitAfter(setup.names, shots)))
  }

  /** The observation of a frame: persons are class 0 and cats class 15, and the inference time is in
      milliseconds. */
  ghost function Observed(source: string, f: S.Frame, tracks: seq<T.Snapshot>): Observation {
    Observation(source, Some(f.observedAt), f.received, f.sequence, f.dropped,
                |PlacesOf(f.detections, 0)|, |PlacesOf(f.detections, 15)|,
                TopConfidence(f.detections, 0), TopConfidence(f.detections, 15), tracks,
                (f.done - f.begin) as real / 1000000.0)
  }

  /** A frame goes to the tracker and to the vote only if inference was over within two seconds; the
      engine sees it in any case. */
  ghost function Handed(setup: S.Setup, source: string, c: Chronicle, f: S.Frame): Chronicle
    requires setup.config.Valid()
  {
    var quick := f.done - f.received < 2_000_000_000;
    var ops := if quick then c.ops + [R.Frame(f.detections, f.received)] else c.ops;
    var tracks := if quick then TracksAfter(setup.config, ops) else [];
    var picture := PA.Picture(f.received, f.sequence, f.observedAt, f.large, f.sharp, f.scores);
    c.(ops := ops, shots := if quick then c.shots + [PA.Shot(PA.Exposed(tracks), picture)] else c.shots,
       inputs := c.inputs + [Sampled(Observed(source, f, tracks), f.done)],
       due := f.done + setup.interval, inferences := c.inferences + 1)
  }

  /** A frame less than two seconds old is a heartbeat, and is inferred when that is due. Without one the
      clock of the engine ticks, and an offline camera restarts the tracker. */
  ghost function Turned(setup: S.Setup, source: string, started: Time, c: Chronicle, turn: S.Turn): Chronicle
    requires setup.config.Valid()
  {
    if turn.frame.Some? && turn.now - turn.frame.value.received < 2_000_000_000 then
      var f := turn.frame.value;
      var heard := c.(inputs := c.inputs + [Heartbeat(f.received, turn.now)]);
      if turn.now < c.due then heard else Published(setup, source, started, Handed(setup, source, heard, f), f.observedAt)
    else
      var ticked := c.(inputs := c.inputs + [Clock(turn.now, turn.utc)]);
      var offline := EngineAfter(setup.senses, source, started, ticked.inputs).context.health == HealthOffline;
      Published(setup, source, started, if offline then ticked.(ops := c.ops + [R.Restart]) else ticked, turn.utc)
  }

  ghost function ChronicleOf(setup: S.Setup, source: string, started: Time, turns: seq<S.Turn>): Chronicle
    requires setup.config.Valid()
  {
    if |turns| == 0 then Chronicle([], [], [], [], started, 0, NewContext(source))
    else Turned(setup, source, started, ChronicleOf(setup, source, started, Front(turns)), Last(turns))
  }

  // ----- the service does just that -----

  ghost predicate Named(setup: S.Setup) { setup.Built() && forall n | n in setup.names :: n != "" }

  /** The parts of the service are where the chronicle takes them. */
  ghost predicate Keeps(setup: S.Setup, source: string, started: Time, s: S.ServiceState, c: Chronicle)
    requires setup.config.Valid()
  {
    && s.engine == EngineAfter(setup.senses, source, started, c.inputs) && s.engine.context.source == source
    && R.After(setup.config, c.ops) == Some(s.tracker)
    && PA.Fitting(setup.names, c.shots) && PA.After(setup.names, c.shots) == s.ballot
    && s.log == c.entries && s.next == c.due && s.inferred == c.inferences && s.current == c.served
  }

  lemma {:induction false} EngineNext(senses: Activity.Senses, source: string, started: Time, inputs: seq<Input>, x: Input)
    ensures EngineAfter(senses, source, started, inputs + [x]) ==
            EngineLaws.Next(senses, EngineAfter(senses, source, started, inputs), x)
  {
    assert Front(inputs + [x]) == inputs;
  }

  lemma {:induction false} SourceStays(senses: Activity.Senses, s: EngineState, x: Input)
    ensures EngineLaws.Next(senses, s, x).context.source == s.context.source
  {
  }

  /** Publishing keeps step with the chronicle. */
  lemma {:induction false} PublishedKeeps(setup: S.Setup, source: string, started: Time, s: S.ServiceState,
                                          c: Chronicle, events: seq<Event>, at: int)
    requires Named(setup)
    requires s.engine == EngineAfter(setup.senses, source, started, c.inputs) && s.engine.context.source == source
    requires R.After(setup.config, c.ops) == Some(s.tracker)
    requires PA.Fitting(setup.names, c.shots) && PA.After(setup.names, c.shots) == s.ballot
    requires s.log == c.entries && s.next == c.due && s.inferred == c.inferences
    ensures S.Published(s, events, at).Success? ==>
              Keeps(setup, source, started, S.Published(s, events, at).value, Published(setup, source, started, c, at))
  {
    assert PA.Fitting(setup.names, []) && PA.After(setup.names, []) == PA.BLANK;
  }

  lemma {:induction false} IdleKeeps(setup: S.Setup, source: string, started: Time, s: S.ServiceState, c: Chronicle,
                                     now: Time, utc: int)
    requires Named(setup) && Keeps(setup, source, started, s, c)
    ensures S.Idle(setup, s, now, utc).Success? ==>
              Keeps(setup, source, started, S.Idle(setup, s, now, utc).value,
                    Turned(setup, source, started, c, S.Turn(None, now, utc)))
  {
    EngineNext(setup.senses, source, started, c.inputs, Clock(now, utc));
    SourceStays(setup.senses, s.engine, Clock(now, utc));
    R.AfterSnoc(setup.config, c.ops, R.Restart);
    var engine := Ticked(setup.senses, s.engine, now, utc);
    var ticked := c.(inputs := c.inputs + [Clock(now, utc)]);
    PublishedKeeps(setup, source, started, s.(engine := engine), ticked, News(s.engine, engine), utc);
  }

  lemma {:induction false} ObservedExact(source: string, f: S.Frame, tracks: seq<T.Snapshot>)
    ensures Observed(source, f, tracks) == S.ObservationOf(source, f, tracks)
  {
    CountExact(f.detections, 0);
    CountExact(f.detections, 15);
  }

  /** What tracking and voting leave behind. */
  lemma {:induction false} TrackedKeeps(setup: S.Setup, s: S.ServiceState, c: Chronicle, f: S.Frame)
    requires Named(setup) && |f.scores| == |setup.names| && R.After(setup.config, c.ops) == Some(s.tracker)
    requires PA.Fitting(setup.names, c.shots) && PA.After(setup.names, c.shots) == s.ballot
    ensures S.Tracked(setup, s, f).Success? ==>
              var (s', tracks), c' := S.Tracked(setup, s, f).value, Handed(setup, "", c, f);
              && R.After(setup.config, c'.ops) == Some(s'.tracker)
              && PA.Fitting(setup.names, c'.shots) && PA.After(setup.names, c'.shots) == s'.ballot
              && tracks == (if f.done - f.received < 2_000_000_000 then TracksAfter(setup.config, c'.ops) else [])
              && s' == s.(tracker := s'.tracker, ballot := s'.ballot)
  {
    if S.Tracked(setup, s, f).Success? && f.done - f.received < 2_000_000_000 {
      R.AfterSnoc(setup.config, c.ops, R.Frame(f.detections, f.received));
      var (tracker, why) := setup.track(s.tracker, f.detections, f.received);
      assert R.Next(setup.config, s.tracker, R.Frame(f.detections, f.received)) == Some(tracker);
      PA.AfterNext(setup.names, c.shots, PA.Shot(PA.Exposed(T.Snapshots(tracker.tracks)), f.Picture()));
    }
  }

  lemma {:induction false} WitnessedKeeps(setup: S.Setup, source: string, started: Time, s: S.ServiceState,
                                          c: Chronicle, f: S.Frame, tracks: seq<T.Snapshot>)
    requires Named(setup) && s.engine.context.source == source
    requires s.engine == EngineAfter(setup.senses, source, started, c.inputs)
    requires R.After(setup.config, c.ops) == Some(s.tracker)
    requires PA.Fitting(setup.names, c.shots) && PA.After(setup.names, c.shots) == s.ballot
    requires s.log == c.entries && s.next == c.due && s.inferred == c.inferences
    ensures S.Witnessed(setup, s, f, tracks).Success? ==>
              Keeps(setup, source, started, S.Witnessed(setup, s, f, tracks).value,
                    Published(setup, source, started, c.(inputs := c.inputs + [Sampled(Observed(source, f, tracks), f.done)]),
                              f.observedAt))
  {
    var o := S.ObservationOf(source, f, tracks);
    ObservedExact(source, f, tracks);
    EngineNext(setup.senses, source, started, c.inputs, Sampled(o, f.done));
    SourceStays(setup.senses, s.engine, Sampled(o, f.done));
    if Rejected(s.engine, o).None? {
      var engine := Taken(setup.senses, s.engine, o, f.done);
      PublishedKeeps(setup, source, started, s.(engine := engine), c.(inputs := c.inputs + [Sampled(o, f.done)]),
                     News(s.engine, engine), f.observedAt);
    }
  }

  lemma {:induction false} InferredKeeps(setup: S.Setup, source: string, started: Time, s: S.ServiceState, c: Chronicle,
                                         f: S.Frame)
    requires Named(setup) && |f.scores| == |setup.names| && s.engine.context.source == source
    requires s.engine == EngineAfter(setup.senses, source, started, c.inputs)
    requires R.After(setup.config, c.ops) == Some(s.tracker)
    requires PA.Fitting(setup.names, c.shots) && PA.After(setup.names, c.shots) == s.ballot
    requires s.log == c.entries && s.next == c.due && s.inferred == c.inferences
    ensures S.Inferred(setup, S.Due(setup, s, f), f).Success? ==>
              Keeps(setup, source, started, S.Inferred(setup, S.Due(setup, s, f), f).value,
                    Published(setup, source, started, Handed(setup, source, c, f), f.observedAt))
  {
    var due := S.Due(setup, s, f);
    TrackedKeeps(setup, due, c, f);
    if S.Tracked(setup, due, f).Success? {
      var (s', tracks) := S.Tracked(setup, due, f).value;
      var c' := Handed(setup, source, c, f).(inputs := c.inputs);
      WitnessedKeeps(setup, source, started, s', c', f, tracks);
    }
  }

  lemma {:induction false} ArrivedKeeps(setup: S.Setup, source: string, started: Time, s: S.ServiceState, c: Chronicle,
                                        f: S.Frame, now: Time, utc: int)
    requires Named(setup) && |f.scores| == |setup.names| && Keeps(setup, source, started, s, c)
    requires now - f.received < 2_000_000_000
    ensures S.Arrived(setup, s, f, now).Success? ==>
              Keeps(setup, source, started, S.Arrived(setup, s, f, now).value,
                    Turned(setup, source, started, c, S.Turn(Some(f), now, utc)))
  {
    var heard := s.(engine := Heard(s.engine, f.received, now));
    EngineNext(setup.senses, source, started, c.inputs, Heartbeat(f.received, now));
    if now >= s.next {
      S.ArrivedDue(setup, s, heard, f, now);
      InferredKeeps(setup, source, started, heard, c.(inputs := c.inputs + [Heartbeat(f.received, now)]), f);
    }
  }

  lemma {:induction false} PassKeeps(setup: S.Setup, source: string, started: Time, s: S.ServiceState, c: Chronicle,
                                     turn: S.Turn)
    requires Named(setup) && Keeps(setup, source, started, s, c)
    requires turn.frame.Some? ==> |turn.frame.value.scores| == |setup.names|
    ensures S.Pass(setup, s, turn).Success? ==>
              Keeps(setup, source, started, S.Pass(setup, s, turn).value, Turned(setup, source, started, c, turn))
  {
    if turn.Timely() {
      ArrivedKeeps(setup, source, started, s, c, turn.frame.value, turn.now, turn.utc);
    } else {
      IdleKeeps(setup, source, started, s, c, turn.now, turn.utc);
      assert Turned(setup, source, started, c, turn) == Turned(setup, source, started, c, S.Turn(None, turn.now, turn.utc));
    }
  }

  /** The service is nothing but its parts fed in step: in every run the engine is where the heartbeats,
      observations and ticks of the chronicle take it, the tracker where its frames and restarts do, the
      vote where the shots since it was last cleared do; the store holds exactly the contexts of the
      chronicle with their stamps, and clients are served the last of them. */
  lemma {:induction false} ServiceIsChronicle(setup: S.Setup, source: string, started: Time, turns: seq<S.Turn>)
    requires Named(setup) && S.Scored(setup, turns) && S.Run(setup, source, started, turns).Some?
    ensures Keeps(setup, source, started, S.Run(setup, source, started, turns).value,
                  ChronicleOf(setup, source, started, turns))
    decreases |turns|
  {
    if |turns| > 0 {
      assert Last(turns) in turns;
      ServiceIsChronicle(setup, source, started, Front(turns));
      PassKeeps(setup, source, started, S.Run(setup, source, started, Front(turns)).value,
                ChronicleOf(setup, source, started, Front(turns)), Last(turns));
    }
  }
}
