/** What a replay does to its parts, told from the groups alone. */
module ReplayChronicle {
  import opened Common
  import opened Contexts
  import opened Engine
  import opened EngineLaws
  import opened LiveLaws
  import opened IntervalTable
  import opened Replay
  import opened Chronicle
  import RL = ReplayLaws
  import T = Tracking
  import R = TrackerRuns

  /** The inputs of the engine, the operations of the tracker, how many groups were frames, and what is
      recorded. */
  datatype Record = Record(inputs: seq<Input>, ops: seq<R.Op>, frames: nat, entries: seq<Entry>)

  /** The clock of a replay starts at one second and goes on by the milliseconds of the rows. */
  function ClockOf(elapsed: nat): Time { 1_000_000_000 + elapsed * 1_000_000 }

  ghost function SampleOf(source: string, g: Group, sequence: nat, tracks: seq<T.Snapshot>): Observation {
    Observation(source, Some(g.stamp), ClockOf(g.elapsed), sequence, 0,
                |PlacesOf(g.detections, 0)|, |PlacesOf(g.detections, 15)|,
                TopConfidence(g.detections, 0), TopConfidence(g.detections, 15), tracks, 0.0)
  }

  /** A tick moves the clock of the engine and restarts the tracker of an offline camera; a frame, empty or
      not, is tracked and observed under the next number. Each one is recorded with its stamp. */
  ghost function Flushes(setup: RL.Setup, source: string, c: Record, g: Group): Record
    requires setup.config.Valid()
  {
    if g.kind == TickRow then
      var inputs := c.inputs + [Clock(ClockOf(g.elapsed), g.stamp)];
      var context := EngineAfter(setup.senses, source, 1_000_000_000, inputs).context;
      Record(inputs, if context.health == HealthOffline then c.ops + [R.Restart] else c.ops, c.frames,
             c.entries + [Recorded(context, g.stamp)])
    else
      var ops := c.ops + [R.Frame(g.detections, ClockOf(g.elapsed))];
      var inputs := c.inputs + [Sampled(SampleOf(source, g, c.frames + 1, TracksAfter(setup.config, ops)), ClockOf(g.elapsed))];
      Record(inputs, ops, c.frames + 1,
             c.entries + [Recorded(EngineAfter(setup.senses, source, 1_000_000_000, inputs).context, g.stamp)])
  }

  ghost function RecordOf(setup: RL.Setup, source: string, groups: seq<Group>): Record
    requires setup.config.Valid()
  {
    if |groups| == 0 then Record([], [], 0, []) else Flushes(setup, source, RecordOf(setup, source, Front(groups)), Last(groups))
  }

  /** The parts of the replay are where the record takes them. */
  ghost predicate Agrees(setup: RL.Setup, source: string, s: RL.ReplayState, c: Record)
    requires setup.config.Valid()
  {
    && s.engine == EngineAfter(setup.senses, source, 1_000_000_000, c.inputs) && s.engine.context.source == source
    && R.After(setup.config, c.ops) == Some(s.tracker) && s.sequence == c.frames && s.log == c.entries
  }

  lemma {:induction false} SampleExact(source: string, g: Group, sequence: nat, tracks: seq<T.Snapshot>)
    ensures SampleOf(source, g, sequence, tracks) == RL.ObservationOf(source, g, sequence, tracks)
    ensures RL.TimeOf(g.elapsed) == ClockOf(g.elapsed)
  {
    CountExact(g.detections, 0);
    CountExact(g.detections, 15);
  }

  lemma {:induction false} TickAgrees(setup: RL.Setup, source: string, s: RL.ReplayState, c: Record, g: Group)
    requires setup.Built() && Agrees(setup, source, s, c) && g.kind == TickRow
    ensures RL.Flushed(setup, s, g).Success? ==>
              Agrees(setup, source, RL.Flushed(setup, s, g).value, Flushes(setup, source, c, g))
  {
    SampleExact(source, g, 0, []);
    EngineNext(setup.senses, source, 1_000_000_000, c.inputs, Clock(ClockOf(g.elapsed), g.stamp));
    SourceStays(setup.senses, s.engine, Clock(ClockOf(g.elapsed), g.stamp));
    R.AfterSnoc(setup.config, c.ops, R.Restart);
  }

  lemma {:induction false} EngagedAgrees(setup: RL.Setup, source: string, s: RL.ReplayState, inputs: seq<Input>, g: Group,
                                         tracker: T.TrackerState, o: Observation)
    requires s.engine == EngineAfter(setup.senses, source, 1_000_000_000, inputs) && s.engine.context.source == source
    ensures RL.Engaged(setup.senses, s, g, tracker, o).Success? ==>
              var s' := RL.Engaged(setup.senses, s, g, tracker, o).value;
              && s'.engine == EngineAfter(setup.senses, source, 1_000_000_000, inputs + [Sampled(o, ClockOf(g.elapsed))])
              && s'.engine.context.source == source && s'.tracker == tracker && s'.sequence == s.sequence + 1
              && s'.log == s.log + [Recorded(s'.engine.context, g.stamp)]
  {
    SampleExact(source, g, 0, []);
    EngineNext(setup.senses, source, 1_000_000_000, inputs, Sampled(o, ClockOf(g.elapsed)));
    SourceStays(setup.senses, s.engine, Sampled(o, ClockOf(g.elapsed)));
  }

  lemma {:induction false} FrameTracked(setup: RL.Setup, ops: seq<R.Op>, s: T.TrackerState, g: Group)
    requires setup.Built() && R.After(setup.config, ops) == Some(s)
    ensures var (tracker, why), ops' := setup.track(s, g.detections, ClockOf(g.elapsed)),
                                        ops + [R.Frame(g.detections, ClockOf(g.elapsed))];
            why.None? ==>
              && R.After(setup.config, ops') == Some(tracker)
              && TracksAfter(setup.config, ops') == T.Snapshots(tracker.tracks)
  {
    var op := R.Frame(g.detections, ClockOf(g.elapsed));
    R.AfterSnoc(setup.config, ops, op);
    var (tracker, why) := setup.track(s, g.detections, ClockOf(g.elapsed));
    assert why.None? ==> R.Next(setup.config, s, op) == Some(tracker);
  }

  lemma {:induction false} FlushedFrame(setup: RL.Setup, s: RL.ReplayState, g: Group, tracker: T.TrackerState)
    requires g.kind != TickRow && setup.track(s.tracker, g.detections, RL.TimeOf(g.elapsed)) == (tracker, None)
    ensures RL.Flushed(setup, s, g) == RL.Framed(setup.senses, s, g, tracker)
  {
  }

  lemma {:induction false} FramedEngages(setup: RL.Setup, s: RL.ReplayState, g: Group, tracker: T.TrackerState)
    ensures RL.Framed(setup.senses, s, g, tracker) ==
            RL.Engaged(setup.senses, s, g, tracker,
                       RL.ObservationOf(s.engine.context.source, g, s.sequence + 1, T.Snapshots(tracker.tracks)))
  {
  }

  lemma {:induction false} FlushesFrame(setup: RL.Setup, source: string, c: Record, g: Group, ops: seq<R.Op>, o: Observation)
    requires setup.config.Valid() && g.kind != TickRow && ops == c.ops + [R.Frame(g.detections, ClockOf(g.elapsed))]
    requires o == SampleOf(source, g, c.frames + 1, TracksAfter(setup.config, ops))
    ensures var inputs := c.inputs + [Sampled(o, ClockOf(g.elapsed))];
            Flushes(setup, source, c, g) ==
            Record(inputs, ops, c.frames + 1,
                   c.entries + [Recorded(EngineAfter(setup.senses, source, 1_000_000_000, inputs).context, g.stamp)])
  {
  }

  lemma {:induction false} FrameAgrees(setup: RL.Setup, source: string, s: RL.ReplayState, c: Record, g: Group)
    requires setup.Built() && Agrees(setup, source, s, c) && g.kind != TickRow
    ensures RL.Flushed(setup, s, g).Success? ==>
              Agrees(setup, source, RL.Flushed(setup, s, g).value, Flushes(setup, source, c, g))
  {
    SampleExact(source, g, 0, []);
    FrameTracked(setup, c.ops, s.tracker, g);
    var (tracker, why) := setup.track(s.tracker, g.detections, ClockOf(g.elapsed));
    if why.None? {
      var o := RL.ObservationOf(source, g, s.sequence + 1, T.Snapshots(tracker.tracks));
      SampleExact(source, g, s.sequence + 1, T.Snapshots(tracker.tracks));
      EngagedAgrees(setup, source, s, c.inputs, g, tracker, o);
      FlushedFrame(setup, s, g, tracker);
      FramedEngages(setup, s, g, tracker);
      FlushesFrame(setup, source, c, g, c.ops + [R.Frame(g.detections, ClockOf(g.elapsed))], o);
    } else {
      FlushedRefused(setup, s, g);
    }
  }

  lemma {:induction false} FlushedRefused(setup: RL.Setup, s: RL.ReplayState, g: Group)
    requires g.kind != TickRow && setup.track(s.tracker, g.detections, RL.TimeOf(g.elapsed)).1.Some?
    ensures RL.Flushed(setup, s, g).Failure?
  {
  }

  /** A replay is nothing but its parts fed in step: after the groups flushed, the engine is where the
      observations and ticks of the record take it, the tracker where its frames and restarts do, and the
      store holds exactly the contexts of the record with the stamps of their groups. */
  lemma {:induction false} ReplayIsRecord(setup: RL.Setup, source: string, groups: seq<Group>)
    requires setup.Built() && RL.AllFlushed(setup, source, groups).Success?
    ensures Agrees(setup, source, RL.AllFlushed(setup, source, groups).value, RecordOf(setup, source, groups))
    decreases |groups|
  {
    if |groups| > 0 {
      ReplayIsRecord(setup, source, Front(groups));
      var s, c := RL.AllFlushed(setup, source, Front(groups)).value, RecordOf(setup, source, Front(groups));
      if Last(groups).kind == TickRow {
        TickAgrees(setup, source, s, c, Last(groups));
      } else {
        FrameAgrees(setup, source, s, c, Last(groups));
      }
    }
  }
}
