/** The reference rule read off the recorded contexts alone: which context, if any, a reader of the
    timeline is shown at a second. */
module ReferenceLaws {
  import opened Common
  import opened IntervalTable
  import opened Timeline
  import opened TimelineLaws

  /** Context i is of the source and strictly newer than everything recorded of the source before it. */
  ghost predicate Counts(log: seq<Entry>, source: string, i: nat) {
    && i < |log| && log[i].source == source
    && forall j | 0 <= j < i && log[j].source == source :: log[j].at < log[i].at
  }

  /** Context i is the latest one that counts at second t, and less than five seconds old. */
  ghost predicate Decides(log: seq<Entry>, source: string, i: nat, t: int) {
    && Counts(log, source, i) && 0 <= t - log[i].at < 5
    && forall j: nat | Counts(log, source, j) && log[j].at <= t :: log[j].at <= log[i].at
  }

  /** A new observation of the state, and not a held display decision, decides second t. */
  ghost predicate Shown(log: seq<Entry>, source: string, state: State, t: int) {
    exists i: nat :: Decides(log, source, i, t) && log[i].state == state && log[i].evidence != Held
  }

  /** The samples end with the newest context of the source. */
  lemma {:induction false} NewestSample(log: seq<Entry>, source: string)
    ensures var a := SamplesOf(log, source);
            && (forall j | 0 <= j < |log| && log[j].source == source :: |a| > 0 && log[j].at <= Last(a).at)
            && (|a| > 0 ==> exists j :: 0 <= j < |log| && log[j].source == source && log[j].at == Last(a).at)
  {
    if |log| > 0 {
      NewestSample(Front(log), source);
      SampleNext(log, source);
      var a := SamplesOf(Front(log), source);
      if |a| > 0 {
        var j :| 0 <= j < |log| - 1 && Front(log)[j].source == source && Front(log)[j].at == Last(a).at;
        assert log[j].source == source && log[j].at == Last(a).at;
      }
      assert forall j | 0 <= j < |log| - 1 :: Front(log)[j] == log[j];
    }
  }

  /** A context becomes a sample exactly if it counts; what is held becomes unknown. */
  lemma {:induction false} SampleNext(log: seq<Entry>, source: string)
    requires |log| > 0
    ensures var a, b, e := SamplesOf(Front(log), source), SamplesOf(log, source), Last(log);
            b == if e.source == source && (|a| == 0 || Last(a).at < e.at)
                 then a + [Sample(e.at, if e.evidence == Held then Unknown else e.state)] else a
  {
    var mine := EntriesOf(Front(log), source);
    if Last(log).source == source {
      assert EntriesOf(log, source) == mine + [Last(log)];
      assert Front(mine + [Last(log)]) == mine;
    } else {
      assert EntriesOf(log, source) == mine;
    }
  }

  lemma {:induction false} LastCounts(log: seq<Entry>, source: string)
    requires |log| > 0
    ensures var a := SamplesOf(Front(log), source);
            Counts(log, source, |log| - 1) <==> Last(log).source == source && (|a| == 0 || Last(a).at < Last(log).at)
  {
    var front, a := Front(log), SamplesOf(Front(log), source);
    NewestSample(front, source);
    if |a| > 0 {
      var j :| 0 <= j < |front| && front[j].source == source && front[j].at == Last(a).at;
      assert log[j].source == source && log[j].at == Last(a).at;
    }
    forall j | 0 <= j < |front| && log[j].source == source ensures |a| > 0 && log[j].at <= Last(a).at {
      assert front[j] == log[j];
    }
  }

  lemma {:induction false} CountsBefore(log: seq<Entry>, source: string, i: nat)
    requires |log| > 0 && i < |log| - 1
    ensures Counts(log, source, i) <==> Counts(Front(log), source, i)
  {
    assert forall j | 0 <= j <= i :: Front(log)[j] == log[j];
  }

  /** What decides a second before a new context does not change. */
  lemma {:induction false} DecidesBefore(log: seq<Entry>, source: string, i: nat, t: int)
    requires |log| > 0 && i < |log| - 1
    requires !Counts(log, source, |log| - 1) || t < Last(log).at
    ensures Decides(log, source, i, t) <==> Decides(Front(log), source, i, t)
  {
    var front := Front(log);
    forall j: nat ensures Counts(log, source, j) && log[j].at <= t <==> Counts(front, source, j) && front[j].at <= t {
      if j < |front| { CountsBefore(log, source, j); }
    }
    assert front[i] == log[i];
    if Decides(log, source, i, t) {
      forall j: nat | Counts(front, source, j) && front[j].at <= t ensures front[j].at <= front[i].at {
        assert Counts(log, source, j) && front[j] == log[j];
      }
    }
    if Decides(front, source, i, t) {
      forall j: nat | Counts(log, source, j) && log[j].at <= t ensures log[j].at <= log[i].at {
        assert Counts(front, source, j) && front[j] == log[j];
      }
    }
  }

  lemma {:induction false} ShownBefore(log: seq<Entry>, source: string, state: State, t: int)
    requires |log| > 0
    requires !Counts(log, source, |log| - 1) || t < Last(log).at
    ensures Shown(log, source, state, t) <==> Shown(Front(log), source, state, t)
  {
    var front := Front(log);
    if Shown(log, source, state, t) {
      var i: nat :| Decides(log, source, i, t) && log[i].state == state && log[i].evidence != Held;
      DecidesBefore(log, source, i, t);
      assert front[i] == log[i];
    }
    if Shown(front, source, state, t) {
      var i: nat :| Decides(front, source, i, t) && front[i].state == state && front[i].evidence != Held;
      DecidesBefore(log, source, i, t);
      assert front[i] == log[i];
    }
  }

  /** From its own second on the newest context decides alone. */
  lemma {:induction false} NewestDecides(log: seq<Entry>, source: string, i: nat, t: int)
    requires |log| > 0 && Counts(log, source, |log| - 1) && t >= Last(log).at
    ensures Decides(log, source, i, t) <==> i == |log| - 1 && t - Last(log).at < 5
  {
    var n := |log| - 1;
    assert Counts(log, source, n) && log[n].at <= t;
    assert forall j: nat | Counts(log, source, j) :: log[j].at <= log[n].at;
  }

  /** The reference rule, stated on the log: a second has a known state exactly if a new observation of
      that state decides it. */
  lemma {:induction false} ReferenceRule(log: seq<Entry>, source: string, state: State, t: int)
    requires state != Unknown
    ensures StateAt(SamplesOf(log, source), t) == state <==> Shown(log, source, state, t)
  {
    if |log| > 0 {
      var n := |log| - 1;
      SampleNext(log, source);
      LastCounts(log, source);
      ReferenceRule(Front(log), source, state, t);
      if Counts(log, source, n) && t >= Last(log).at {
        forall i: nat ensures Decides(log, source, i, t) <==> i == n && t - Last(log).at < 5 {
          NewestDecides(log, source, i, t);
        }
      } else {
        var a, b := SamplesOf(Front(log), source), SamplesOf(log, source);
        if b != a { assert Front(b) == a; }
        ShownBefore(log, source, state, t);
      }
    }
  }

  /** For every log and every window: each second lies in one interval of the answer, and that interval
      shows a known state exactly if the latest context that counts at that second is less than five
      seconds old, shows that state, and is not held. */
  lemma {:induction false} AnswerMeans(log: seq<Entry>, source: string, begin: int, end: int, t: int) returns (k: nat)
    requires (forall e | e in log :: e.Valid()) && begin <= t < end
    ensures var iv := Answer(TableOf(log), source, begin, end).intervals;
            && k < |iv| && iv[k].start <= t < iv[k].end
            && (forall i | 0 <= i < |iv| && iv[i].start <= t < iv[i].end :: i == k)
            && (forall state | state != Unknown :: iv[k].state == state <==> Shown(log, source, state, t))
  {
    TimelineMeaning(log, source, begin, end);
    k := EverySecond(Answer(TableOf(log), source, begin, end).intervals, SamplesOf(log, source), begin, end, t);
    forall state | state != Unknown
      ensures StateAt(SamplesOf(log, source), t) == state <==> Shown(log, source, state, t)
    {
      ReferenceRule(log, source, state, t);
    }
  }

  /** A held context newer than everything of its source leaves its second unknown. */
  lemma {:induction false} HeldIsUnknown(log: seq<Entry>, e: Entry, begin: int, end: int) returns (k: nat)
    requires (forall o | o in log :: o.Valid()) && e.Valid() && e.evidence == Held
    requires (forall o | o in log && o.source == e.source :: o.at < e.at) && begin <= e.at < end
    ensures var iv := Answer(TableOf(log + [e]), e.source, begin, end).intervals;
            k < |iv| && iv[k].start <= e.at < iv[k].end && iv[k].state == Unknown
  {
    var more := log + [e];
    k := AnswerMeans(more, e.source, begin, end, e.at);
    forall j | 0 <= j < |log| && more[j].source == e.source ensures more[j].at < e.at { assert more[j] in log; }
    assert Counts(more, e.source, |log|);
    forall state | state != Unknown ensures !Shown(more, e.source, state, e.at) {
      forall i: nat ensures Decides(more, e.source, i, e.at) ==> i == |log| { NewestDecides(more, e.source, i, e.at); }
    }
    var state := Answer(TableOf(more), e.source, begin, end).intervals[k].state;
    assert state != Unknown ==> Shown(more, e.source, state, e.at);
  }

  // ----- where intervals meet -----

  /** The timeline is cut wherever the state changes; elsewhere only within unknown time, where a sample of
      the unknown state begins or runs out. */
  lemma {:induction false} CutExact(a: seq<Sample>, t: int)
    requires forall i, j | 0 <= i < j < |a| :: a[i].at < a[j].at
    ensures StateAt(a, t) != StateAt(a, t - 1) ==> CutAt(a, t)
    ensures CutAt(a, t) && StateAt(a, t) == StateAt(a, t - 1) ==>
              && StateAt(a, t) == Unknown
              && exists i :: 0 <= i < |a| && a[i].state == Unknown && (a[i].at == t || a[i].at == t - 5)
    decreases |a|
  {
    if |a| > 0 {
      if t < Last(a).at {
        CutExact(Front(a), t);
        assert forall i | 0 <= i < |a| - 1 :: Front(a)[i] == a[i];
      } else {
        assert a[|a| - 1] == Last(a);
        assert StateAt(a, t - 1) == if t == Last(a).at then StateAt(Front(a), t - 1) else StateAt(a, t - 1);
        if |a| > 1 {
          assert Last(Front(a)) == a[|a| - 2] && a[|a| - 2].at < t;
          assert StateAt(Front(a), t - 1) == if t - 1 - a[|a| - 2].at < 5 then a[|a| - 2].state else Unknown;
        }
      }
    }
  }

  lemma {:induction false} RenderedNeighbours(iv: seq<Interval>, a: seq<Sample>, begin: int, end: int, k: nat)
    requires Renders(iv, a, begin, end) && k + 1 < |iv|
    ensures iv[k].start < iv[k].end == iv[k + 1].start < iv[k + 1].end && CutAt(a, iv[k + 1].start)
    ensures iv[k].state == StateAt(a, iv[k + 1].start - 1) && iv[k + 1].state == StateAt(a, iv[k + 1].start)
    decreases |iv|
  {
    if k + 1 < |iv| - 1 {
      RenderedNeighbours(Front(iv), a, begin, Last(iv).start, k);
    } else {
      assert Last(Front(iv)) == iv[k];
    }
  }

  /** Equal neighbours are merged: in every answer an interval of a known state is followed at once by an
      interval of another state. */
  lemma {:induction false} NeighboursDiffer(log: seq<Entry>, source: string, begin: int, end: int, k: nat)
    requires (forall e | e in log :: e.Valid()) && k + 1 < |Answer(TableOf(log), source, begin, end).intervals|
    ensures var iv := Answer(TableOf(log), source, begin, end).intervals;
            && iv[k].start < iv[k].end == iv[k + 1].start < iv[k + 1].end
            && (iv[k].state != Unknown ==> iv[k + 1].state != iv[k].state)
  {
    var iv, a := Answer(TableOf(log), source, begin, end).intervals, SamplesOf(log, source);
    TimelineMeaning(log, source, begin, end);
    RenderedNeighbours(iv, a, begin, Max(begin, end), k);
    CutExact(a, iv[k + 1].start);
  }
}
