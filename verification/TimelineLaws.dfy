/** What the timeline promises its readers: one answer per meaning, a past that does not change,
    seconds that add up, and no more known time than the samples can carry. */
module TimelineLaws {
  import opened Common
  import opened IntervalTable
  import opened Timeline

  lemma {:induction false} StatesKnown(log: seq<Entry>, source: string)
    requires forall e | e in log :: e.Valid()
    ensures forall i | 0 <= i < |TableOf(log)| :: TableOf(log)[i].state in STATES
    ensures forall r | r in RowsOf(TableOf(log), source) :: r.state in STATES
  {
    if |log| > 0 {
      StatesKnown(Front(log), source);
      assert Last(log) in log;
    }
    RowsAreRows(TableOf(log), source);
  }

  lemma {:induction false} RowsAreRows(rows: seq<Row>, source: string)
    ensures forall r | r in RowsOf(rows, source) :: r in rows
  {
    if |rows| > 0 { RowsAreRows(Front(rows), source); }
  }

  /** Main result. For every log of calls and every window, the answer renders the reference rule on
      the accepted samples of the source. */
  lemma {:induction false} TimelineMeaning(log: seq<Entry>, source: string, begin: int, end: int)
    requires forall e | e in log :: e.Valid()
    ensures var answer := Answer(TableOf(log), source, begin, end);
            && Renders(answer.intervals, SamplesOf(log, source), begin, Max(begin, end))
            && Totals(answer.totals, answer.intervals)
  {
    TableMeaning(log, source);
    StatesKnown(log, source);
    AnswerRenders(TableOf(log), source, SamplesOf(log, source), begin, end);
  }

  /** Read second by second: every second of the window lies in exactly one interval, and that
      interval shows the state of the reference rule. */
  lemma {:induction false} EverySecond(iv: seq<Interval>, a: seq<Sample>, begin: int, end: int, t: int) returns (k: nat)
    requires Renders(iv, a, begin, end) && begin <= t < end
    ensures k < |iv| && iv[k].start <= t < iv[k].end && iv[k].state == StateAt(a, t)
    ensures forall i | 0 <= i < |iv| && iv[i].start <= t < iv[i].end :: i == k
  {
    if Last(iv).start <= t {
      k := |iv| - 1;
      forall i | 0 <= i < |iv| - 1 ensures iv[i].end <= Last(iv).start { EndsBefore(Front(iv), a, begin, Last(iv).start, i); }
    } else {
      k := EverySecond(Front(iv), a, begin, Last(iv).start, t);
    }
  }

  lemma {:induction false} EndsBefore(iv: seq<Interval>, a: seq<Sample>, begin: int, end: int, i: nat)
    requires Renders(iv, a, begin, end) && i < |iv|
    ensures begin <= iv[i].start < iv[i].end <= end
  {
    RendersForward(Front(iv), a, begin, Last(iv).start);
    if i < |iv| - 1 { EndsBefore(Front(iv), a, begin, Last(iv).start, i); }
  }

  // ----- one rendering only -----

  ghost predicate Agree(a: seq<Sample>, b: seq<Sample>, begin: int, end: int) {
    forall t | begin <= t < end :: StateAt(a, t) == StateAt(b, t) && (CutAt(a, t) <==> CutAt(b, t))
  }

  /** Samples that agree on a window have the same rendering there. */
  lemma {:induction false} OneRendering(
    iv: seq<Interval>, jv: seq<Interval>, a: seq<Sample>, b: seq<Sample>, begin: int, end: int)
    requires Renders(iv, a, begin, end) && Renders(jv, b, begin, end) && Agree(a, b, begin, end)
    ensures iv == jv
  {
    RendersForward(iv, a, begin, end);
    RendersForward(jv, b, begin, end);
    if |iv| > 0 {
      var i, j := Last(iv), Last(jv);
      RendersForward(Front(iv), a, begin, i.start);
      RendersForward(Front(jv), b, begin, j.start);
      assert StateAt(a, end - 1) == i.state && StateAt(b, end - 1) == j.state;
      assert begin < i.start ==> CutAt(a, i.start);
      assert begin < j.start ==> CutAt(b, j.start);
      assert i.start == j.start;
      OneRendering(Front(iv), Front(jv), a, b, begin, i.start);
      assert iv == Front(iv) + [i] && jv == Front(jv) + [j];
    }
  }

  lemma {:induction false} SameTotals(t: map<State, int>, u: map<State, int>, iv: seq<Interval>)
    requires Totals(t, iv) && Totals(u, iv)
    ensures t == u
  {
    assert forall s | s in t :: t[s] == u[s];
  }

  lemma {:induction false} SamplesSnoc(log: seq<Entry>, e: Entry, source: string)
    ensures var a, b := SamplesOf(log, source), SamplesOf(log + [e], source);
            b == a || b == a + [Sample(e.at, e.Recorded())]
  {
    assert Front(log + [e]) == log;
    var mine := EntriesOf(log, source);
    assert Front(mine + [e]) == mine;
    assert mine + [] == mine;
  }

  /** Past answers never change: recording a sample leaves the whole answer, intervals and totals,
      of every query that looks no further than the time of the sample. */
  lemma {:induction false} PastUnchanged(log: seq<Entry>, e: Entry, source: string, begin: int, end: int)
    requires e.Valid() && (forall o | o in log :: o.Valid()) && end <= e.at
    ensures var before := Answer(TableOf(log), source, begin, end);
            var after := Answer(TableOf(log + [e]), source, begin, end);
            before.intervals == after.intervals && before.totals == after.totals
  {
    TimelineMeaning(log, source, begin, end);
    TimelineMeaning(log + [e], source, begin, end);
    SamplesSnoc(log, e, source);
    SameAnswer(Answer(TableOf(log), source, begin, end), Answer(TableOf(log + [e]), source, begin, end),
               SamplesOf(log, source), SamplesOf(log + [e], source), Sample(e.at, e.Recorded()), begin, end);
  }

  lemma {:induction false} SameAnswer(before: Sweep, after: Sweep, a: seq<Sample>, b: seq<Sample>, s: Sample,
                                      begin: int, end: int)
    requires Renders(before.intervals, a, begin, Max(begin, end)) && Totals(before.totals, before.intervals)
    requires Renders(after.intervals, b, begin, Max(begin, end)) && Totals(after.totals, after.intervals)
    requires (b == a || b == a + [s]) && end <= s.at
    ensures before.intervals == after.intervals && before.totals == after.totals
  {
    if b != a { assert Front(b) == a; }
    OneRendering(before.intervals, after.intervals, a, b, begin, Max(begin, end));
    SameTotals(before.totals, after.totals, before.intervals);
  }

  /** An answer cut short. */
  function Truncated(iv: seq<Interval>, end: int): seq<Interval> {
    if |iv| == 0 then []
    else if Last(iv).start >= end then Truncated(Front(iv), end)
    else Front(iv) + [Last(iv).(end := Min(Last(iv).end, end))]
  }

  lemma {:induction false} TruncatedRenders(iv: seq<Interval>, a: seq<Sample>, begin: int, end: int, cut: int)
    requires Renders(iv, a, begin, end) && begin <= cut <= end
    ensures Renders(Truncated(iv, cut), a, begin, cut)
  {
    if |iv| > 0 {
      RendersForward(Front(iv), a, begin, Last(iv).start);
      if Last(iv).start >= cut {
        TruncatedRenders(Front(iv), a, begin, Last(iv).start, cut);
      } else {
        assert Front(Truncated(iv, cut)) == Front(iv);
      }
    }
  }

  /** Asking later only extends an answer: the earlier one is the later one cut short. */
  lemma {:induction false} LaterExtends(log: seq<Entry>, source: string, begin: int, windowEnd: int, now: int,
                                        later: int)
    requires (forall e | e in log :: e.Valid()) && now <= later
    ensures Answer(TableOf(log), source, begin, Min(windowEnd, now)).intervals ==
            Truncated(Answer(TableOf(log), source, begin, Min(windowEnd, later)).intervals,
                      Max(begin, Min(windowEnd, now)))
  {
    var a := SamplesOf(log, source);
    var end, cut := Max(begin, Min(windowEnd, later)), Max(begin, Min(windowEnd, now));
    TimelineMeaning(log, source, begin, Min(windowEnd, now));
    TimelineMeaning(log, source, begin, Min(windowEnd, later));
    var long := Answer(TableOf(log), source, begin, Min(windowEnd, later)).intervals;
    TruncatedRenders(long, a, begin, end, cut);
    OneRendering(Answer(TableOf(log), source, begin, Min(windowEnd, now)).intervals, Truncated(long, cut),
                 a, a, begin, cut);
  }

  // ----- seconds -----

  /** How many seconds of [begin, end) the reference rule gives a state among some. */
  function SecondsOf(a: seq<Sample>, states: set<State>, begin: int, end: int): nat
    decreases end - begin
  {
    if end <= begin then 0
    else SecondsOf(a, states, begin, end - 1) + if StateAt(a, end - 1) in states then 1 else 0
  }

  lemma {:induction false} SecondsSplit(a: seq<Sample>, states: set<State>, begin: int, mid: int, end: int)
    requires begin <= mid <= end
    ensures SecondsOf(a, states, begin, end) == SecondsOf(a, states, begin, mid) + SecondsOf(a, states, mid, end)
    decreases end - mid
  {
    if mid < end { SecondsSplit(a, states, begin, mid, end - 1); }
  }

  lemma {:induction false} SecondsConstant(a: seq<Sample>, states: set<State>, state: State, begin: int, end: int)
    requires begin <= end && forall t | begin <= t < end :: StateAt(a, t) == state
    ensures SecondsOf(a, states, begin, end) == if state in states then end - begin else 0
    decreases end - begin
  {
    if begin < end { SecondsConstant(a, states, state, begin, end - 1); }
  }

  /** Interval sums count seconds of the reference rule. */
  lemma {:induction false} SecondsMeaning(iv: seq<Interval>, a: seq<Sample>, begin: int, end: int, state: State)
    requires Renders(iv, a, begin, end)
    ensures SecondsIn(iv, state) == SecondsOf(a, {state}, begin, end)
  {
    if |iv| > 0 {
      var i := Last(iv);
      RendersForward(Front(iv), a, begin, i.start);
      SecondsMeaning(Front(iv), a, begin, i.start, state);
      SecondsSplit(a, {state}, begin, i.start, end);
      SecondsConstant(a, {state}, i.state, i.start, end);
    }
  }

  /** Every second of a window is counted in exactly one total, on the state of the reference rule. */
  lemma {:induction false} TotalsMeaning(log: seq<Entry>, source: string, begin: int, end: int)
    requires forall e | e in log :: e.Valid()
    ensures var totals := Answer(TableOf(log), source, begin, end).totals;
            && totals.Keys == STATES
            && (forall s | s in STATES :: totals[s] == SecondsOf(SamplesOf(log, source), {s}, begin, end))
            && totals[Active] + totals[Resting] + totals[OutOfView] + totals[Offline] + totals[Unknown] ==
               Max(0, end - begin)
  {
    var a := SamplesOf(log, source);
    var answer := Answer(TableOf(log), source, begin, end);
    TimelineMeaning(log, source, begin, end);
    forall s | s in STATES ensures answer.totals[s] == SecondsOf(a, {s}, begin, end) {
      SecondsMeaning(answer.intervals, a, begin, Max(begin, end), s);
    }
    StatesStayKnown(log, source);
    SecondsAdd(a, begin, end);
  }

  lemma {:induction false} StatesStayKnown(log: seq<Entry>, source: string)
    requires forall e | e in log :: e.Valid()
    ensures forall i | 0 <= i < |SamplesOf(log, source)| :: SamplesOf(log, source)[i].state in STATES
  {
    if |log| > 0 {
      StatesStayKnown(Front(log), source);
      assert Last(log) in log;
      assert log == Front(log) + [Last(log)];
      SamplesSnoc(Front(log), Last(log), source);
    }
  }

  lemma {:induction false} StateAtKnown(a: seq<Sample>, t: int)
    requires forall i | 0 <= i < |a| :: a[i].state in STATES
    ensures StateAt(a, t) in STATES
  {
    if |a| > 0 { StateAtKnown(Front(a), t); }
  }

  const KNOWN: set<State> := {Active, Resting, OutOfView, Offline}

  lemma {:induction false} SecondsAdd(a: seq<Sample>, begin: int, end: int)
    requires forall i | 0 <= i < |a| :: a[i].state in STATES
    ensures SecondsOf(a, {Active}, begin, end) + SecondsOf(a, {Resting}, begin, end) +
            SecondsOf(a, {OutOfView}, begin, end) + SecondsOf(a, {Offline}, begin, end) ==
            SecondsOf(a, KNOWN, begin, end)
    ensures SecondsOf(a, KNOWN, begin, end) + SecondsOf(a, {Unknown}, begin, end) == Max(0, end - begin)
    decreases end - begin
  {
    if begin < end {
      SecondsAdd(a, begin, end - 1);
      StateAtKnown(a, end - 1);
    }
  }

  /** Adjacent windows neither lose nor double count a second, whenever they are asked. */
  lemma {:induction false} AdjacentWindows(log: seq<Entry>, source: string, begin: int, mid: int, end: int, now: int,
                                           state: State)
    requires (forall e | e in log :: e.Valid()) && begin <= mid <= end && state in STATES
    ensures state in Answer(TableOf(log), source, begin, Min(mid, now)).totals
    ensures state in Answer(TableOf(log), source, mid, Min(end, now)).totals
    ensures Answer(TableOf(log), source, begin, Min(mid, now)).totals[state] +
            Answer(TableOf(log), source, mid, Min(end, now)).totals[state] ==
            SecondsOf(SamplesOf(log, source), {state}, begin, Min(end, now))
  {
    TotalsMeaning(log, source, begin, Min(mid, now));
    TotalsMeaning(log, source, mid, Min(end, now));
    if mid <= now { SecondsSplit(SamplesOf(log, source), {state}, begin, mid, Min(end, now)); }
  }

  function KnownSamples(a: seq<Sample>): nat {
    if |a| == 0 then 0 else KnownSamples(Front(a)) + if Last(a).state in KNOWN then 1 else 0
  }

  lemma {:induction false} SecondsSame(a: seq<Sample>, b: seq<Sample>, states: set<State>, begin: int, end: int)
    requires forall t | begin <= t < end :: StateAt(a, t) == StateAt(b, t)
    ensures SecondsOf(a, states, begin, end) == SecondsOf(b, states, begin, end)
    decreases end - begin
  {
    if begin < end { SecondsSame(a, b, states, begin, end - 1); }
  }

  /** A sample carries at most five seconds. */
  lemma {:induction false} KnownSecondsBounded(a: seq<Sample>, begin: int, end: int)
    requires begin <= end
    ensures SecondsOf(a, KNOWN, begin, end) <= HOLD * KnownSamples(a)
  {
    if |a| == 0 {
      SecondsConstant(a, KNOWN, Unknown, begin, end);
    } else {
      var s := Last(a);
      var from := Max(begin, Min(end, s.at));
      var to := Max(begin, Min(end, s.at + HOLD));
      KnownSecondsBounded(Front(a), begin, from);
      SecondsSame(a, Front(a), KNOWN, begin, from);
      SecondsConstant(a, KNOWN, s.state, from, to);
      SecondsConstant(a, KNOWN, Unknown, to, end);
      SecondsSplit(a, KNOWN, begin, from, end);
      SecondsSplit(a, KNOWN, from, to, end);
    }
  }

  /** No window reports more known seconds than five per accepted sample of a known state. */
  lemma {:induction false} ReportedSecondsBounded(log: seq<Entry>, source: string, begin: int, end: int)
    requires forall e | e in log :: e.Valid()
    ensures var totals := Answer(TableOf(log), source, begin, end).totals;
            && totals.Keys == STATES
            && totals[Active] + totals[Resting] + totals[OutOfView] + totals[Offline] <=
               HOLD * KnownSamples(SamplesOf(log, source))
  {
    TotalsMeaning(log, source, begin, end);
    StatesStayKnown(log, source);
    SecondsAdd(SamplesOf(log, source), begin, end);
    if begin <= end { KnownSecondsBounded(SamplesOf(log, source), begin, end); }
  }

  /** The sweep relies on the chain: after a row that ends before it starts, the cursor falls back
      behind what the leading unknown interval already covers, and seconds are counted twice. */
  lemma {:induction false} SweepNeedsTheChain()
    ensures var backward := Row("cam", Active, 1.0, 4, 2, 4, false);
            && Answer([backward], "cam", 0, 10).intervals == [Interval(Unknown, 0, 4), Interval(Unknown, 2, 10)]
            && Answer([backward], "cam", 0, 10).totals[Unknown] == 12
  {
    var backward := Row("cam", Active, 1.0, 4, 2, 4, false);
    assert Front([backward]) == [] && RowsOf([backward], "cam") == [backward];
    assert Touching([backward], 0, 10) == [backward];
    assert Ordered([backward]) == [backward];
    OneRow(backward, 0, 10);
    var s := Sweep(0, [], NO_SECONDS).Row(backward, 0, 10);
    assert s.cursor == 2 && s.intervals == [Interval(Unknown, 0, 4)] && s.totals[Unknown] == 4;
  }

  lemma {:induction false} OneRow(r: Row, begin: int, end: int)
    requires Selected([r], r.source, begin, end) == [r]
    ensures var s := Sweep(begin, [], NO_SECONDS).Row(r, begin, end);
            Answer([r], r.source, begin, end) == s.Emit(Unknown, s.cursor, end)
  {
    assert Front([r]) == [] && Last([r]) == r;
    var selected := Selected([r], r.source, begin, end);
    assert Swept(Front(selected), begin, end) == Sweep(begin, [], NO_SECONDS);
    assert Swept(selected, begin, end) == Sweep(begin, [], NO_SECONDS).Row(r, begin, end);
  }
}
