/** The acceptance monitor: what it requires of a timeline and of a published context. */
module Acceptance {
  import opened Common
  import opened IntervalTable
  import opened Timeline
  import opened TimelineLaws
  import opened EventStore

  /** An interval as read from an answer, with the duration it claims. */
  datatype Shown = Shown(state: State, start: int, end: int, duration: int)

  datatype Complaint = BadTotals | BadInterval | BadDuration | TotalsMismatch

  function Measured(iv: seq<Shown>, state: State): int {
    if |iv| == 0 then 0
    else Measured(Front(iv), state) + if Last(iv).state == state then Last(iv).end - Last(iv).start else 0
  }

  function SumOfTotals(totals: map<State, int>): int
    requires totals.Keys == STATES
  {
    totals[Active] + totals[Resting] + totals[OutOfView] + totals[Offline] + totals[Unknown]
  }

  ghost predicate GoodTotals(totals: map<State, int>) {
    totals.Keys == STATES && forall s | s in STATES :: totals[s] >= 0
  }

  predicate GoodNext(i: Shown, cursor: int, day: int) {
    i.state in STATES && i.start == cursor && i.start < i.end <= day + 86400 && i.duration == i.end - i.start
  }

  /** Intervals of known states, positive length and true duration, one after the other from the
      start of the day, none past its end. */
  ghost predicate GoodIntervals(iv: seq<Shown>, day: int) {
    |iv| > 0 ==>
      && GoodIntervals(Front(iv), day)
      && GoodNext(Last(iv), if |iv| == 1 then day else iv[|iv| - 2].end, day)
  }

  ghost predicate Acceptable(day: int, iv: seq<Shown>, totals: map<State, int>) {
    && GoodTotals(totals) && GoodIntervals(iv, day)
    && (forall s | s in STATES :: totals[s] == Measured(iv, s))
    && SumOfTotals(totals) <= 86400
  }

  /** One bad interval spoils the list. */
  lemma {:induction false} Spoiled(iv: seq<Shown>, day: int, n: nat)
    requires n < |iv| && !GoodNext(iv[n], if n == 0 then day else iv[n - 1].end, day)
    ensures !GoodIntervals(iv, day)
  {
    if n < |iv| - 1 { Spoiled(Front(iv), day, n); }
  }

  lemma {:induction false} SameMap(m: map<State, int>, n: map<State, int>)
    requires m.Keys == n.Keys
    ensures m == n <==> forall s | s in m.Keys :: m[s] == n[s]
  {
  }

  method ValidateTimeline(day: int, iv: seq<Shown>, totals: map<State, int>) returns (complaint: Option<Complaint>)
    ensures complaint.None? <==> Acceptable(day, iv, totals)
    ensures complaint == Some(BadTotals) <==> !GoodTotals(totals)
    ensures complaint == Some(TotalsMismatch) ==> GoodIntervals(iv, day)
  {
    if totals.Keys != STATES || exists s | s in totals :: totals[s] < 0 {
      return Some(BadTotals);
    }
    var cursor := day;
    var measured := map s | s in STATES :: 0;
    var i := 0;
    while i < |iv|
      invariant 0 <= i <= |iv|
      invariant GoodIntervals(iv[..i], day) && cursor == if i == 0 then day else iv[i - 1].end
      invariant measured.Keys == STATES && forall s | s in STATES :: measured[s] == Measured(iv[..i], s)
    {
      var shown := iv[i];
      assert Front(iv[..i + 1]) == iv[..i];
      var seconds := shown.end - shown.start;
      if shown.state !in STATES || shown.start != cursor || shown.end <= shown.start || shown.end > day + DAY {
        Spoiled(iv, day, i);
        return Some(BadInterval);
      }
      if shown.duration != seconds {
        Spoiled(iv, day, i);
        return Some(BadDuration);
      }
      measured := measured[shown.state := measured[shown.state] + seconds];
      cursor := shown.end;
      i := i + 1;
    }
    assert iv[..i] == iv;
    SameMap(measured, totals);
    if measured != totals || SumOfTotals(totals) > DAY {
      return Some(TotalsMismatch);
    }
    complaint := None;
  }

  /** How an answer is written out. */
  function Displayed(iv: seq<Interval>): seq<Shown> {
    if |iv| == 0 then []
    else Displayed(Front(iv)) + [Shown(Last(iv).state, Last(iv).start, Last(iv).end, Last(iv).Seconds())]
  }

  lemma {:induction false} DisplayedMeasures(iv: seq<Interval>, s: State)
    ensures |Displayed(iv)| == |iv| && Measured(Displayed(iv), s) == SecondsIn(iv, s)
    ensures |iv| > 0 ==> Last(Displayed(iv)).end == Last(iv).end
  {
    if |iv| > 0 {
      DisplayedMeasures(Front(iv), s);
      var i := Last(iv);
      assert Front(Displayed(iv)) == Displayed(Front(iv));
    }
  }

  lemma {:induction false} DisplayedGood(iv: seq<Interval>, a: seq<Sample>, begin: int, end: int, day: int)
    requires Renders(iv, a, begin, end)
    requires forall i | 0 <= i < |a| :: a[i].state in STATES
    ensures GoodIntervals(Displayed(iv), day) <==> |iv| == 0 || (begin == day && end <= day + DAY)
  {
    if |iv| > 0 {
      var i := Last(iv);
      DisplayedGood(Front(iv), a, begin, i.start, day);
      DisplayedMeasures(Front(iv), Unknown);
      RendersForward(Front(iv), a, begin, i.start);
      StateAtKnown(a, i.start);
      GoodSnoc(Displayed(Front(iv)), Shown(i.state, i.start, i.end, i.Seconds()), day);
    }
  }

  lemma {:induction false} GoodSnoc(iv: seq<Shown>, i: Shown, day: int)
    ensures GoodIntervals(iv + [i], day) <==>
            GoodIntervals(iv, day) && GoodNext(i, if |iv| == 0 then day else Last(iv).end, day)
  {
    assert Front(iv + [i]) == iv;
  }

  /** The monitor accepts an answer exactly when it is empty or starts at midnight UTC and stays
      within that day. */
  lemma {:induction false} AcceptedAnswers(log: seq<Entry>, source: string, day: int, begin: int, end: int)
    requires forall e | e in log :: e.Valid()
    ensures var answer := Answer(TableOf(log), source, begin, end);
            Acceptable(day, Displayed(answer.intervals), answer.totals) <==>
            end <= begin || (begin == day && end <= day + DAY)
  {
    var answer := Answer(TableOf(log), source, begin, end);
    TimelineMeaning(log, source, begin, end);
    TotalsMeaning(log, source, begin, end);
    StatesStayKnown(log, source);
    RenderedAcceptable(answer.intervals, SamplesOf(log, source), answer.totals, begin, end, day);
  }

  lemma {:induction false} RenderedAcceptable(iv: seq<Interval>, a: seq<Sample>, totals: map<State, int>, begin: int,
                                              end: int, day: int)
    requires Renders(iv, a, begin, Max(begin, end)) && Totals(totals, iv)
    requires forall i | 0 <= i < |a| :: a[i].state in STATES
    requires forall s | s in STATES :: totals[s] >= 0
    requires SumOfTotals(totals) == Max(0, end - begin)
    ensures Acceptable(day, Displayed(iv), totals) <==> end <= begin || (begin == day && end <= day + DAY)
  {
    RenderedGood(iv, a, begin, end, day);
    DisplayedTotals(iv, totals);
    FourChecks(day, Displayed(iv), totals, begin, end);
  }

  lemma {:induction false} FourChecks(day: int, shown: seq<Shown>, totals: map<State, int>, begin: int, end: int)
    requires GoodTotals(totals) && forall s | s in STATES :: totals[s] == Measured(shown, s)
    requires GoodIntervals(shown, day) <==> end <= begin || (begin == day && end <= day + DAY)
    requires SumOfTotals(totals) == Max(0, end - begin)
    ensures Acceptable(day, shown, totals) <==> end <= begin || (begin == day && end <= day + DAY)
  {
  }

  lemma {:induction false} RenderedGood(iv: seq<Interval>, a: seq<Sample>, begin: int, end: int, day: int)
    requires Renders(iv, a, begin, Max(begin, end))
    requires forall i | 0 <= i < |a| :: a[i].state in STATES
    ensures GoodIntervals(Displayed(iv), day) <==> end <= begin || (begin == day && end <= day + DAY)
  {
    RendersForward(iv, a, begin, Max(begin, end));
    DisplayedGood(iv, a, begin, Max(begin, end), day);
  }

  lemma {:induction false} DisplayedTotals(iv: seq<Interval>, totals: map<State, int>)
    requires Totals(totals, iv)
    ensures forall s | s in STATES :: totals[s] == Measured(Displayed(iv), s)
  {
    forall s | s in STATES ensures totals[s] == Measured(Displayed(iv), s) { DisplayedMeasures(iv, s); }
  }

  /** In particular it accepts every UTC-day answer, whenever asked. */
  lemma {:induction false} UtcDaysAccepted(log: seq<Entry>, source: string, day: int, now: int)
    requires forall e | e in log :: e.Valid()
    ensures var answer := Answer(TableOf(log), source, day, Min(day + DAY, now));
            Acceptable(day, Displayed(answer.intervals), answer.totals)
  {
    AcceptedAnswers(log, source, day, day, Min(day + DAY, now));
  }
}
