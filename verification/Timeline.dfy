/** The timeline query: select the rows of a window, sweep a cursor over them, total the seconds. */
module Timeline {
  import opened Common
  import opened IntervalTable

  datatype Interval = Interval(state: State, start: int, end: int)
  {
    function Seconds(): int { end - start }
  }

  // ----- the SELECT -----

  /** WHERE start_ts < end AND last_seen_ts + 5 > begin. */
  predicate Touches(r: Row, begin: int, end: int) { r.start < end && r.lastSeen + HOLD > begin }

  function Touching(rows: seq<Row>, begin: int, end: int): seq<Row> {
    if |rows| == 0 then []
    else Touching(Front(rows), begin, end) + (if Touches(Last(rows), begin, end) then [Last(rows)] else [])
  }

  /** ORDER BY start_ts, id: a row goes after every row that does not start later. */
  function Place(sorted: seq<Row>, r: Row): seq<Row> {
    if |sorted| == 0 || Last(sorted).start <= r.start then sorted + [r]
    else Place(Front(sorted), r) + [Last(sorted)]
  }

  function Ordered(rows: seq<Row>): seq<Row> {
    if |rows| == 0 then [] else Place(Ordered(Front(rows)), Last(rows))
  }

  function Selected(rows: seq<Row>, source: string, begin: int, end: int): seq<Row> {
    Ordered(Touching(RowsOf(rows, source), begin, end))
  }

  // ----- the sweep -----

  datatype Sweep = Sweep(cursor: int, intervals: seq<Interval>, totals: map<State, int>)
  {
    /** Nothing is emitted for an empty or inverted stretch. */
    function Emit(state: State, from: int, to: int): Sweep {
      if to <= from then this
      else
        var seconds := if state in totals then totals[state] else 0;
        this.(intervals := intervals + [Interval(state, from, to)],
              totals := totals[state := seconds + (to - from)])
    }

    function Row(r: Row, begin: int, end: int): Sweep {
      var from := Max(begin, r.start);
      var to := Min(end, r.Until());
      var led := if from > cursor then Emit(Unknown, cursor, Min(from, end)) else this;
      led.Emit(r.state, Max(from, cursor), to).(cursor := Max(cursor, to))
    }
  }

  const NO_SECONDS: map<State, int> :=
    map[Active := 0, Resting := 0, OutOfView := 0, Offline := 0, Unknown := 0]

  function Swept(rows: seq<Row>, begin: int, end: int): Sweep {
    if |rows| == 0 then Sweep(begin, [], NO_SECONDS)
    else Swept(Front(rows), begin, end).Row(Last(rows), begin, end)
  }

  /** The whole answer of a query. */
  function Answer(rows: seq<Row>, source: string, begin: int, end: int): Sweep {
    var s := Swept(Selected(rows, source, begin, end), begin, end);
    s.Emit(Unknown, s.cursor, end)
  }

  // ----- what an answer means -----

  /** One interval shows one state throughout and is cut exactly where the reference is cut. */
  ghost predicate Shows(i: Interval, a: seq<Sample>) {
    && (forall t | i.start <= t < i.end :: StateAt(a, t) == i.state)
    && (forall t | i.start < t < i.end :: !CutAt(a, t))
  }

  /** The list that renders the reference rule on [begin, end): no gap, no overlap, no empty
      interval, each interval right, and a new interval only where the reference is cut. */
  ghost predicate Renders(iv: seq<Interval>, a: seq<Sample>, begin: int, end: int) {
    if |iv| == 0 then begin == end
    else
      var i := Last(iv);
      && i.end == end && i.start < i.end && Shows(i, a)
      && (|iv| > 1 ==> CutAt(a, i.start))
      && Renders(Front(iv), a, begin, i.start)
  }

  function SecondsIn(iv: seq<Interval>, state: State): int {
    if |iv| == 0 then 0
    else SecondsIn(Front(iv), state) + (if Last(iv).state == state then Last(iv).Seconds() else 0)
  }

  /** Totals list the five states and equal the per-state interval sums. */
  ghost predicate Totals(totals: map<State, int>, iv: seq<Interval>) {
    totals.Keys == STATES && forall s | s in STATES :: totals[s] == SecondsIn(iv, s)
  }

  // ----- the selected rows are a stretch of the chain -----

  lemma {:induction false} TouchingSlice(c: seq<Row>, begin: int, end: int, a: nat, b: nat)
    requires a <= b <= |c|
    requires forall i | 0 <= i < |c| :: Touches(c[i], begin, end) <==> a <= i < b
    ensures Touching(c, begin, end) == c[a..b]
  {
    if |c| > 0 {
      var n := |c| - 1;
      if b == |c| && a < b {
        TouchingSlice(Front(c), begin, end, a, n);
        assert c[a..b] == Front(c)[a..n] + [c[n]];
      } else {
        TouchingSlice(Front(c), begin, end, if a <= n then a else n, if b <= n then b else n);
        assert c[a..b] == Front(c)[if a <= n then a else n..if b <= n then b else n];
      }
    }
  }

  lemma {:induction false} OrderedAlready(rows: seq<Row>)
    requires forall i, j | 0 <= i < j < |rows| :: rows[i].start <= rows[j].start
    ensures Ordered(rows) == rows
  {
    if |rows| > 0 {
      OrderedAlready(Front(rows));
      assert |rows| > 1 ==> Last(Front(rows)) == rows[|rows| - 2] && rows[|rows| - 2].start <= Last(rows).start;
      PlaceLast(Front(rows), Last(rows));
      assert Front(rows) + [Last(rows)] == rows;
    }
  }

  lemma {:induction false} PlaceLast(sorted: seq<Row>, r: Row)
    requires |sorted| > 0 ==> Last(sorted).start <= r.start
    ensures Place(sorted, r) == sorted + [r]
  {
  }

  /** The window touches a stretch [a, b) of a chain. */
  lemma {:induction false} TouchedStretch(c: seq<Row>, begin: int, end: int) returns (a: nat, b: nat)
    requires Chain(c)
    ensures a <= b <= |c|
    ensures forall i | 0 <= i < |c| :: Touches(c[i], begin, end) <==> a <= i < b
    ensures a > 0 ==> c[a - 1].lastSeen + HOLD <= begin
    ensures b < |c| ==> c[b].start >= end
  {
    a := 0;
    while a < |c| && c[a].lastSeen + HOLD <= begin
      invariant a <= |c|
      invariant forall i | 0 <= i < a :: c[i].lastSeen + HOLD <= begin
    {
      a := a + 1;
    }
    b := a;
    while b < |c| && c[b].start < end
      invariant a <= b <= |c|
      invariant forall i | a <= i < b :: c[i].start < end
    {
      b := b + 1;
    }
    forall i | 0 <= i < |c|
      ensures i >= a ==> c[i].lastSeen + HOLD > begin
      ensures i >= b && b < |c| ==> c[i].start >= end
    {
      if i >= a { StartsSorted(c, a, i); }
      if i >= b { StartsSorted(c, b, i); }
    }
  }

  // ----- the chain, second by second -----

  /** Inside its reach a row decides the state; no interval starts there except at its start. */
  lemma {:induction false} InsideRow(c: seq<Row>, k: nat, t: int)
    requires Chain(c) && k < |c| && c[k].start <= t < c[k].Until()
    ensures RowState(c, t) == c[k].state
    ensures RowCut(c, t) <==> t == c[k].start
  {
    forall i, j | 0 <= i < j < |c| && j == i + 1 ensures Meets(c[i], c[j]) { assert Linked(c[i], c[j]); }
    InsideRowOfPrefix(c, k, t);
    if k < |c| - 1 { StartsSorted(c, k, |c| - 1); }
  }

  predicate Meets(r: Row, next: Row) { r.start < r.Until() == next.start }

  lemma {:induction false} InsideRowOfPrefix(c: seq<Row>, k: nat, t: int)
    requires forall i, j | 0 <= i < j < |c| && j == i + 1 :: Meets(c[i], c[j])
    requires k < |c| && c[k].start <= t < c[k].Until()
    ensures k < |c| - 1 ==> t < Last(c).start
    ensures RowState(c, t) == c[k].state
    ensures StartsAt(c, t) <==> t == c[k].start
  {
    if k == |c| - 1 {
      if t > c[k].start { NoLaterStart(c, t); }
    } else {
      InsideRowOfPrefix(Front(c), k, t);
      assert Meets(c[|c| - 2], c[|c| - 1]);
    }
  }

  lemma {:induction false} BeforeChain(c: seq<Row>, t: int)
    requires Chain(c)
    requires |c| > 0 ==> t < c[0].start
    ensures RowState(c, t) == Unknown && !RowCut(c, t)
  {
    if |c| > 0 {
      forall i | 0 <= i < |c| ensures t < c[i].start { StartsSorted(c, 0, i); }
      BeforeRows(c, t);
    }
  }

  lemma {:induction false} BeforeRows(c: seq<Row>, t: int)
    requires forall i | 0 <= i < |c| :: t < c[i].start
    ensures RowState(c, t) == Unknown && !StartsAt(c, t)
  {
    if |c| > 0 { BeforeRows(Front(c), t); }
  }

  lemma {:induction false} AfterChain(c: seq<Row>, t: int)
    requires Chain(c) && |c| > 0 && t >= Last(c).Until()
    ensures RowState(c, t) == Unknown
    ensures RowCut(c, t) <==> t == Last(c).Until()
  {
    NoLaterStart(c, t);
  }

  // ----- one step of the sweep -----

  lemma {:induction false} RendersNext(iv: seq<Interval>, next: Interval, a: seq<Sample>, begin: int)
    requires Renders(iv, a, begin, next.start) && next.start < next.end
    requires Shows(next, a)
    requires |iv| > 0 ==> CutAt(a, next.start)
    ensures Renders(iv + [next], a, begin, next.end)
  {
    assert Front(iv + [next]) == iv;
  }

  lemma {:induction false} RendersForward(iv: seq<Interval>, a: seq<Sample>, begin: int, end: int)
    requires Renders(iv, a, begin, end)
    ensures begin <= end && (|iv| > 0 ==> begin < end)
  {
    if |iv| > 0 { RendersForward(Front(iv), a, begin, Last(iv).start); }
  }

  lemma {:induction false} TotalsNext(s: Sweep, state: State, from: int, to: int)
    requires Totals(s.totals, s.intervals) && state in STATES
    ensures Totals(s.Emit(state, from, to).totals, s.Emit(state, from, to).intervals)
  {
    if from < to {
      forall st ensures SecondsIn(s.intervals + [Interval(state, from, to)], st) ==
                        SecondsIn(s.intervals, st) + if st == state then to - from else 0
      {
        assert Front(s.intervals + [Interval(state, from, to)]) == s.intervals;
      }
    }
  }

  /** The part of row k that lies between from and to. */
  lemma {:induction false} RowShows(c: seq<Row>, a: seq<Sample>, k: nat, from: int, to: int)
    requires Stores(c, a) && k < |c| && c[k].start <= from && to <= c[k].Until()
    ensures Shows(Interval(c[k].state, from, to), a)
    ensures from == c[k].start < c[k].Until() ==> CutAt(a, from)
  {
    forall t | from <= t < to
      ensures StateAt(a, t) == c[k].state && (from < t ==> !CutAt(a, t))
    {
      InsideRow(c, k, t);
    }
    if from == c[k].start < c[k].Until() { InsideRow(c, k, from); }
  }

  lemma {:induction false} LeadShows(c: seq<Row>, a: seq<Sample>, from: int, to: int)
    requires Stores(c, a) && (|c| > 0 ==> to <= c[0].start)
    ensures Shows(Interval(Unknown, from, to), a)
  {
    forall t | from <= t < to ensures StateAt(a, t) == Unknown && !CutAt(a, t) { BeforeChain(c, t); }
  }

  lemma {:induction false} TrailShows(c: seq<Row>, a: seq<Sample>, from: int, to: int)
    requires Stores(c, a) && |c| > 0 && Last(c).Until() <= from
    ensures Shows(Interval(Unknown, from, to), a)
    ensures from == Last(c).Until() ==> CutAt(a, from)
  {
    forall t | from <= t < to
      ensures StateAt(a, t) == Unknown && (from < t ==> !CutAt(a, t))
    {
      AfterChain(c, t);
    }
    AfterChain(c, Last(c).Until());
  }

  /** The rows of a window, as the sweep meets them. */
  ghost predicate Stretch(c: seq<Row>, a: nat, b: nat, begin: int, end: int) {
    && a <= b <= |c|
    && (forall i | 0 <= i < |c| :: Touches(c[i], begin, end) <==> a <= i < b)
    && (a > 0 ==> c[a - 1].lastSeen + HOLD <= begin)
    && (forall i | 0 <= i < |c| :: c[i].state in STATES)
  }

  /** The loop invariant of the sweep after rows a to k - 1 of the stretch. */
  ghost predicate Midway(s: Sweep, c: seq<Row>, acc: seq<Sample>, a: nat, k: nat, begin: int, end: int)
    requires a <= k <= |c|
  {
    && s.cursor == (if k == a then begin else Max(begin, Min(end, c[k - 1].Until())))
    && (k == a ==> s.intervals == [])
    && Renders(s.intervals, acc, begin, s.cursor)
    && Totals(s.totals, s.intervals)
  }

  lemma {:induction false} NoTotals()
    ensures Totals(NO_SECONDS, [])
  {
    assert NO_SECONDS.Keys == STATES;
  }

  lemma {:induction false} SweepStart(c: seq<Row>, acc: seq<Sample>, a: nat, begin: int, end: int)
    requires a <= |c|
    ensures Midway(Sweep(begin, [], NO_SECONDS), c, acc, a, a, begin, end)
  {
    NoTotals();
  }

  lemma {:induction false} SweptNext(c: seq<Row>, a: nat, k: nat, begin: int, end: int)
    requires a < k <= |c|
    ensures Swept(c[a..k], begin, end) == Swept(c[a..k - 1], begin, end).Row(c[k - 1], begin, end)
  {
    assert Front(c[a..k]) == c[a..k - 1];
  }

  lemma {:induction false} SweepStretch(c: seq<Row>, acc: seq<Sample>, a: nat, b: nat, k: nat, begin: int, end: int)
    requires Stores(c, acc) && Stretch(c, a, b, begin, end) && a <= k <= b && begin < end
    ensures Midway(Swept(c[a..k], begin, end), c, acc, a, k, begin, end)
  {
    if k == a {
      assert c[a..k] == [];
      SweepStart(c, acc, a, begin, end);
    } else {
      var before := Swept(c[a..k - 1], begin, end);
      SweepStretch(c, acc, a, b, k - 1, begin, end);
      SweepOne(c, acc, a, b, k, begin, end, before);
      assert Swept(c[a..k], begin, end) == before.Row(c[k - 1], begin, end) by { SweptNext(c, a, k, begin, end); }
    }
  }

  lemma {:induction false} SweepOne(c: seq<Row>, acc: seq<Sample>, a: nat, b: nat, k: nat, begin: int, end: int,
                                    s: Sweep)
    requires Stores(c, acc) && Stretch(c, a, b, begin, end) && a < k <= b && begin < end
    requires Midway(s, c, acc, a, k - 1, begin, end)
    ensures Midway(s.Row(c[k - 1], begin, end), c, acc, a, k, begin, end)
  {
    RowPlace(c, a, b, k, begin, end);
    SweepRow(c, acc, k - 1, begin, end, s);
  }

  lemma {:induction false} RowPlace(c: seq<Row>, a: nat, b: nat, k: nat, begin: int, end: int)
    requires Chain(c) && Stretch(c, a, b, begin, end) && a < k <= b
    ensures c[k - 1].start < c[k - 1].Until() && c[k - 1].start < end
    ensures k - 1 > a ==> c[k - 2].Until() == c[k - 1].start
    ensures k - 1 == a > 0 ==> c[k - 1].start <= begin
  {
    assert Touches(c[k - 1], begin, end);
    assert k > 1 ==> Linked(c[k - 2], c[k - 1]);
    assert k < |c| ==> Linked(c[k - 1], c[k]);
  }

  /** One row: the cursor stands either at the start of the window, with nothing emitted yet, or
      where this row starts to count. */
  lemma {:induction false} SweepRow(c: seq<Row>, acc: seq<Sample>, k: nat, begin: int, end: int, s: Sweep)
    requires Stores(c, acc) && k < |c| && begin < end
    requires c[k].start < c[k].Until() && c[k].start < end && c[k].state in STATES
    requires Renders(s.intervals, acc, begin, s.cursor) && Totals(s.totals, s.intervals)
    requires || s.cursor == Max(begin, c[k].start)
             || (s.cursor == begin && s.intervals == [] && (k == 0 || c[k].start <= begin))
    ensures var s' := s.Row(c[k], begin, end);
            && s'.cursor == Max(begin, Min(end, c[k].Until()))
            && Renders(s'.intervals, acc, begin, s'.cursor)
            && Totals(s'.totals, s'.intervals)
  {
    var r := c[k];
    var from, to := Max(begin, r.start), Min(end, r.Until());
    var led := s;
    RendersForward(s.intervals, acc, begin, s.cursor);
    if from > s.cursor {
      LeadShows(c, acc, begin, from);
      TotalsNext(s, Unknown, begin, from);
      RendersNext(s.intervals, Interval(Unknown, begin, from), acc, begin);
      led := s.Emit(Unknown, begin, from);
    }
    if from < to {
      RowShows(c, acc, k, from, to);
      TotalsNext(led, r.state, from, to);
      RendersNext(led.intervals, Interval(r.state, from, to), acc, begin);
    }
  }

  /** A window that ends before it begins gets an empty answer. */
  lemma {:induction false} SweepNothing(rows: seq<Row>, begin: int, end: int)
    requires end <= begin && forall i | 0 <= i < |rows| :: rows[i].start < end
    ensures Swept(rows, begin, end) == Sweep(begin, [], NO_SECONDS)
  {
    if |rows| > 0 { SweepNothing(Front(rows), begin, end); }
  }

  /** The sweep refines the reference rule: on rows that store the samples, the answer is the
      rendering of the samples on [begin, end), with the totals of its own intervals. */
  lemma {:induction false} AnswerRenders(rows: seq<Row>, source: string, acc: seq<Sample>, begin: int, end: int)
    requires Stores(RowsOf(rows, source), acc)
    requires forall r | r in RowsOf(rows, source) :: r.state in STATES
    ensures var answer := Answer(rows, source, begin, end);
            Renders(answer.intervals, acc, begin, Max(begin, end)) && Totals(answer.totals, answer.intervals)
  {
    var c := RowsOf(rows, source);
    var a, b := TouchedStretch(c, begin, end);
    SelectedStretch(c, begin, end, a, b);
    if end <= begin {
      SweepNothing(c[a..b], begin, end);
      NoTotals();
    } else {
      SweepStretch(c, acc, a, b, b, begin, end);
      TrailOne(c, acc, a, b, begin, end, Swept(c[a..b], begin, end));
    }
  }

  lemma {:induction false} SelectedStretch(c: seq<Row>, begin: int, end: int, a: nat, b: nat)
    requires Chain(c) && a <= b <= |c|
    requires forall i | 0 <= i < |c| :: Touches(c[i], begin, end) <==> a <= i < b
    ensures Ordered(Touching(c, begin, end)) == c[a..b]
    ensures forall i | 0 <= i < |c[a..b]| :: c[a..b][i].start < end
  {
    var rows := c[a..b];
    forall i | 0 <= i < |rows| ensures rows[i].start < end {
      assert Touches(c[a + i], begin, end);
    }
    TouchingSlice(c, begin, end, a, b);
    StretchOrdered(c, a, b);
  }

  lemma {:induction false} StretchOrdered(c: seq<Row>, a: nat, b: nat)
    requires Chain(c) && a <= b <= |c|
    ensures Ordered(c[a..b]) == c[a..b]
  {
    var rows := c[a..b];
    forall i, j | 0 <= i < j < |rows| ensures rows[i].start <= rows[j].start {
      StartsSorted(c, a + i, a + j);
    }
    OrderedAlready(rows);
  }

  lemma {:induction false} TrailOne(c: seq<Row>, acc: seq<Sample>, a: nat, b: nat, begin: int, end: int, s: Sweep)
    requires Stores(c, acc) && Stretch(c, a, b, begin, end) && begin < end
    requires b < |c| ==> c[b].start >= end
    requires Midway(s, c, acc, a, b, begin, end)
    ensures var s' := s.Emit(Unknown, s.cursor, end);
            Renders(s'.intervals, acc, begin, end) && Totals(s'.totals, s'.intervals)
  {
    if s.cursor < end {
      if b == |c| && |c| > 0 {
        TrailShows(c, acc, s.cursor, end);
      } else {
        assert b == 0;
        LeadShows(c, acc, s.cursor, end);
      }
      TotalsNext(s, Unknown, s.cursor, end);
      RendersNext(s.intervals, Interval(Unknown, s.cursor, end), acc, begin);
    }
  }
}
