/** The pet_intervals table and its writer, and the rule the table is meant to store:
    the latest strictly newer sample decides each second for at most five seconds. */
module IntervalTable {
  import opened Common

  /** Seconds for which one recorded sample is believed. */
  const HOLD := 5

  /** A table row. Rows are never deleted, so the position of a row plays the part of its id. */
  datatype Row = Row(source: string, state: State, confidence: real,
                     start: int, end: int, lastSeen: int, open: bool)
  {
    /** Where a reader takes the row to end. */
    function Until(): int { if open then lastSeen + HOLD else end }
  }

  /** One accepted call of RecordContext. */
  datatype Entry = Entry(source: string, state: State, evidence: Evidence, confidence: real, at: int)
  {
    predicate Valid() { at >= 0 && source != "" && state in STATES }

    /** A held display decision is not a new observation. */
    function Recorded(): State { if evidence == Held then Unknown else state }

    function RecordedConfidence(): real { if evidence == Held then 0.0 else confidence }

    function Opened(): Row { Row(source, Recorded(), RecordedConfidence(), at, at, at, true) }
  }

  /** The newest row of a source, if any. */
  function Newest(rows: seq<Row>, source: string): (found: Option<nat>)
    ensures found.Some? ==> found.value < |rows| && rows[found.value].source == source
  {
    if |rows| == 0 then None
    else if Last(rows).source == source then Some(|rows| - 1)
    else Newest(Front(rows), source)
  }

  /** Whether an entry prolongs the row instead of closing it. */
  predicate Prolongs(r: Row, e: Entry) { r.state == e.Recorded() && e.at - r.lastSeen <= HOLD }

  function Closed(r: Row, e: Entry): Row {
    var same := Prolongs(r, e);
    r.(end := Min(e.at, r.lastSeen + HOLD), lastSeen := if same then e.at else r.lastSeen, open := same)
  }

  /** The rows inserted after the previous row of the source has been closed. */
  function Inserted(r: Row, e: Entry): seq<Row> {
    var end := Min(e.at, r.lastSeen + HOLD);
    if Prolongs(r, e) then []
    else (if e.at > end then [Row(e.source, Unknown, 0.0, end, e.at, e.at, false)] else []) + [e.Opened()]
  }

  /** The table after one call. */
  function Written(rows: seq<Row>, e: Entry): seq<Row> {
    match Newest(rows, e.source)
    case None => rows + [e.Opened()]
    case Some(i) =>
      if e.at <= rows[i].lastSeen then rows
      else rows[i := Closed(rows[i], e)] + Inserted(rows[i], e)
  }

  function TableOf(log: seq<Entry>): seq<Row> {
    if |log| == 0 then [] else Written(TableOf(Front(log)), Last(log))
  }

  lemma {:induction false} TableOfSnoc(log: seq<Entry>, e: Entry)
    ensures TableOf(log + [e]) == Written(TableOf(log), e)
  {
    assert Front(log + [e]) == log;
  }

  // ----- one source at a time -----

  function RowsOf(rows: seq<Row>, source: string): seq<Row> {
    if |rows| == 0 then []
    else RowsOf(Front(rows), source) + (if Last(rows).source == source then [Last(rows)] else [])
  }

  function EntriesOf(log: seq<Entry>, source: string): seq<Entry> {
    if |log| == 0 then []
    else EntriesOf(Front(log), source) + (if Last(log).source == source then [Last(log)] else [])
  }

  lemma {:induction false} RowsOfConcat(a: seq<Row>, b: seq<Row>, source: string)
    ensures RowsOf(a + b, source) == RowsOf(a, source) + RowsOf(b, source)
  {
    if |b| == 0 {
      assert a + b == a;
    } else {
      assert Front(a + b) == a + Front(b);
      RowsOfConcat(a, Front(b), source);
    }
  }

  lemma {:induction false} RowsOfUpdate(rows: seq<Row>, i: nat, r: Row, source: string)
    requires i < |rows| && r.source == rows[i].source
    requires Newest(rows, r.source) == Some(i)
    ensures source != r.source ==> RowsOf(rows[i := r], source) == RowsOf(rows, source)
    ensures source == r.source ==>
      |RowsOf(rows, source)| > 0 && Last(RowsOf(rows, source)) == rows[i] &&
      RowsOf(rows[i := r], source) == Front(RowsOf(rows, source)) + [r]
  {
    var updated := rows[i := r];
    if i == |rows| - 1 {
      assert Front(updated) == Front(rows);
    } else {
      assert Front(updated) == Front(rows)[i := r];
      RowsOfUpdate(Front(rows), i, r, source);
    }
  }

  lemma {:induction false} NoRows(rows: seq<Row>, source: string)
    ensures Newest(rows, source).None? <==> RowsOf(rows, source) == []
  {
    if |rows| > 0 { NoRows(Front(rows), source); }
  }

  lemma {:induction false} InsertedSource(r: Row, e: Entry, source: string)
    ensures RowsOf(Inserted(r, e), source) == if source == e.source then Inserted(r, e) else []
  {
    var rows := Inserted(r, e);
    if |rows| == 1 {
      assert Front(rows) == [];
    } else if |rows| == 2 {
      assert Front(rows) == [rows[0]];
      assert Front([rows[0]]) == [];
      assert RowsOf([rows[0]], source) == if source == e.source then [rows[0]] else [];
    }
  }

  /** Writing to a table that holds only rows of the entry's source. */
  lemma {:induction false} WrittenAlone(c: seq<Row>, e: Entry)
    requires |c| > 0 && Last(c).source == e.source && e.at > Last(c).lastSeen
    ensures Written(c, e) == Front(c) + [Closed(Last(c), e)] + Inserted(Last(c), e)
  {
    assert c[|c| - 1 := Closed(Last(c), e)] == Front(c) + [Closed(Last(c), e)];
  }

  /** A call touches only the rows of its own source, and on those it acts as on a table of its own. */
  lemma {:induction false} SourcesAreIndependent(rows: seq<Row>, e: Entry, source: string)
    ensures RowsOf(Written(rows, e), source) ==
            if source == e.source then Written(RowsOf(rows, source), e) else RowsOf(rows, source)
  {
    NoRows(rows, e.source);
    match Newest(rows, e.source)
    case None =>
      RowsOfConcat(rows, [e.Opened()], source);
      assert Front([e.Opened()]) == [];
      if source == e.source { assert Written([], e) == [e.Opened()]; }
    case Some(i) => WriteOverNewest(rows, e, i, source);
  }

  lemma {:induction false} WriteOverNewest(rows: seq<Row>, e: Entry, i: nat, source: string)
    requires Newest(rows, e.source) == Some(i)
    ensures RowsOf(Written(rows, e), source) ==
            if source == e.source then Written(RowsOf(rows, source), e) else RowsOf(rows, source)
  {
    RowsOfUpdate(rows, i, rows[i], source);
    if e.at > rows[i].lastSeen {
      SplitWrite(rows, e, i, source);
      if source == e.source { WrittenAlone(RowsOf(rows, source), e); }
    } else if source == e.source {
      assert Newest(RowsOf(rows, source), source) == Some(|RowsOf(rows, source)| - 1);
    }
  }

  lemma {:induction false} SplitWrite(rows: seq<Row>, e: Entry, i: nat, source: string)
    requires Newest(rows, e.source) == Some(i) && e.at > rows[i].lastSeen
    ensures source != e.source ==> RowsOf(Written(rows, e), source) == RowsOf(rows, source)
    ensures source == e.source ==>
              var mine := RowsOf(rows, source);
              && |mine| > 0 && Last(mine) == rows[i]
              && RowsOf(Written(rows, e), source) == Front(mine) + [Closed(rows[i], e)] + Inserted(rows[i], e)
  {
    var closed, more := Closed(rows[i], e), Inserted(rows[i], e);
    RowsOfConcat(rows[i := closed], more, source);
    RowsOfUpdate(rows, i, closed, source);
    InsertedSource(rows[i], e, source);
  }

  lemma {:induction false} TableOfSource(log: seq<Entry>, source: string)
    ensures RowsOf(TableOf(log), source) == TableOf(EntriesOf(log, source))
  {
    if |log| > 0 {
      var mine := EntriesOf(Front(log), source);
      TableOfSource(Front(log), source);
      SourcesAreIndependent(TableOf(Front(log)), Last(log), source);
      if Last(log).source == source {
        TableOfSnoc(mine, Last(log));
      } else {
        assert EntriesOf(log, source) == mine;
      }
    }
  }

  // ----- where rows come from -----

  /** The row begins at a recorded context that was not held and has its state and confidence, or says
      nothing, with confidence 0. */
  ghost predicate Opens(log: seq<Entry>, r: Row) {
    || (r.state == Unknown && r.confidence == 0.0)
    || exists e :: e in log && e.source == r.source && e.at == r.start && e.evidence != Held && e.state == r.state &&
                   e.confidence == r.confidence
  }

  /** Every row of the table says nothing, or carries state and confidence of the recorded context
      that it begins with. */
  lemma {:induction false} RowsAreOpened(log: seq<Entry>, r: Row)
    requires r in TableOf(log)
    ensures Opens(log, r)
  {
    var rows, e := TableOf(Front(log)), Last(log);
    assert log == Front(log) + [e];
    if r == e.Opened() {
      assert e in log;
    } else if r in rows {
      RowsAreOpened(Front(log), r);
    } else {
      var i := Newest(rows, e.source).value;
      assert rows[i] in rows;
      RowsAreOpened(Front(log), rows[i]);
    }
  }

  // ----- the reference rule -----

  datatype Sample = Sample(at: int, state: State)

  /** The samples of a log that are strictly newer than every sample before them. */
  function Accepted(log: seq<Entry>): (a: seq<Sample>)
    ensures forall i, j | 0 <= i < j < |a| :: a[i].at < a[j].at
  {
    if |log| == 0 then []
    else
      var a := Accepted(Front(log));
      var s := Sample(Last(log).at, Last(log).Recorded());
      if |a| == 0 || Last(a).at < s.at then a + [s] else a
  }

  /** The samples that decide the timeline of one source. */
  function SamplesOf(log: seq<Entry>, source: string): seq<Sample> { Accepted(EntriesOf(log, source)) }

  /** Second t has the state of the latest sample at or before t, if that sample is less than
      five seconds old, and is unknown otherwise. */
  function StateAt(a: seq<Sample>, t: int): State {
    if |a| == 0 then Unknown
    else if t < Last(a).at then StateAt(Front(a), t)
    else if t - Last(a).at < HOLD then Last(a).state
    else Unknown
  }

  /** Where a timeline starts a new interval: at a sample that does not prolong the one before it,
      and five seconds after a sample that nothing followed in time. */
  predicate CutAt(a: seq<Sample>, t: int) {
    if |a| == 0 then false
    else if t < Last(a).at then CutAt(Front(a), t)
    else if t == Last(a).at then
      |a| == 1 || a[|a| - 2].state != Last(a).state || Last(a).at - a[|a| - 2].at > HOLD
    else t == Last(a).at + HOLD
  }

  // ----- the invariant of the writer -----

  /** Rows of one source: contiguous, only the last one open, closed rows of positive length and
      never reaching more than five seconds past the last sample behind them. */
  ghost predicate Chain(c: seq<Row>) {
    && (forall i | 0 <= i < |c| :: c[i].start <= c[i].lastSeen && (c[i].open <==> i == |c| - 1))
    && (forall i, j | 0 <= i < j < |c| && j == i + 1 :: Linked(c[i], c[j]))
  }

  predicate Linked(r: Row, next: Row) {
    r.start < r.end == next.start && r.lastSeen <= r.end <= r.lastSeen + HOLD
  }

  function RowState(c: seq<Row>, t: int): State {
    if |c| == 0 then Unknown
    else if t < Last(c).start then RowState(Front(c), t)
    else if t < Last(c).Until() then Last(c).state
    else Unknown
  }

  predicate StartsAt(c: seq<Row>, t: int) { |c| > 0 && (Last(c).start == t || StartsAt(Front(c), t)) }

  predicate RowCut(c: seq<Row>, t: int) { |c| > 0 && (StartsAt(c, t) || t == Last(c).Until()) }

  /** The rows say exactly what the samples say. */
  ghost predicate Stores(c: seq<Row>, a: seq<Sample>) {
    && Chain(c)
    && (|c| == 0 <==> |a| == 0)
    && (|c| > 0 ==> Last(c).lastSeen == Last(a).at && Last(c).state == Last(a).state)
    && (forall t :: RowState(c, t) == StateAt(a, t))
    && (forall t :: RowCut(c, t) <==> CutAt(a, t))
  }

  lemma {:induction false} FirstRow(e: Entry)
    ensures Stores([e.Opened()], [Sample(e.at, e.Recorded())])
  {
    var c, a := [e.Opened()], [Sample(e.at, e.Recorded())];
    assert Front(c) == [] && Front(a) == [];
    forall t ensures RowCut(c, t) <==> CutAt(a, t) {
      assert !StartsAt(Front(c), t) && !CutAt(Front(a), t);
    }
  }

  /** One newer sample. */
  lemma {:induction false} WriteStores(c: seq<Row>, a: seq<Sample>, e: Entry)
    requires Stores(c, a) && |c| > 0 && e.at > Last(c).lastSeen && Last(c).source == e.source
    ensures Stores(Written(c, e), a + [Sample(e.at, e.Recorded())])
  {
    var s := Sample(e.at, e.Recorded());
    var w := Written(c, e);
    WriteChain(c, e);
    assert Front(a + [s]) == a;
    forall t
      ensures RowState(w, t) == StateAt(a + [s], t)
      ensures RowCut(w, t) <==> CutAt(a + [s], t)
    {
      WriteState(c, e, t);
      WriteCut(c, e, t);
    }
  }

  /** Writing changes nothing before the new sample and decides everything from it on. */
  lemma {:induction false} WriteState(c: seq<Row>, e: Entry, t: int)
    requires Chain(c) && |c| > 0 && e.at > Last(c).lastSeen && Last(c).source == e.source
    ensures RowState(Written(c, e), t) ==
            if t < e.at then RowState(c, t) else if t - e.at < HOLD then e.Recorded() else Unknown
  {
    WrittenAlone(c, e);
    var base := Front(c) + [Closed(Last(c), e)];
    var more := Inserted(Last(c), e);
    assert Front(base) == Front(c);
    assert |more| == 0 ==> Written(c, e) == base;
    assert |more| == 1 ==> Front(Written(c, e)) == base;
    if |more| == 2 {
      assert Front(base + [more[0]]) == base;
      assert Front(Written(c, e)) == base + [more[0]];
      assert RowState(base + [more[0]], t) == if t < more[0].start then RowState(base, t) else Unknown;
    }
  }

  lemma {:induction false} WriteChain(c: seq<Row>, e: Entry)
    requires Chain(c) && |c| > 0 && e.at > Last(c).lastSeen && Last(c).source == e.source
    ensures Chain(Written(c, e))
    ensures Last(Written(c, e)).lastSeen == e.at && Last(Written(c, e)).state == e.Recorded()
  {
    WrittenAlone(c, e);
  }

  lemma {:induction false} WriteCut(c: seq<Row>, e: Entry, t: int)
    requires Chain(c) && |c| > 0 && e.at > Last(c).lastSeen && Last(c).source == e.source
    ensures RowCut(Written(c, e), t) <==>
            if t < e.at then RowCut(c, t)
            else if t == e.at then !Prolongs(Last(c), e)
            else t == e.at + HOLD
  {
    WrittenAlone(c, e);
    WriteChain(c, e);
    var r := Last(c);
    var base := Front(c) + [Closed(r, e)];
    var more := Inserted(r, e);
    assert Front(base) == Front(c);
    assert StartsAt(base, t) <==> StartsAt(c, t);
    if t >= e.at { NoLaterStart(c, t); }
    assert |more| == 0 ==> Written(c, e) == base;
    assert |more| == 1 ==> Front(Written(c, e)) == base;
    if |more| == 2 {
      assert Front(base + [more[0]]) == base;
      assert Front(Written(c, e)) == base + [more[0]];
      assert StartsAt(base + [more[0]], t) <==> StartsAt(base, t) || t == more[0].start;
    }
  }

  lemma {:induction false} NoLaterStart(c: seq<Row>, t: int)
    requires |c| > 0 && t > Last(c).start
    requires forall i, j | 0 <= i < j < |c| && j == i + 1 :: c[i].start < c[j].start
    ensures !StartsAt(c, t)
  {
    if |c| > 1 { NoLaterStart(Front(c), t); }
  }

  lemma {:induction false} StartsSorted(c: seq<Row>, i: nat, j: nat)
    requires Chain(c) && i <= j < |c|
    ensures c[i].start <= c[j].start && c[i].lastSeen <= c[j].lastSeen
    ensures i < j ==> c[i].end <= c[j].start
  {
    if i < j { StartsSorted(c, i, j - 1); }
  }

  /** Every log of one source leaves rows that store its accepted samples. */
  lemma {:induction false} TableStores(log: seq<Entry>, source: string)
    requires forall e | e in log :: e.source == source
    ensures Stores(TableOf(log), Accepted(log))
    ensures |TableOf(log)| > 0 ==> Last(TableOf(log)).source == source
  {
    if |log| > 0 {
      var e := Last(log);
      var c := TableOf(Front(log));
      TableStores(Front(log), source);
      if |c| == 0 {
        assert TableOf(log) == [e.Opened()] && Accepted(log) == [Sample(e.at, e.Recorded())];
        FirstRow(e);
      } else {
        OneMore(c, Accepted(Front(log)), e);
      }
    }
  }

  lemma {:induction false} OneMore(c: seq<Row>, a: seq<Sample>, e: Entry)
    requires Stores(c, a) && |c| > 0 && Last(c).source == e.source
    ensures Stores(Written(c, e), if Last(a).at < e.at then a + [Sample(e.at, e.Recorded())] else a)
    ensures |Written(c, e)| > 0 && Last(Written(c, e)).source == e.source
  {
    assert Newest(c, e.source) == Some(|c| - 1);
    if e.at > Last(c).lastSeen {
      WriteStores(c, a, e);
      WrittenAlone(c, e);
    }
  }

  lemma {:induction false} EntriesHaveSource(log: seq<Entry>, source: string)
    ensures forall e | e in EntriesOf(log, source) :: e.source == source
  {
    if |log| > 0 { EntriesHaveSource(Front(log), source); }
  }

  /** For every interleaving of sources, duplicates, regressions, gaps and held samples: the rows of
      a source form a chain that says, second by second, what its accepted samples say. */
  lemma {:induction false} TableMeaning(log: seq<Entry>, source: string)
    ensures Stores(RowsOf(TableOf(log), source), SamplesOf(log, source))
  {
    TableOfSource(log, source);
    EntriesHaveSource(log, source);
    TableStores(EntriesOf(log, source), source);
  }
}
