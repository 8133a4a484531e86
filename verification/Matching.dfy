/** Greedy one-to-one association over scored candidates, apart from where the scores come from. */
module Matching {
  import opened Common

  datatype Candidate = Candidate(track: nat, detection: nat, score: real)

  /** Score descending, then track, then detection. */
  predicate Before(a: Candidate, b: Candidate) {
    if a.score != b.score then a.score > b.score
    else if a.track != b.track then a.track < b.track
    else a.detection < b.detection
  }

  predicate Clash(a: Candidate, b: Candidate) { a.track == b.track || a.detection == b.detection }

  ghost predicate Sorted(cs: seq<Candidate>) { forall i, j | 0 <= i < j < |cs| :: Before(cs[i], cs[j]) }

  /** No pair of track and detection is listed twice. */
  ghost predicate DistinctPairs(cs: seq<Candidate>) {
    forall i, j | 0 <= i < j < |cs| :: cs[i].track != cs[j].track || cs[i].detection != cs[j].detection
  }

  function Elements(cs: seq<Candidate>): set<Candidate> { set c | c in cs }

  // ----- the order -----

  function Insert(cs: seq<Candidate>, c: Candidate): seq<Candidate> {
    if |cs| == 0 || Before(Last(cs), c) then cs + [c] else Insert(Front(cs), c) + [Last(cs)]
  }

  function ByScore(cs: seq<Candidate>): seq<Candidate> {
    if |cs| == 0 then [] else Insert(ByScore(Front(cs)), Last(cs))
  }

  lemma {:induction false} InsertSorts(cs: seq<Candidate>, c: Candidate)
    requires Sorted(cs)
    requires forall i | 0 <= i < |cs| :: cs[i].track != c.track || cs[i].detection != c.detection
    ensures Sorted(Insert(cs, c))
    ensures Elements(Insert(cs, c)) == Elements(cs) + {c}
  {
    if |cs| > 0 {
      assert cs == Front(cs) + [Last(cs)];
      if !Before(Last(cs), c) {
        InsertSorts(Front(cs), c);
        var front := Insert(Front(cs), c);
        forall i | 0 <= i < |front| ensures Before(front[i], Last(cs)) {
          assert front[i] in Elements(front);
          if front[i] != c {
            var j :| 0 <= j < |Front(cs)| && Front(cs)[j] == front[i];
            assert Before(cs[j], Last(cs));
          }
        }
      } else {
        forall i | 0 <= i < |cs| ensures Before(cs[i], c) {
          assert i < |cs| - 1 ==> Before(cs[i], Last(cs));
        }
      }
    }
  }

  /** Sorting yields the candidates in the strict order. */
  lemma {:induction false} ByScoreSorts(cs: seq<Candidate>)
    requires DistinctPairs(cs)
    ensures Sorted(ByScore(cs))
    ensures Elements(ByScore(cs)) == Elements(cs)
  {
    if |cs| > 0 {
      assert cs == Front(cs) + [Last(cs)];
      ByScoreSorts(Front(cs));
      var front := ByScore(Front(cs));
      forall i | 0 <= i < |front| ensures front[i].track != Last(cs).track || front[i].detection != Last(cs).detection {
        assert front[i] in Elements(Front(cs));
        var j :| 0 <= j < |Front(cs)| && Front(cs)[j] == front[i];
        assert cs[j] == front[i];
      }
      InsertSorts(front, Last(cs));
    }
  }

  /** The order is strict, so every way of sorting gives the same list. */
  lemma {:induction false} OneOrder(cs: seq<Candidate>, ds: seq<Candidate>)
    requires Sorted(cs) && Sorted(ds) && Elements(cs) == Elements(ds)
    ensures cs == ds
  {
    assert ds != [] ==> ds[0] in Elements(ds);
    if |cs| > 0 {
      assert cs[0] in Elements(ds);
      SameLast(cs, ds);
      FrontElements(cs);
      FrontElements(ds);
      OneOrder(Front(cs), Front(ds));
      assert cs == Front(cs) + [Last(cs)] && ds == Front(ds) + [Last(ds)];
    }
  }

  lemma {:induction false} FrontElements(cs: seq<Candidate>)
    requires Sorted(cs) && |cs| > 0
    ensures Elements(Front(cs)) == Elements(cs) - {Last(cs)}
  {
    forall c ensures c in Front(cs) <==> c in cs && c != Last(cs) {
      if c in cs && c != Last(cs) {
        var i :| 0 <= i < |cs| && cs[i] == c;
        assert Front(cs)[i] == c;
      }
      if c in Front(cs) {
        var i :| 0 <= i < |cs| - 1 && Front(cs)[i] == c;
        assert Before(cs[i], cs[|cs| - 1]);
      }
    }
  }

  lemma {:induction false} SameLast(cs: seq<Candidate>, ds: seq<Candidate>)
    requires Sorted(cs) && Sorted(ds) && Elements(cs) == Elements(ds) && |cs| > 0 && |ds| > 0
    ensures Last(cs) == Last(ds)
  {
    var c, d := Last(cs), Last(ds);
    assert c in Elements(ds) && d in Elements(cs);
    var i :| 0 <= i < |cs| && cs[i] == d;
    var j :| 0 <= j < |ds| && ds[j] == c;
    assert i < |cs| - 1 ==> Before(d, c);
    assert j < |ds| - 1 ==> Before(c, d);
  }

  // ----- the greedy choice -----

  predicate Free(chosen: seq<Candidate>, c: Candidate) { forall k | k in chosen :: !Clash(k, c) }

  function Greedy(cs: seq<Candidate>): seq<Candidate> {
    if |cs| == 0 then []
    else
      var chosen := Greedy(Front(cs));
      if Free(chosen, Last(cs)) then chosen + [Last(cs)] else chosen
  }

  ghost predicate OneToOne(m: set<Candidate>) { forall a, b | a in m && b in m && a != b :: !Clash(a, b) }

  /** A one-to-one choice in which every rejected candidate loses its track or its detection to a
      chosen one that precedes it. */
  ghost predicate Stable(m: set<Candidate>, all: set<Candidate>) {
    && m <= all && OneToOne(m)
    && forall c | c in all && c !in m :: exists k :: k in m && Clash(k, c) && Before(k, c)
  }

  lemma {:induction false} GreedyStable(cs: seq<Candidate>)
    requires Sorted(cs)
    ensures Stable(Elements(Greedy(cs)), Elements(cs))
    ensures forall i, j | 0 <= i < j < |Greedy(cs)| :: !Clash(Greedy(cs)[i], Greedy(cs)[j])
  {
    if |cs| > 0 {
      var front, c := Front(cs), Last(cs);
      GreedyStable(front);
      var g := Greedy(front);
      assert Elements(cs) == Elements(front) + {c};
      if Free(g, c) {
        assert Elements(Greedy(cs)) == Elements(g) + {c};
      } else {
        var k :| k in g && Clash(k, c);
        assert k in Elements(front);
        var i :| 0 <= i < |front| && front[i] == k;
        assert Before(cs[i], cs[|cs| - 1]);
      }
      forall d | d in Elements(cs) && d !in Elements(Greedy(cs))
        ensures exists k :: k in Elements(Greedy(cs)) && Clash(k, d) && Before(k, d)
      {
        if d in Elements(front) {
          var k :| k in Elements(g) && Clash(k, d) && Before(k, d);
          assert k in Elements(Greedy(cs));
        }
      }
    }
  }

  /** The greedy association is the only stable one. */
  lemma {:induction false} GreedyUnique(cs: seq<Candidate>, m: set<Candidate>, n: nat)
    requires Sorted(cs) && Stable(m, Elements(cs)) && n <= |cs|
    ensures forall i | 0 <= i < n :: cs[i] in m <==> cs[i] in Greedy(cs[..n])
  {
    if n > 0 {
      GreedyUnique(cs, m, n - 1);
      assert Front(cs[..n]) == cs[..n - 1];
      GreedyDecides(cs, m, n - 1);
      forall i | 0 <= i < n - 1 ensures cs[i] != cs[n - 1] { assert Before(cs[i], cs[n - 1]); }
    }
  }

  /** Whether candidate n is free once the earlier ones are decided as in m, is whether m has it. */
  lemma {:induction false} GreedyDecides(cs: seq<Candidate>, m: set<Candidate>, n: nat)
    requires Sorted(cs) && Stable(m, Elements(cs)) && n < |cs|
    requires forall i | 0 <= i < n :: cs[i] in m <==> cs[i] in Greedy(cs[..n])
    ensures cs[n] in m <==> Free(Greedy(cs[..n]), cs[n])
    ensures cs[n] !in Greedy(cs[..n])
  {
    var c, g := cs[n], Greedy(cs[..n]);
    GreedyFrom(cs[..n]);
    assert c in Elements(cs);
    forall k | k in g ensures k in m && k != c {
      var i :| 0 <= i < n && cs[i] == k;
      assert Before(cs[i], cs[n]);
    }
    if c !in m {
      var k :| k in m && Clash(k, c) && Before(k, c);
      assert k in Elements(cs);
      var i :| 0 <= i < |cs| && cs[i] == k;
      assert i < n;
      assert k in g;
    }
  }

  lemma {:induction false} GreedyFrom(cs: seq<Candidate>)
    ensures forall k | k in Greedy(cs) :: k in cs
  {
    if |cs| > 0 { GreedyFrom(Front(cs)); }
  }

  lemma {:induction false} StableIsGreedy(cs: seq<Candidate>, m: set<Candidate>)
    requires Sorted(cs)
    ensures Stable(m, Elements(cs)) <==> m == Elements(Greedy(cs))
  {
    GreedyStable(cs);
    if Stable(m, Elements(cs)) {
      GreedyUnique(cs, m, |cs|);
      assert cs[..|cs|] == cs;
      forall c ensures c in m <==> c in Elements(Greedy(cs)) {
        if c in m { assert c in Elements(cs); }
        if c in Elements(Greedy(cs)) { assert c in Elements(cs); }
      }
    }
  }

  // ----- how much it can miss -----

  function Tracks(m: set<Candidate>): set<nat> { set c | c in m :: c.track }
  function Detections(m: set<Candidate>): set<nat> { set c | c in m :: c.detection }

  lemma {:induction false} AtMostAsMany(m: set<Candidate>)
    ensures |Tracks(m)| <= |m| && |Detections(m)| <= |m|
  {
    if m != {} {
      var c :| c in m;
      AtMostAsMany(m - {c});
      assert Tracks(m) == Tracks(m - {c}) + {c.track};
      assert Detections(m) == Detections(m - {c}) + {c.detection};
    }
  }

  lemma {:induction false} JustAsMany(m: set<Candidate>)
    requires OneToOne(m)
    ensures |Tracks(m)| == |m| && |Detections(m)| == |m|
  {
    if m != {} {
      var c :| c in m;
      JustAsMany(m - {c});
      WithoutOne(m, c);
    }
  }

  lemma {:induction false} WithoutOne(m: set<Candidate>, c: Candidate)
    requires OneToOne(m) && c in m
    ensures Tracks(m) == Tracks(m - {c}) + {c.track} && c.track !in Tracks(m - {c})
    ensures Detections(m) == Detections(m - {c}) + {c.detection} && c.detection !in Detections(m - {c})
  {
    forall d | d in m - {c} ensures d.track != c.track && d.detection != c.detection { assert !Clash(d, c); }
  }

  lemma {:induction false} SubsetSize(a: set<nat>, b: set<nat>)
    requires a <= b
    ensures |a| <= |b|
  {
    if a != {} {
      var x :| x in a;
      SubsetSize(a - {x}, b - {x});
    }
  }

  /** The choice is maximal, and no one-to-one choice of candidates has more than twice as many. */
  lemma {:induction false} HalfOfAnyMatching(m: set<Candidate>, all: set<Candidate>, other: set<Candidate>)
    requires Stable(m, all) && other <= all && OneToOne(other)
    ensures forall c | c in all && c !in m :: !OneToOne(m + {c})
    ensures |other| <= 2 * |m|
  {
    forall c | c in all && c !in m ensures !OneToOne(m + {c}) {
      var k :| k in m && Clash(k, c) && Before(k, c);
      assert k in m + {c} && c in m + {c};
    }
    var byTrack := set c | c in other && c.track in Tracks(m);
    var byDetection := other - byTrack;
    forall c | c in byDetection ensures c.detection in Detections(m) {
      if c !in m { var k :| k in m && Clash(k, c) && Before(k, c); }
    }
    JustAsMany(byTrack);
    JustAsMany(byDetection);
    SubsetSize(Tracks(byTrack), Tracks(m));
    SubsetSize(Detections(byDetection), Detections(m));
    AtMostAsMany(m);
    assert other == byTrack + byDetection;
  }

  // ----- input order -----

  ghost predicate Permutation(p: seq<nat>) {
    && (forall d | 0 <= d < |p| :: p[d] < |p|)
    && (forall d, e | 0 <= d < e < |p| :: p[d] != p[e])
  }

  /** The same candidates after detection d has been moved to place p[d]. */
  function Moved(m: set<Candidate>, p: seq<nat>): set<Candidate>
    requires forall c | c in m :: c.detection < |p|
  {
    set c | c in m :: c.(detection := p[c.detection])
  }

  ghost predicate DistinctScores(all: set<Candidate>) {
    forall a, b | a in all && b in all && a != b :: a.score != b.score
  }

  /** When no two candidates score the same, moving the detections moves the choice with them. */
  lemma {:induction false} MovedStable(m: set<Candidate>, all: set<Candidate>, p: seq<nat>)
    requires Stable(m, all) && DistinctScores(all) && Permutation(p)
    requires forall c | c in all :: c.detection < |p|
    ensures Stable(Moved(m, p), Moved(all, p))
  {
    var m', all' := Moved(m, p), Moved(all, p);
    forall a', b' | a' in m' && b' in m' && a' != b' ensures !Clash(a', b') {
      var a :| a in m && a' == a.(detection := p[a.detection]);
      var b :| b in m && b' == b.(detection := p[b.detection]);
      assert !Clash(a, b);
    }
    forall c' | c' in all' && c' !in m' ensures exists k' :: k' in m' && Clash(k', c') && Before(k', c') {
      var c :| c in all && c' == c.(detection := p[c.detection]);
      var k :| k in m && Clash(k, c) && Before(k, c);
      var k' := k.(detection := p[k.detection]);
      assert k' in m' && Clash(k', c') && Before(k', c');
    }
  }
}
