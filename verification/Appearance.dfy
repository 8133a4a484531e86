/** The appearance vote: the best of the enrolled profiles must win five sightings of one track. */
module Appearance {
  import opened Common
  import opened Contexts
  import T = Tracking

  const PATIENCE: Time := 3 * SECOND
  const VOTES := 5

  /** A frame as far as the vote depends on it: how large and sharp the crop of the cat is, and the
      score of every profile on it. */
  datatype Picture = Picture(received: Time, sequence: nat, observedAt: int, large: bool, sharp: bool, scores: seq<real>)

  /** What one call is shown. */
  datatype Exposure = Nobody | Several | OneCat(trackId: nat, confirmed: bool)

  function Exposed(tracks: seq<T.Snapshot>): Exposure {
    var count := CountCats(tracks);
    if count == 0 then Nobody
    else if count != 1 then Several
    else OneCat(LastCat(tracks).trackId, LastCat(tracks).confirmed)
  }

  /** What a call is shown, place by place: nobody without an observed cat, several with more than one, and
      else the id of the only one and whether it is confirmed. */
  lemma {:induction false} ExposedExact(tracks: seq<T.Snapshot>)
    ensures var cats, seen := CatPlaces(tracks), Exposed(tracks);
            && (seen.Nobody? <==> cats == {}) && (seen.Several? <==> |cats| >= 2) && (seen.OneCat? <==> |cats| == 1)
            && (seen.OneCat? ==>
                  forall k | k in cats :: seen.trackId == tracks[k].trackId && seen.confirmed == tracks[k].confirmed)
  {
    var cats := CatPlaces(tracks);
    CountCatsExact(tracks);
    if |cats| == 1 {
      var k := LastCatExact(tracks);
      OnlyPlace(cats, k);
    }
  }

  // ----- choosing the winner -----

  datatype Podium = Podium(best: real, second: real, name: string)

  /** The two highest scores and the first name that reached the highest. */
  function Ranked(names: seq<string>, scores: seq<real>): Podium
    requires |names| == |scores|
  {
    if |names| == 0 then Podium(-1.0, -1.0, "")
    else
      var p, score := Ranked(Front(names), Front(scores)), Last(scores);
      if score > p.best then Podium(score, p.best, Last(names))
      else if score > p.second then p.(second := score)
      else p
  }

  /** A winner scores at least 0.75 and leads by at least 0.08. */
  function Winner(names: seq<string>, scores: seq<real>): Option<string>
    requires |names| == |scores|
  {
    var p := Ranked(names, scores);
    if p.best < 0.75 || p.best - p.second < 0.08 then None else Some(p.name)
  }

  /** Profile i scores high enough and leads every other profile far enough. */
  ghost predicate Leads(scores: seq<real>, i: nat) {
    i < |scores| && scores[i] >= 0.75 && forall j | 0 <= j < |scores| && j != i :: scores[i] - scores[j] >= 0.08
  }

  lemma {:induction false} RankedBounds(names: seq<string>, scores: seq<real>) returns (i: int)
    requires |names| == |scores|
    ensures var p := Ranked(names, scores);
            && -1.0 <= p.second <= p.best
            && (p.best > -1.0 ==> 0 <= i < |scores| && scores[i] == p.best && names[i] == p.name)
            && (forall j | 0 <= j < |scores| :: scores[j] <= p.best && (j != i ==> scores[j] <= p.second))
            && (p.second > -1.0 ==> exists j :: 0 <= j < |scores| && j != i && scores[j] == p.second)
  {
    i := -1;
    if |names| > 0 {
      var k := RankedBounds(Front(names), Front(scores));
      var p := Ranked(Front(names), Front(scores));
      i := if Last(scores) > p.best then |scores| - 1 else k;
      assert forall j | 0 <= j < |scores| - 1 :: Front(scores)[j] == scores[j];
      if Ranked(names, scores).second > -1.0 {
        if Last(scores) > p.best { assert scores[k] == p.best; }
        else if Last(scores) > p.second { assert scores[|scores| - 1] == Last(scores); }
        else {
          var j :| 0 <= j < |scores| - 1 && j != k && Front(scores)[j] == p.second;
          assert scores[j] == p.second;
        }
      }
    }
  }

  /** The accepted winner is the one profile that leads, wherever it stands in the gallery. */
  lemma {:induction false} WinnerExact(names: seq<string>, scores: seq<real>, i: nat)
    requires |names| == |scores| && i < |names|
    ensures Leads(scores, i) ==> Winner(names, scores) == Some(names[i])
    ensures (forall j, k | 0 <= j < k < |names| :: names[j] != names[k]) ==>
              (Winner(names, scores) == Some(names[i]) ==> Leads(scores, i))
  {
    var k := RankedBounds(names, scores);
    if Leads(scores, i) {
      assert k == i;
    }
  }

  /** The order of the profiles does not matter. */
  lemma {:induction false} OrderOfProfilesIrrelevant(names: seq<string>, scores: seq<real>, names': seq<string>,
                                                     scores': seq<real>, p: seq<nat>, q: seq<nat>)
    requires |names| == |scores| == |names'| == |scores'| == |p| == |q|
    requires forall i | 0 <= i < |p| :: p[i] < |p| && q[i] < |p| && p[q[i]] == i && q[p[i]] == i
    requires forall i | 0 <= i < |p| :: names'[p[i]] == names[i] && scores'[p[i]] == scores[i]
    requires forall j, k | 0 <= j < k < |names| :: names[j] != names[k]
    ensures Winner(names', scores') == Winner(names, scores)
  {
    forall i | 0 <= i < |p| ensures Leads(scores', p[i]) <==> Leads(scores, i) { LeadMoves(scores, scores', p, q, i); }
    if Winner(names, scores).Some? {
      var i := RankedBounds(names, scores);
      WinnerExact(names, scores, i);
      WinnerExact(names', scores', p[i]);
    }
    if Winner(names', scores').Some? {
      var i' := RankedBounds(names', scores');
      forall j, k | 0 <= j < k < |names'| ensures names'[j] != names'[k] {
        assert p[q[j]] == j && p[q[k]] == k;
      }
      WinnerExact(names', scores', i');
      assert p[q[i']] == i';
      WinnerExact(names, scores, q[i']);
    }
  }

  lemma {:induction false} LeadMoves(scores: seq<real>, scores': seq<real>, p: seq<nat>, q: seq<nat>, i: nat)
    requires |scores| == |scores'| == |p| == |q| && i < |p|
    requires forall i | 0 <= i < |p| :: p[i] < |p| && q[i] < |p| && p[q[i]] == i && q[p[i]] == i
    requires forall i | 0 <= i < |p| :: scores'[p[i]] == scores[i]
    ensures Leads(scores', p[i]) <==> Leads(scores, i)
  {
    if Leads(scores', p[i]) {
      forall j | 0 <= j < |scores| && j != i ensures scores[i] - scores[j] >= 0.08 {
        assert q[p[i]] == i && q[p[j]] == j;
        assert scores'[p[j]] == scores[j];
      }
    }
    if Leads(scores, i) {
      forall j | 0 <= j < |scores'| && j != p[i] ensures scores'[p[i]] - scores'[j] >= 0.08 {
        assert p[q[j]] == j && scores'[p[q[j]]] == scores[q[j]];
      }
    }
  }

  // ----- voting -----

  /** lastSeen 0, the epoch of the clock, stands for never. */
  datatype Ballot = Ballot(portrait: Portrait, candidate: string, votes: nat, lastSeen: Time)

  const BLANK := Ballot(NO_PORTRAIT, "", 0, 0)

  predicate Lapsed(s: Ballot, now: Time) { s.lastSeen != 0 && now - s.lastSeen > PATIENCE }

  /** Why a sighting casts no vote, as the status shown for it; None if it is scored. */
  function Unscored(names: seq<string>, cat: Exposure, picture: Picture): Option<PortraitStatus>
    requires cat.OneCat?
  {
    if !picture.large then Some(LowQuality)
    else if |names| == 0 then Some(Unregistered)
    else if !cat.confirmed then Some(PortraitConfirming)
    else if !picture.sharp then Some(LowQuality)
    else None
  }

  function Sighting(names: seq<string>, s: Ballot, cat: Exposure, picture: Picture): Ballot
    requires cat.OneCat? && |picture.scores| == |names|
  {
    var from := if cat.trackId != s.portrait.trackId || Lapsed(s, picture.received) then BLANK else s;
    var portrait := from.portrait.(trackId := cat.trackId, sequence := picture.sequence,
                                   observedAt := Some(picture.observedAt), name := "", similarity := 0.0,
                                   thumbnail := picture.large);
    var unscored := Unscored(names, cat, picture);
    if unscored.Some? then Ballot(portrait.(status := unscored.value), "", 0, picture.received)
    else
      var scored := portrait.(similarity := Ranked(names, picture.scores).best);
      match Winner(names, picture.scores)
      case None => Ballot(scored.(status := Uncertain), "", 0, picture.received)
      case Some(name) =>
        var votes := if from.candidate == name then from.votes + 1 else 1;
        if votes >= VOTES then Ballot(scored.(status := MatchedName, name := name), name, votes, picture.received)
        else Ballot(scored.(status := PortraitConfirming), name, votes, picture.received)
  }

  function Expose(names: seq<string>, s: Ballot, e: Exposure, picture: Picture): Ballot
    requires |picture.scores| == |names|
  {
    match e
    case Nobody =>
      if s.lastSeen != 0 && picture.received - s.lastSeen <= PATIENCE
      then s.(portrait := s.portrait.(status := PortraitHeld)) else BLANK
    case Several => BLANK.(portrait := NO_PORTRAIT.(status := PortraitAmbiguous))
    case OneCat(_, _) => Sighting(names, s, e, picture)
  }

  // ----- what a shown name implies -----

  datatype Shot = Shot(seen: Exposure, picture: Picture)

  ghost predicate Fitting(names: seq<string>, log: seq<Shot>) {
    (forall x | x in log :: |x.picture.scores| == |names|) && forall n | n in names :: n != ""
  }

  function After(names: seq<string>, log: seq<Shot>): Ballot
    requires Fitting(names, log)
  {
    if |log| == 0 then BLANK
    else
      assert Last(log) in log;
      Expose(names, After(names, Front(log)), Last(log).seen, Last(log).picture)
  }

  /** Sighting i is confirmed, of adequate quality, and won by the name. */
  ghost predicate Vote(names: seq<string>, log: seq<Shot>, i: nat, trackId: nat, name: string)
    requires Fitting(names, log)
  {
    i < |log| && log[i].seen == OneCat(trackId, true) && log[i].picture.large && log[i].picture.sharp &&
    (assert log[i] in log; Winner(names, log[i].picture.scores) == Some(name))
  }

  /** Nobody was seen at k, at most three seconds after i, which did not come at the epoch of the clock. */
  ghost predicate Waits(log: seq<Shot>, i: nat, k: nat)
    requires i < |log| && k < |log|
  {
    && log[k].seen.Nobody? && log[i].picture.received != 0
    && log[k].picture.received - log[i].picture.received <= 3_000_000_000
  }

  /** Nobody was seen between i and j, and j is at most three seconds after i, unless i came at the
      epoch of the clock. */
  ghost predicate Adjoins(log: seq<Shot>, i: nat, j: nat)
    requires i < j < |log|
  {
    && (forall k | i < k < j :: Waits(log, i, k))
    && (log[j].picture.received - log[i].picture.received <= 3_000_000_000 || log[i].picture.received == 0)
  }

  /** The sightings behind the present count of votes. */
  ghost predicate Count(names: seq<string>, log: seq<Shot>, votes: seq<nat>, trackId: nat, name: string)
    requires Fitting(names, log)
  {
    && (forall k | 0 <= k < |votes| :: Vote(names, log, votes[k], trackId, name))
    && (forall h, k | 0 <= h < k < |votes| && k == h + 1 :: votes[h] < votes[k] && Adjoins(log, votes[h], votes[k]))
    && (|votes| > 0 ==> forall k | Last(votes) < k < |log| :: Waits(log, Last(votes), k))
  }

  lemma {:induction false} CountStays(names: seq<string>, log: seq<Shot>, votes: seq<nat>, trackId: nat, name: string)
    requires Fitting(names, log) && |log| > 0 && Fitting(names, Front(log))
    requires Count(names, Front(log), votes, trackId, name)
    requires |votes| > 0 ==> Last(votes) < |log| - 1 && Waits(log, Last(votes), |log| - 1)
    ensures Count(names, log, votes, trackId, name)
  {
    assert forall k | 0 <= k < |log| - 1 :: Front(log)[k] == log[k];
    forall h, k | 0 <= h < k < |votes| && k == h + 1 ensures Adjoins(log, votes[h], votes[k]) {
      AdjoinsStays(log, votes[h], votes[k]);
    }
    forall k | |votes| > 0 && Last(votes) < k < |log| - 1 ensures Waits(log, Last(votes), k) {
      assert Waits(Front(log), Last(votes), k);
    }
  }

  lemma {:induction false} AdjoinsStays(log: seq<Shot>, i: nat, j: nat)
    requires i < j < |log| - 1
    ensures Adjoins(Front(log), i, j) <==> Adjoins(log, i, j)
  {
    forall k | i < k < j ensures Waits(Front(log), i, k) <==> Waits(log, i, k) {
      assert Front(log)[i] == log[i] && Front(log)[k] == log[k];
    }
  }

  lemma {:induction false} CountGrows(names: seq<string>, log: seq<Shot>, votes: seq<nat>, trackId: nat, name: string)
    requires Fitting(names, log) && |log| > 0 && Fitting(names, Front(log))
    requires Count(names, Front(log), votes, trackId, name) && Vote(names, log, |log| - 1, trackId, name)
    requires |votes| > 0 ==> Last(votes) < |log| - 1
    requires |votes| > 0 ==> log[|log| - 1].picture.received - log[Last(votes)].picture.received <= 3_000_000_000 ||
                             log[Last(votes)].picture.received == 0
    ensures Count(names, log, votes + [|log| - 1], trackId, name)
  {
    assert forall k | 0 <= k < |log| - 1 :: Front(log)[k] == log[k];
    var more := votes + [|log| - 1];
    forall h, k | 0 <= h < k < |more| && k == h + 1 ensures more[h] < more[k] && Adjoins(log, more[h], more[k]) {
      if k < |votes| {
        AdjoinsStays(log, votes[h], votes[k]);
      } else {
        forall m | more[h] < m < more[k] ensures Waits(log, more[h], m) { assert Waits(Front(log), Last(votes), m); }
      }
    }
  }

  ghost predicate Tallied(names: seq<string>, log: seq<Shot>, votes: seq<nat>)
    requires Fitting(names, log)
  {
    var s := After(names, log);
    && |votes| == s.votes && Count(names, log, votes, s.portrait.trackId, s.candidate)
    && (s.votes > 0 ==> Last(votes) < |log| && s.lastSeen == log[Last(votes)].picture.received)
    && (s.portrait.name != "" <==> s.votes >= 5) && (s.portrait.name != "" ==> s.portrait.name == s.candidate)
    && (s.votes == 0 <==> s.candidate == "")
  }

  /** The votes counted are real: as many as the count says, by one track, one after the other. */
  lemma {:induction false} VotesAreReal(names: seq<string>, log: seq<Shot>) returns (votes: seq<nat>)
    requires Fitting(names, log)
    ensures Tallied(names, log, votes)
  {
    votes := [];
    if |log| > 0 {
      assert Last(log) in log;
      var x := Last(log);
      votes := VotesAreReal(names, Front(log));
      match x.seen
      case Nobody =>
        if Expose(names, After(names, Front(log)), x.seen, x.picture).lastSeen == 0 { votes := []; }
        else { CountStays(names, log, votes, After(names, log).portrait.trackId, After(names, log).candidate); }
      case Several => votes := [];
      case OneCat(_, _) => votes := SightingIsReal(names, log, votes);
    }
  }

  lemma {:induction false} SightingIsReal(names: seq<string>, log: seq<Shot>,
                                          before: seq<nat>) returns (votes: seq<nat>)
    requires Fitting(names, log) && |log| > 0 && Last(log).seen.OneCat?
    requires Fitting(names, Front(log)) && Tallied(names, Front(log), before)
    ensures Tallied(names, log, votes)
  {
    var s, x := After(names, Front(log)), Last(log);
    assert x in log;
    votes := [];
    if Unscored(names, x.seen, x.picture).None? && Winner(names, x.picture.scores).Some? {
      var name := Winner(names, x.picture.scores).value;
      WinnerIsEnrolled(names, x.picture.scores);
      if x.seen.trackId == s.portrait.trackId && !Lapsed(s, x.picture.received) && s.candidate == name { votes := before; }
      CountGrows(names, log, votes, x.seen.trackId, name);
      votes := votes + [|log| - 1];
    }
  }

  lemma {:induction false} WinnerIsEnrolled(names: seq<string>, scores: seq<real>)
    requires |names| == |scores| && Winner(names, scores).Some?
    ensures Winner(names, scores).value in names
  {
    var i := RankedBounds(names, scores);
    assert names[i] in names;
  }

  /** A shown name was won, confirmed and in adequate quality, at the last five sightings, all of
      one track. */
  lemma {:induction false} ShownNameHasFiveVotes(names: seq<string>, log: seq<Shot>) returns (votes: seq<nat>)
    requires Fitting(names, log) && After(names, log).portrait.name != ""
    ensures |votes| == 5
    ensures Count(names, log, votes, After(names, log).portrait.trackId, After(names, log).portrait.name)
  {
    var all := VotesAreReal(names, log);
    votes := all[|all| - 5..];
    assert forall h | 0 <= h < |votes| :: votes[h] == all[|all| - 5 + h];
  }

  lemma {:induction false} CountBefore(names: seq<string>, log: seq<Shot>, votes: seq<nat>, trackId: nat, name: string)
    requires Fitting(names, log) && |log| > 0 && Fitting(names, Front(log)) && |votes| > 0
    requires Count(names, log, votes, trackId, name)
    ensures Last(votes) < |log| - 1 ==> Count(names, Front(log), votes, trackId, name)
    ensures Last(votes) == |log| - 1 ==> Count(names, Front(log), Front(votes), trackId, name)
    ensures Last(votes) == |log| - 1 && |votes| > 1 ==> Adjoins(log, Last(Front(votes)), |log| - 1)
  {
    VotesRise(names, log, votes, trackId, name, |votes| - 1);
    if Last(votes) < |log| - 1 {
      PrefixCounts(names, log, votes, trackId, name);
    } else if |votes| > 1 {
      ChainFront(names, log, votes, trackId, name);
      PrefixCounts(names, log, Front(votes), trackId, name);
    }
  }

  /** Without its last vote, a count stands up to just before that vote. */
  lemma {:induction false} ChainFront(names: seq<string>, log: seq<Shot>, votes: seq<nat>, trackId: nat, name: string)
    requires Fitting(names, log) && |votes| > 1 && Count(names, log, votes, trackId, name)
    ensures Chained(names, log, Front(votes), trackId, name, Last(votes)) && Adjoins(log, Last(Front(votes)), Last(votes))
  {
    assert Adjoins(log, votes[|votes| - 2], votes[|votes| - 1]);
  }

  /** The votes adjoin, and nobody was seen from the last of them up to n. */
  ghost predicate Chained(names: seq<string>, log: seq<Shot>, votes: seq<nat>, trackId: nat, name: string, n: nat)
    requires Fitting(names, log)
  {
    && (forall k | 0 <= k < |votes| :: Vote(names, log, votes[k], trackId, name))
    && (forall h, k | 0 <= h < k < |votes| && k == h + 1 :: votes[h] < votes[k] && Adjoins(log, votes[h], votes[k]))
    && |votes| > 0 && n <= |log| && Last(votes) < n && forall k | Last(votes) < k < n :: Waits(log, Last(votes), k)
  }

  lemma {:induction false} PrefixCounts(names: seq<string>, log: seq<Shot>, votes: seq<nat>, trackId: nat, name: string)
    requires Fitting(names, log) && |log| > 0 && Fitting(names, Front(log))
    requires Chained(names, log, votes, trackId, name, |log| - 1)
    requires forall h | 0 <= h < |votes| :: votes[h] < |log| - 1
    ensures Count(names, Front(log), votes, trackId, name)
  {
    assert forall k | 0 <= k < |log| - 1 :: Front(log)[k] == log[k];
    forall h, k | 0 <= h < k < |votes| && k == h + 1 ensures votes[h] < votes[k] && Adjoins(Front(log), votes[h], votes[k]) {
      AdjoinsStays(log, votes[h], votes[k]);
    }
    forall k | Last(votes) < k < |log| - 1 ensures Waits(Front(log), Last(votes), k) { assert Waits(log, Last(votes), k); }
  }

  lemma {:induction false} VotesRise(names: seq<string>, log: seq<Shot>, votes: seq<nat>, trackId: nat, name: string,
                                     n: nat)
    requires Fitting(names, log) && Count(names, log, votes, trackId, name) && n < |votes|
    ensures forall h | 0 <= h < n :: votes[h] < votes[n]
    decreases n
  {
    if n > 0 { VotesRise(names, log, votes, trackId, name, n - 1); }
  }

  /** No vote is lost: adjoining votes are all counted, and from the fifth on the name is shown. */
  lemma {:induction false} VotesAreCounted(names: seq<string>, log: seq<Shot>, votes: seq<nat>, trackId: nat, name: string)
    requires Fitting(names, log) && |votes| > 0 && Count(names, log, votes, trackId, name)
    ensures var s := After(names, log);
            && s.votes >= |votes| && s.candidate == name && s.portrait.trackId == trackId
            && s.lastSeen == log[Last(votes)].picture.received
            && (|votes| >= 5 ==> s.portrait.name == name)
    decreases |log|
  {
    assert Vote(names, log, votes[|votes| - 1], trackId, name);
    assert Last(log) in log;
    CountBefore(names, log, votes, trackId, name);
    if Last(votes) < |log| - 1 {
      assert Waits(log, Last(votes), |log| - 1);
      VotesAreCounted(names, Front(log), votes, trackId, name);
    } else {
      if |votes| > 1 {
        VotesAreCounted(names, Front(log), Front(votes), trackId, name);
        assert Adjoins(log, Last(Front(votes)), |log| - 1);
      }
      VoteCounts(names, After(names, Front(log)), Last(log), name);
    }
  }

  lemma {:induction false} VoteCounts(names: seq<string>, s: Ballot, x: Shot, name: string)
    requires |x.picture.scores| == |names| && x.seen.OneCat? && x.seen.confirmed && x.picture.large && x.picture.sharp
    requires Winner(names, x.picture.scores) == Some(name)
    ensures var s', goes := Expose(names, s, x.seen, x.picture),
                            x.seen.trackId == s.portrait.trackId && !Lapsed(s, x.picture.received) && s.candidate == name;
            && s'.candidate == name && s'.portrait.trackId == x.seen.trackId && s'.lastSeen == x.picture.received
            && s'.votes >= (if goes then s.votes + 1 else 1) && (s'.votes >= 5 ==> s'.portrait.name == name)
  {
    NobodyToWin(names, x.picture.scores);
  }

  lemma {:induction false} NobodyToWin(names: seq<string>, scores: seq<real>)
    requires |names| == |scores|
    ensures |names| == 0 ==> Winner(names, scores).None?
  {
  }

  /** A name is shown exactly if the last five sightings of the cat, all of one track and close in time,
      are votes for it. */
  lemma {:induction false} NameExact(names: seq<string>, log: seq<Shot>, name: string)
    requires Fitting(names, log) && name != ""
    ensures After(names, log).portrait.name == name <==>
            exists votes, trackId :: |votes| == 5 && Count(names, log, votes, trackId, name)
  {
    if After(names, log).portrait.name == name {
      var votes := ShownNameHasFiveVotes(names, log);
    }
    if exists votes, trackId :: |votes| == 5 && Count(names, log, votes, trackId, name) {
      var votes, trackId :| |votes| == 5 && Count(names, log, votes, trackId, name);
      VotesAreCounted(names, log, votes, trackId, name);
    }
  }

  /** What the portrait shows at each sighting, in the order of the checks, and that it keeps what it
      showed while nobody is seen for three seconds. */
  lemma {:induction false} PortraitExact(names: seq<string>, log: seq<Shot>)
    requires Fitting(names, log) && |log| > 0
    ensures Fitting(names, Front(log)) && |Last(log).picture.scores| == |names|
    ensures var x, p, before := Last(log), After(names, log).portrait, After(names, Front(log));
            match x.seen
            case Nobody =>
              p == (if before.lastSeen != 0 && x.picture.received - before.lastSeen <= 3_000_000_000
                    then before.portrait.(status := PortraitHeld)
                    else Portrait(Unavailable, "", None, 0, 0, 0.0, false))
            case Several => p == Portrait(PortraitAmbiguous, "", None, 0, 0, 0.0, false)
            case OneCat(trackId, confirmed) =>
              && p.trackId == trackId && p.sequence == x.picture.sequence && p.observedAt == Some(x.picture.observedAt)
              && p.thumbnail == x.picture.large
              && p.status == (if !x.picture.large then LowQuality
                              else if |names| == 0 then Unregistered
                              else if !confirmed then PortraitConfirming
                              else if !x.picture.sharp then LowQuality
                              else if Winner(names, x.picture.scores).None? then Uncertain
                              else if p.name != "" then MatchedName
                              else PortraitConfirming)
              && (if x.picture.large && |names| > 0 && confirmed && x.picture.sharp
                  then (forall j | 0 <= j < |names| :: x.picture.scores[j] <= p.similarity) &&
                       (p.similarity > -1.0 ==> p.similarity in x.picture.scores)
                  else p.similarity == 0.0)
  {
    assert Last(log) in log;
    var i := RankedBounds(names, Last(log).picture.scores);
    if Last(log).seen.OneCat? && Winner(names, Last(log).picture.scores).Some? {
      WinnerIsEnrolled(names, Last(log).picture.scores);
    }
  }

  /** Exactly when a vote more than three seconds after the last sighting still adds to the count: when
      that sighting came at the epoch of the clock. Otherwise the count starts again at one. */
  lemma {:induction false} LateVoteCounts(names: seq<string>, s: Ballot, cat: Exposure, picture: Picture, name: string)
    requires |picture.scores| == |names| && cat.OneCat? && cat.trackId == s.portrait.trackId
    requires Unscored(names, cat, picture).None? && Winner(names, picture.scores) == Some(name)
    requires s.votes > 0 && s.candidate == name && picture.received - s.lastSeen > 3_000_000_000
    requires forall n | n in names :: n != ""
    ensures Expose(names, s, cat, picture).votes == s.votes + 1 <==> s.lastSeen == 0
    ensures s.lastSeen != 0 ==> Expose(names, s, cat, picture).votes == 1
  {
    WinnerIsEnrolled(names, picture.scores);
  }

  /** The exception for the epoch is needed: a first sighting at clock zero may be any time ago. */
  lemma {:induction false} EpochSkipsTheGap()
    ensures exists names, log: seq<Shot> ::
              && Fitting(names, log) && |log| == VOTES && After(names, log).portrait.name == "coco"
              && log[1].picture.received - log[0].picture.received > PATIENCE
  {
    var names := ["coco"];
    var x := Shot(OneCat(1, true), Picture(0, 1, 0, true, true, [0.9]));
    var y := Shot(OneCat(1, true), Picture(100 * SECOND, 1, 0, true, true, [0.9]));
    CocoWins();
    var log := FiveShots(names, x, y);
    CocoVotes(x, y, VOTES);
  }

  lemma {:induction false} CocoWins()
    ensures Winner(["coco"], [0.9]) == Some("coco")
  {
    assert Front(["coco"]) == [] && Front([0.9]) == [];
  }

  lemma {:induction false} CocoVotes(x: Shot, y: Shot, n: nat)
    requires x == Shot(OneCat(1, true), Picture(0, 1, 0, true, true, [0.9])) && n > 0
    requires y == Shot(OneCat(1, true), Picture(100 * SECOND, 1, 0, true, true, [0.9]))
    requires Winner(["coco"], [0.9]) == Some("coco")
    ensures var s := Exposures(["coco"], x, y, n);
            && s.votes == n && s.candidate == "coco" && s.portrait.trackId == 1
            && s.lastSeen == (if n == 1 then 0 else 100 * SECOND)
            && (n >= VOTES ==> s.portrait.name == "coco")
  {
    if n > 1 { CocoVotes(x, y, n - 1); }
  }

  lemma {:induction false} FiveShots(names: seq<string>, x: Shot, y: Shot) returns (log: seq<Shot>)
    requires |x.picture.scores| == |y.picture.scores| == |names| && forall n | n in names :: n != ""
    ensures |log| == VOTES && log[0] == x && log[1] == y
    ensures Fitting(names, log) && After(names, log) == Exposures(names, x, y, VOTES)
  {
    log := [];
    AfterNext(names, log, x);
    log := log + [x];
    for i := 1 to VOTES
      invariant |log| == i && log[0] == x && (i > 1 ==> log[1] == y) && Fitting(names, log)
      invariant After(names, log) == Exposures(names, x, y, i)
    {
      AfterNext(names, log, y);
      log := log + [y];
    }
  }

  /** One sighting x, then y until there are n of them. */
  function Exposures(names: seq<string>, x: Shot, y: Shot, n: nat): Ballot
    requires |x.picture.scores| == |y.picture.scores| == |names|
  {
    if n == 0 then BLANK
    else if n == 1 then Expose(names, BLANK, x.seen, x.picture)
    else Expose(names, Exposures(names, x, y, n - 1), y.seen, y.picture)
  }

  lemma {:induction false} AfterNext(names: seq<string>, log: seq<Shot>, x: Shot)
    requires Fitting(names, log) && |x.picture.scores| == |names|
    ensures Fitting(names, log + [x])
    ensures After(names, log + [x]) == Expose(names, After(names, log), x.seen, x.picture)
  {
    assert Front(log + [x]) == log;
  }

  datatype GalleryError = InvalidProfile | DuplicateIdentity

  const LONGEST_NAME := 128

  /** The first profile that makes a gallery unusable. */
  function GalleryFault(names: seq<string>): Option<GalleryError> {
    if |names| == 0 then None
    else if GalleryFault(Front(names)).Some? then GalleryFault(Front(names))
    else if Last(names) == "" || |Last(names)| > LONGEST_NAME then Some(InvalidProfile)
    else if Last(names) in Front(names) then Some(DuplicateIdentity)
    else None
  }

  /** A usable gallery has names of a proper length, no two alike. */
  lemma {:induction false} GalleryUsable(names: seq<string>)
    ensures GalleryFault(names).None? <==>
            && (forall i | 0 <= i < |names| :: 0 < |names[i]| <= 128)
            && (forall i, j | 0 <= i < j < |names| :: names[i] != names[j])
  {
    if |names| > 0 {
      GalleryUsable(Front(names));
      assert forall i | 0 <= i < |names| - 1 :: Front(names)[i] == names[i];
    }
  }

  lemma {:induction false} FaultStays(names: seq<string>, n: nat)
    requires n <= |names| && GalleryFault(names[..n]).Some?
    ensures GalleryFault(names) == GalleryFault(names[..n])
  {
    if n < |names| {
      assert Front(names)[..n] == names[..n];
      FaultStays(Front(names), n);
    } else {
      assert names[..n] == names;
    }
  }

  class PetAppearance {
    const names: seq<string>
    var portrait: Portrait
    var candidate: string
    var votes: nat
    var lastSeen: Time

    function Now(): Ballot
      reads this
    {
      Ballot(portrait, candidate, votes, lastSeen)
    }

    constructor (names: seq<string>)
      requires forall i, j | 0 <= i < j < |names| :: names[i] != names[j]
      requires forall i | 0 <= i < |names| :: names[i] != ""
      ensures this.names == names && Now() == BLANK
    {
      this.names := names;
      portrait, candidate, votes, lastSeen := NO_PORTRAIT, "", 0, 0;
    }

    /** A vote over the profiles of a gallery, which are checked one by one. */
    static method Load(gallery: seq<string>) returns (r: Result<PetAppearance, GalleryError>)
      ensures match GalleryFault(gallery)
              case Some(e) => r == Failure(e)
              case None => r.Success? && fresh(r.value) && r.value.names == gallery && r.value.Now() == BLANK
    {
      var profiles: seq<string> := [];
      var i := 0;
      while i < |gallery|
        invariant 0 <= i <= |gallery| && profiles == gallery[..i] && GalleryFault(profiles).None?
      {
        var name := gallery[i];
        assert Front(gallery[..i + 1]) == gallery[..i];
        if name == "" || |name| > LONGEST_NAME {
          FaultStays(gallery, i + 1);
          return Failure(InvalidProfile);
        }
        if name in profiles {
          FaultStays(gallery, i + 1);
          return Failure(DuplicateIdentity);
        }
        profiles := profiles + [name];
        i := i + 1;
      }
      assert gallery[..i] == gallery;
      GalleryUsable(gallery);
      var appearance := new PetAppearance(gallery);
      r := Success(appearance);
    }

    method Clear()
      modifies this
      ensures Now() == BLANK
    {
      portrait, candidate, votes, lastSeen := NO_PORTRAIT, "", 0, 0;
    }

    /** One frame with the tracks seen in it. */
    method Observe(picture: Picture, tracks: seq<T.Snapshot>)
      requires |picture.scores| == |names|
      modifies this
      ensures Now() == Expose(names, old(Now()), Exposed(tracks), picture)
    {
      var count, cat := FindCat(tracks);
      ghost var seen := Exposed(tracks);
      if count == 0 {
        if lastSeen != 0 && picture.received - lastSeen <= PATIENCE {
          portrait := portrait.(status := PortraitHeld);
        } else {
          Clear();
        }
        return;
      }
      if count != 1 {
        Clear();
        portrait := portrait.(status := PortraitAmbiguous);
        return;
      }
      if cat.value.trackId != portrait.trackId || (lastSeen != 0 && picture.received - lastSeen > PATIENCE) {
        Clear();
      }
      portrait := portrait.(trackId := cat.value.trackId, sequence := picture.sequence, observedAt := Some(picture.observedAt),
                            name := "", similarity := 0.0);
      lastSeen := picture.received;
      if !picture.large {
        portrait := portrait.(thumbnail := false, status := LowQuality);
        candidate, votes := "", 0;
        return;
      }
      portrait := portrait.(thumbnail := true, status := if |names| == 0 then Unregistered else PortraitConfirming);
      if !cat.value.confirmed || |names| == 0 {
        candidate, votes := "", 0;
        return;
      }
      if !picture.sharp {
        portrait := portrait.(status := LowQuality);
        candidate, votes := "", 0;
        return;
      }
      var podium := Rank(picture.scores);
      portrait := portrait.(similarity := podium.best);
      if podium.best < 0.75 || podium.best - podium.second < 0.08 {
        portrait := portrait.(status := Uncertain);
        candidate, votes := "", 0;
        return;
      }
      if candidate == podium.name {
        votes := votes + 1;
      } else {
        candidate, votes := podium.name, 1;
      }
      if votes >= VOTES {
        portrait := portrait.(name := podium.name, status := MatchedName);
      }
    }

    /** One pass over the profiles keeps the two highest scores. */
    method Rank(scores: seq<real>) returns (podium: Podium)
      requires |scores| == |names|
      ensures podium == Ranked(names, scores)
    {
      var best, second, name := -1.0, -1.0, "";
      for i := 0 to |names|
        invariant Podium(best, second, name) == Ranked(names[..i], scores[..i])
      {
        assert Front(names[..i + 1]) == names[..i] && Front(scores[..i + 1]) == scores[..i];
        var score := scores[i];
        if score > best {
          second := best;
          best := score;
          name := names[i];
        } else if score > second {
          second := score;
        }
      }
      assert names[..|names|] == names && scores[..|names|] == scores;
      podium := Podium(best, second, name);
    }
  }
}
