/** The published snapshot of one camera. */
module Contexts {
  import opened Common
  import opened Geometry
  import opened Tracking

  datatype Health = Starting | Online | HealthOffline

  datatype Mode = Live | Replay | Demo

  datatype PortraitStatus =
    Unavailable | PortraitHeld | PortraitAmbiguous | LowQuality | Unregistered | PortraitConfirming | Uncertain | MatchedName

  /** Who the appearance says the cat is. */
  datatype Portrait = Portrait(status: PortraitStatus, name: string, observedAt: Option<int>, trackId: nat,
                               sequence: nat, similarity: real, thumbnail: bool)

  const NO_PORTRAIT := Portrait(Unavailable, "", None, 0, 0, 0.0, false)

  /** petAge is how long ago the cat was last confirmed; None stands for the published -1. */
  datatype Context = Context(source: string, observedAt: Option<int>, health: Health, mode: Mode,
                             petState: State, petEvidence: Evidence, petAge: Option<Time>, petConfidence: real,
                             person: State, cat: State, sequence: nat, dropped: nat, personCount: nat, catCount: nat,
                             tracks: seq<Snapshot>, inferenceMs: real, updated: Option<Time>, portrait: Portrait)

  function NewContext(source: string): Context {
    Context(source, None, Starting, Live, Unknown, NoEvidence, None, 0.0, Unknown, Unknown, 0, 0, 0, 0, [], 0.0, None,
            NO_PORTRAIT)
  }

  predicate ObservedCat(t: Snapshot) { t.classId == CAT && t.observed }

  function CountCats(tracks: seq<Snapshot>): nat {
    if |tracks| == 0 then 0 else CountCats(Front(tracks)) + if ObservedCat(Last(tracks)) then 1 else 0
  }

  /** The last observed cat. */
  function LastCat(tracks: seq<Snapshot>): (cat: Snapshot)
    requires CountCats(tracks) > 0
    ensures cat in tracks && ObservedCat(cat)
  {
    if ObservedCat(Last(tracks)) then Last(tracks) else LastCat(Front(tracks))
  }

  /** The places of the observed cats. */
  ghost function CatPlaces(tracks: seq<Snapshot>): set<nat> {
    set k: nat | k < |tracks| && tracks[k].classId == 15 && tracks[k].observed
  }

  lemma {:induction false} CatPlacesNext(tracks: seq<Snapshot>)
    requires |tracks| > 0
    ensures CatPlaces(tracks) == CatPlaces(Front(tracks)) + if ObservedCat(Last(tracks)) then {|tracks| - 1} else {}
  {
  }

  /** The count is the number of places at which an observed cat is listed. */
  lemma {:induction false} CountCatsExact(tracks: seq<Snapshot>)
    ensures CountCats(tracks) == |CatPlaces(tracks)|
    decreases |tracks|
  {
    if |tracks| == 0 {
      assert CatPlaces(tracks) == {};
    } else {
      CatPlacesNext(tracks);
      CountCatsExact(Front(tracks));
    }
  }

  /** The last cat is listed at the last of those places. */
  lemma {:induction false} LastCatExact(tracks: seq<Snapshot>) returns (k: nat)
    requires CountCats(tracks) > 0
    ensures k in CatPlaces(tracks) && tracks[k] == LastCat(tracks) && forall i | i in CatPlaces(tracks) :: i <= k
    decreases |tracks|
  {
    CatPlacesNext(tracks);
    if ObservedCat(Last(tracks)) { k := |tracks| - 1; } else { k := LastCatExact(Front(tracks)); }
  }

  lemma {:induction false} OnlyPlace(s: set<nat>, k: nat)
    requires |s| == 1 && k in s
    ensures s == {k}
  {
    assert |s - {k}| == 0;
  }

  /** Counts the observed cats and keeps the last one. */
  method FindCat(tracks: seq<Snapshot>) returns (count: nat, cat: Option<Snapshot>)
    ensures count == CountCats(tracks)
    ensures cat == if count > 0 then Some(LastCat(tracks)) else None
  {
    count, cat := 0, None;
    for i := 0 to |tracks|
      invariant count == CountCats(tracks[..i])
      invariant cat == if count > 0 then Some(LastCat(tracks[..i])) else None
    {
      assert Front(tracks[..i + 1]) == tracks[..i];
      if ObservedCat(tracks[i]) {
        count := count + 1;
        cat := Some(tracks[i]);
      }
    }
    assert tracks[..|tracks|] == tracks;
  }
}
