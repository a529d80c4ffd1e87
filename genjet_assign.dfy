/**
 * Exclusive nearest-neighbour assignment of generator jets to reconstructed jets:
 * the strict-< argmin scan over the unused generator jets, the radius test, and the
 * choice of the radius from the jet branch name.
 */
module GenJetAssign {

  /** The initial value of min_dr: a generator jet at distance 999 or more is never chosen. */
  const NoMatchDistance: real := 999.0

  /** A matching radius. The program only ever uses 0.8 or 1.5; every radius below the
      initial min_dr guarantees that a match names a real generator jet. */
  type Radius = r: real | 0.0 < r <= NoMatchDistance witness 0.8

  // ---------------------------------------------------------------------------
  // Choice of jetR

  /** Substring test on the branch name (case-sensitive, as TString::Contains by default). */
  function Contains(s: string, pat: string): bool
    decreases |s|
  {
    |pat| <= |s| && (s[..|pat|] == pat || Contains(s[1..], pat))
  }

  /** `pat` occurs in `s` starting at position i. */
  predicate OccursAt(s: string, pat: string, i: int) {
    0 <= i <= |s| - |pat| && s[i..i + |pat|] == pat
  }

  lemma {:induction false} ContainsIffOccurs(s: string, pat: string)
    ensures Contains(s, pat) <==> exists i :: OccursAt(s, pat, i)
    decreases |s|
  {
    if |pat| > |s| {
      assert forall i :: !OccursAt(s, pat, i);
    } else if s[..|pat|] == pat {
      assert OccursAt(s, pat, 0);
    } else {
      ContainsIffOccurs(s[1..], pat);
      if exists i :: OccursAt(s, pat, i) {
        var i :| OccursAt(s, pat, i);
        assert i > 0;
        assert s[1..][i - 1..i - 1 + |pat|] == s[i..i + |pat|];
        assert OccursAt(s[1..], pat, i - 1);
      }
      if Contains(s[1..], pat) {
        var i :| OccursAt(s[1..], pat, i);
        assert s[1..][i..i + |pat|] == s[i + 1..i + 1 + |pat|];
        assert OccursAt(s, pat, i + 1);
      }
    }
  }

  /** jetR: 1.5 for a branch whose name contains "AK15", 0.8 otherwise. */
  function JetRadius(jetBranch: string): (r: Radius)
    ensures r == 1.5 || r == 0.8
  {
    if Contains(jetBranch, "AK15") then 1.5 else 0.8
  }

  lemma JetRadiusChoice(jetBranch: string)
    ensures JetRadius(jetBranch) == 1.5 <==> exists i :: OccursAt(jetBranch, "AK15", i)
    ensures JetRadius(jetBranch) == 0.8 <==> !exists i :: OccursAt(jetBranch, "AK15", i)
  {
    ContainsIffOccurs(jetBranch, "AK15");
  }

  /** The default branch "JetPUPPIAK8" gets 0.8, and "JetPUPPIAK15" gets 1.5. */
  lemma DefaultRadii()
    ensures JetRadius("JetPUPPIAK8") == 0.8
    ensures JetRadius("JetPUPPIAK15") == 1.5
  {
    var ak15 := "JetPUPPIAK15";
    assert OccursAt(ak15, "AK15", 8);
    JetRadiusChoice(ak15);
    var ak8 := "JetPUPPIAK8";
    forall i | 0 <= i <= |ak8| - 4 ensures !OccursAt(ak8, "AK15", i) {
      assert ak8[i + 3] != '5';
      assert ak8[i..i + 4][3] == ak8[i + 3];
    }
    JetRadiusChoice(ak8);
  }

  // ---------------------------------------------------------------------------
  // The argmin scan

  /** (min_dr, min_dr_index) after scanning the distances in generator-jet order,
      skipping the used indices and replacing the current best only on a strict <. */
  function Nearest(dr: seq<real>, used: seq<int>): (r: (real, int))
    ensures r.1 == -1 ==> r.0 == NoMatchDistance
    ensures r.1 != -1 ==> 0 <= r.1 < |dr| && r.1 !in used && r.0 == dr[r.1] && r.0 < NoMatchDistance
    decreases |dr|
  {
    if dr == [] then (NoMatchDistance, -1)
    else
      var best := Nearest(dr[..|dr| - 1], used);
      var j := |dr| - 1;
      if dr[j] < best.0 && j !in used then (dr[j], j) else best
  }

  /** (minDr, index) is the first unused generator jet of smallest distance, if that
      distance is below the sentinel, and (999, -1) when no unused jet is that close. */
  ghost predicate IsFirstNearest(dr: seq<real>, used: seq<int>, minDr: real, index: int) {
    if index == -1 then
      minDr == NoMatchDistance &&
      forall j :: 0 <= j < |dr| && j !in used ==> dr[j] >= NoMatchDistance
    else
      0 <= index < |dr| && index !in used && minDr == dr[index] && minDr < NoMatchDistance &&
      (forall j :: 0 <= j < |dr| && j !in used ==> dr[j] >= minDr) &&
      (forall j :: 0 <= j < index && j !in used ==> dr[j] > minDr)
  }

  lemma {:induction false} NearestIsFirstNearest(dr: seq<real>, used: seq<int>)
    ensures IsFirstNearest(dr, used, Nearest(dr, used).0, Nearest(dr, used).1)
    decreases |dr|
  {
    if dr != [] {
      var init := dr[..|dr| - 1];
      NearestIsFirstNearest(init, used);
      assert forall j :: 0 <= j < |init| ==> init[j] == dr[j];
    }
  }

  /** The characterisation pins the scan's result down completely. */
  lemma FirstNearestUnique(dr: seq<real>, used: seq<int>, m1: real, i1: int, m2: real, i2: int)
    requires IsFirstNearest(dr, used, m1, i1) && IsFirstNearest(dr, used, m2, i2)
    ensures m1 == m2 && i1 == i2
  {
    if i1 != -1 && i2 != -1 {
      assert dr[i1] >= m2 && dr[i2] >= m1;
    }
  }

  /** The scan over the generator jets for one reconstructed jet. */
  method NearestUnused(dr: seq<real>, used: seq<int>) returns (minDr: real, minIndex: int)
    ensures IsFirstNearest(dr, used, minDr, minIndex)
    ensures (minDr, minIndex) == Nearest(dr, used)
  {
    minDr, minIndex := NoMatchDistance, -1;
    for j := 0 to |dr|
      invariant (minDr, minIndex) == Nearest(dr[..j], used)
    {
      assert dr[..j + 1][..j] == dr[..j];
      var isUsed := j in used;
      if dr[j] < minDr && !isUsed {
        minDr, minIndex := dr[j], j;
      }
    }
    assert dr[..|dr|] == dr;
    NearestIsFirstNearest(dr, used);
  }

  // ---------------------------------------------------------------------------
  // One assignment step

  /** The generator jet assigned to a selected jet: the scan's index when its distance is
      strictly below jetR, and -1 (no match) otherwise. */
  function Assigned(dr: seq<real>, used: seq<int>, jetR: Radius): (r: int)
    ensures r == -1 || (0 <= r < |dr| && r !in used && dr[r] < jetR)
  {
    var best := Nearest(dr, used);
    if best.0 < jetR then best.1 else -1
  }

  /** A match is the first unused generator jet of smallest distance, and that distance
      is below jetR; there is no match exactly when every unused generator jet is at
      jetR or farther. */
  lemma AssignedIsExclusiveNearest(dr: seq<real>, used: seq<int>, jetR: Radius)
    ensures var g := Assigned(dr, used, jetR);
      (g == -1 <==> forall j :: 0 <= j < |dr| && j !in used ==> dr[j] >= jetR) &&
      (g != -1 ==>
         0 <= g < |dr| && g !in used && dr[g] < jetR &&
         (forall j :: 0 <= j < |dr| && j !in used ==> dr[j] >= dr[g]) &&
         (forall j :: 0 <= j < g && j !in used ==> dr[j] > dr[g]))
  {
    NearestIsFirstNearest(dr, used);
  }

  /** genjet_used_inds after the step: the match is appended, nothing else changes. */
  function Use(used: seq<int>, g: int): seq<int> {
    if g == -1 then used else used + [g]
  }

  predicate NoDuplicates(s: seq<int>) {
    forall k, l :: 0 <= k < l < |s| ==> s[k] != s[l]
  }

  /** Appending the assigned index keeps the used list free of duplicates and within
      the generator-jet range. */
  lemma UsePreservesExclusive(dr: seq<real>, used: seq<int>, jetR: Radius)
    requires NoDuplicates(used)
    requires forall k :: 0 <= k < |used| ==> 0 <= used[k] < |dr|
    ensures var after := Use(used, Assigned(dr, used, jetR));
      NoDuplicates(after) && forall k :: 0 <= k < |after| ==> 0 <= after[k] < |dr|
  {
    AssignedIsExclusiveNearest(dr, used, jetR);
    var g := Assigned(dr, used, jetR);
    if g != -1 {
      var after := used + [g];
      forall k, l | 0 <= k < l < |after| ensures after[k] != after[l] {
        if l == |used| { assert after[k] == used[k]; assert used[k] in used; }
      }
    }
  }
}
