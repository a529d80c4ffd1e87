/**
 * Collecting a jet's constituents: the loop that emplaces every recognised, non-null
 * constituent and pops it again when it fails the validity test, and the in-place sort
 * by descending pt that follows it.
 */
module Constituents {
  import opened Records
  import opened Features

  /** Whether the IsA() dispatch emplaces the constituent: generator particles always,
      particle-flow candidates only when collecting a reconstructed jet. */
  predicate Emplaced(c: Constituent, acceptPFCand: bool) {
    c.GenParticleRef? || (acceptPFCand && c.PFCandidateRef?)
  }

  /** Whether the constituent ends up in the collected list. */
  predicate Keeps(c: Constituent, acceptPFCand: bool) {
    Emplaced(c, acceptPFCand) && IsValid(c.info)
  }

  /** The collected list, in constituent order: never longer than the constituent list,
      and every particle in it passes the validity test. */
  function Kept(cs: seq<Constituent>, acceptPFCand: bool): (r: seq<ParticleInfo>)
    ensures |r| <= |cs|
    ensures forall k :: 0 <= k < |r| ==> IsValid(r[k])
    decreases |cs|
  {
    if cs == [] then []
    else
      var c := cs[|cs| - 1];
      Kept(cs[..|cs| - 1], acceptPFCand) + (if Keeps(c, acceptPFCand) then [c.info] else [])
  }

  /** The positions in `cs` of the constituents that are kept. */
  function KeptIndices(cs: seq<Constituent>, acceptPFCand: bool): seq<nat>
    decreases |cs|
  {
    if cs == [] then []
    else
      KeptIndices(cs[..|cs| - 1], acceptPFCand) +
      (if Keeps(cs[|cs| - 1], acceptPFCand) then [|cs| - 1] else [])
  }

  /** `idx` picks out, in increasing order, exactly the kept constituents, and `kept`
      lists their particles in that order: `kept` is the subsequence of kept entries. */
  ghost predicate Selects(idx: seq<nat>, cs: seq<Constituent>, acceptPFCand: bool, kept: seq<ParticleInfo>) {
    |idx| == |kept| &&
    (forall k :: 0 <= k < |idx| ==>
       idx[k] < |cs| && Keeps(cs[idx[k]], acceptPFCand) && kept[k] == cs[idx[k]].info) &&
    (forall k, l :: 0 <= k < l < |idx| ==> idx[k] < idx[l]) &&
    (forall j :: 0 <= j < |cs| && Keeps(cs[j], acceptPFCand) ==> j in idx)
  }

  /** A constituent is kept iff it is recognised, non-null and valid, and the kept list
      is a subsequence of the constituents, in their original order. */
  lemma {:induction false} KeptIsSubsequence(cs: seq<Constituent>, acceptPFCand: bool)
    ensures Selects(KeptIndices(cs, acceptPFCand), cs, acceptPFCand, Kept(cs, acceptPFCand))
    decreases |cs|
  {
    if cs != [] {
      var init := cs[..|cs| - 1];
      KeptIsSubsequence(init, acceptPFCand);
      var idx0 := KeptIndices(init, acceptPFCand);
      forall k | 0 <= k < |idx0| ensures idx0[k] < |init| {}
      forall j | 0 <= j < |cs| && Keeps(cs[j], acceptPFCand)
        ensures j in KeptIndices(cs, acceptPFCand)
      {
        if j < |init| { assert cs[j] == init[j]; }
      }
    }
  }

  /** particles.back() is read after every non-null constituent, so a constituent of an
      unrecognised class must not arrive while the list is still empty. */
  predicate BackDefined(cs: seq<Constituent>, acceptPFCand: bool) {
    forall j :: 0 <= j < |cs| && !cs[j].Null? && !Emplaced(cs[j], acceptPFCand) ==>
      Kept(cs[..j], acceptPFCand) != []
  }

  /** The collection loop: emplace the recognised constituents, re-examine the last
      element of the list and pop it if it fails the validity test. For an unrecognised
      constituent the last element was already kept, so the re-examination never pops. */
  method CollectParticles(cs: seq<Constituent>, acceptPFCand: bool) returns (particles: seq<ParticleInfo>)
    requires BackDefined(cs, acceptPFCand)
    ensures particles == Kept(cs, acceptPFCand)
    ensures forall k :: 0 <= k < |particles| ==> IsValid(particles[k])
  {
    particles := [];
    for j := 0 to |cs|
      invariant particles == Kept(cs[..j], acceptPFCand)
      invariant forall k :: 0 <= k < |particles| ==> IsValid(particles[k])
    {
      assert cs[..j + 1][..j] == cs[..j];
      var c := cs[j];
      if c.Null? {
        continue;
      }
      if c.GenParticleRef? {
        particles := particles + [c.info];
      } else if acceptPFCand && c.PFCandidateRef? {
        particles := particles + [c.info];
      }
      var p := particles[|particles| - 1];
      if Abs(p.pz) > 10000.0 || Abs(p.eta) > 5.0 || p.pt <= 0.0 {
        particles := particles[..|particles| - 1];
      }
    }
    assert cs[..|cs|] == cs;
  }

  // ---------------------------------------------------------------------------
  // Sorting by descending pt

  predicate DescendingPt(s: seq<ParticleInfo>) {
    forall k, l :: 0 <= k < l < |s| ==> s[k].pt >= s[l].pt
  }

  /** `ps` is what the sort can produce from the kept list: ordered by descending pt and
      a permutation of it. The order among particles of equal pt is left open, as
      std::sort leaves it. */
  ghost predicate SortedKept(ps: seq<ParticleInfo>, cs: seq<Constituent>, acceptPFCand: bool) {
    DescendingPt(ps) && multiset(ps) == multiset(Kept(cs, acceptPFCand))
  }

  /** The sort, in place: insertion sort comparing with a.pt > b.pt. */
  method SortByPt(a: array<ParticleInfo>)
    modifies a
    ensures DescendingPt(a[..])
    ensures multiset(a[..]) == multiset(old(a[..]))
  {
    if a.Length == 0 {
      return;
    }
    var i := 1;
    while i < a.Length
      invariant 1 <= i <= a.Length
      invariant DescendingPt(a[..i])
      invariant multiset(a[..]) == multiset(old(a[..]))
    {
      InsertLast(a, i);
      i := i + 1;
    }
    assert a[..a.Length] == a[..];
  }

  /** Moves a[i] left past every element of smaller pt in the sorted prefix a[..i]. */
  method InsertLast(a: array<ParticleInfo>, i: nat)
    requires 1 <= i < a.Length
    requires DescendingPt(a[..i])
    modifies a
    ensures DescendingPt(a[..i + 1])
    ensures multiset(a[..]) == multiset(old(a[..]))
  {
    var j := i;
    while j > 0 && a[j].pt > a[j - 1].pt
      invariant 0 <= j <= i
      invariant forall k, l :: 0 <= k < l <= i && k != j && l != j ==> a[k].pt >= a[l].pt
      invariant forall l :: j < l <= i ==> a[j].pt >= a[l].pt
      invariant forall k, l :: 0 <= k < j && j < l <= i ==> a[k].pt >= a[l].pt
      invariant multiset(a[..]) == multiset(old(a[..]))
    {
      SwapAdjacent(a, j);
      j := j - 1;
    }
  }

  method SwapAdjacent(a: array<ParticleInfo>, j: nat)
    requires 0 < j < a.Length
    modifies a
    ensures a[j - 1] == old(a[j]) && a[j] == old(a[j - 1])
    ensures forall k :: 0 <= k < a.Length && k != j - 1 && k != j ==> a[k] == old(a[k])
    ensures multiset(a[..]) == multiset(old(a[..]))
  {
    a[j - 1], a[j] := a[j], a[j - 1];
  }
}
