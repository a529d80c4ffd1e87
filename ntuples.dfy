/**
 * The per-jet pipeline of makeNtuples: the loop over the events, the loop over the jets
 * of an event with its cuts, the filling of the output record for every jet that passes
 * them, and the exclusive assignment of generator jets within an event.
 */
module Ntuples {
  import opened Records
  import opened Features
  import opened Constituents
  import opened GenJetAssign
  import opened Output

  const MinJetPt: real := 120.0
  const MaxJetAbsEta: real := 2.5
  const InvalidLabel: string := "Invalid"

  /** The kinematic cut: a jet is skipped when pt < 120 or |eta| > 2.5. */
  predicate PassesCuts(jet: Jet): (r: bool)
    ensures r <==> jet.pt >= MinJetPt && -MaxJetAbsEta <= jet.eta <= MaxJetAbsEta
  {
    !(jet.pt < MinJetPt || Abs(jet.eta) > MaxJetAbsEta)
  }

  /** A jet is written out iff it passes the cuts and its truth label is not "Invalid". */
  predicate Emits(jet: Jet, m: MatchResult): (r: bool)
    ensures r <==> jet.pt >= MinJetPt && -MaxJetAbsEta <= jet.eta <= MaxJetAbsEta &&
                   m.labelName != InvalidLabel
  {
    PassesCuts(jet) && m.labelName != InvalidLabel
  }

  // ---------------------------------------------------------------------------
  // The jet loop of one event, as a specification

  /** A written record: the jet it describes and the generator jet assigned to it (-1: none). */
  datatype Emission = Emission(jetIndex: nat, genJetIndex: int)

  /** genjet_used_inds and the written records after the first n jets of the event. */
  datatype Walk = Walk(used: seq<int>, emitted: seq<Emission>)

  /** At most one record per jet, and at most one generator jet used per record. */
  function WalkJets(ev: Event, jetR: Radius, n: nat): (r: Walk)
    requires WellFormed(ev) && n <= |ev.jets|
    ensures |r.used| <= |r.emitted| <= n
    decreases n
  {
    if n == 0 then Walk([], [])
    else
      var w := WalkJets(ev, jetR, n - 1);
      var i := n - 1;
      if Emits(ev.jets[i], ev.truth[i]) then
        var g := Assigned(ev.dr[i], w.used, jetR);
        Walk(Use(w.used, g), w.emitted + [Emission(i, g)])
      else w
  }

  function EventWalk(ev: Event, jetR: Radius): Walk
    requires WellFormed(ev)
  {
    WalkJets(ev, jetR, |ev.jets|)
  }

  /** The generator jets actually assigned, in record order. */
  function Matched(es: seq<Emission>): seq<int>
    decreases |es|
  {
    if es == [] then []
    else
      var g := es[|es| - 1].genJetIndex;
      Matched(es[..|es| - 1]) + (if g == -1 then [] else [g])
  }

  /** genjet_used_inds holds exactly the assigned generator jets, in order, without
      duplicates and within the generator-jet range; every assignment is -1 or in it. */
  lemma {:induction false} WalkUsedInvariant(ev: Event, jetR: Radius, n: nat)
    requires WellFormed(ev) && n <= |ev.jets|
    ensures var w := WalkJets(ev, jetR, n);
      w.used == Matched(w.emitted) &&
      NoDuplicates(w.used) &&
      (forall k :: 0 <= k < |w.used| ==> 0 <= w.used[k] < |ev.genJets|) &&
      (forall k :: 0 <= k < |w.emitted| ==>
         w.emitted[k].genJetIndex == -1 || w.emitted[k].genJetIndex in w.used)
    decreases n
  {
    if n > 0 {
      var w := WalkJets(ev, jetR, n - 1);
      WalkUsedInvariant(ev, jetR, n - 1);
      var i := n - 1;
      if Emits(ev.jets[i], ev.truth[i]) {
        UsePreservesExclusive(ev.dr[i], w.used, jetR);
        var es := w.emitted + [Emission(i, Assigned(ev.dr[i], w.used, jetR))];
        assert es[..|es| - 1] == w.emitted;
      }
    }
  }

  /** The records are written in jet order, one for every jet that passes the cuts and
      has a valid label, and for no other jet. */
  lemma {:induction false} WalkEmitsExactly(ev: Event, jetR: Radius, n: nat)
    requires WellFormed(ev) && n <= |ev.jets|
    ensures var es := WalkJets(ev, jetR, n).emitted;
      (forall k :: 0 <= k < |es| ==> es[k].jetIndex < n && Emits(ev.jets[es[k].jetIndex], ev.truth[es[k].jetIndex])) &&
      (forall k, l :: 0 <= k < l < |es| ==> es[k].jetIndex < es[l].jetIndex) &&
      (forall i :: 0 <= i < n && Emits(ev.jets[i], ev.truth[i]) ==> exists k :: 0 <= k < |es| && es[k].jetIndex == i)
    decreases n
  {
    if n > 0 {
      WalkEmitsExactly(ev, jetR, n - 1);
      var es0 := WalkJets(ev, jetR, n - 1).emitted;
      var es := WalkJets(ev, jetR, n).emitted;
      if Emits(ev.jets[n - 1], ev.truth[n - 1]) {
        assert es[|es| - 1].jetIndex == n - 1;
        forall i | 0 <= i < n && Emits(ev.jets[i], ev.truth[i])
          ensures exists k :: 0 <= k < |es| && es[k].jetIndex == i
        {
          if i < n - 1 {
            var k :| 0 <= k < |es0| && es0[k].jetIndex == i;
            assert es[k] == es0[k];
          }
        }
      }
    }
  }

  /** No two records of one event are assigned the same generator jet. */
  lemma {:induction false} AssignmentInjective(ev: Event, jetR: Radius, n: nat)
    requires WellFormed(ev) && n <= |ev.jets|
    ensures var es := WalkJets(ev, jetR, n).emitted;
      forall k, l :: 0 <= k < l < |es| && es[k].genJetIndex != -1 ==> es[k].genJetIndex != es[l].genJetIndex
    decreases n
  {
    if n > 0 {
      AssignmentInjective(ev, jetR, n - 1);
      var w := WalkJets(ev, jetR, n - 1);
      var i := n - 1;
      if Emits(ev.jets[i], ev.truth[i]) {
        WalkUsedInvariant(ev, jetR, n - 1);
        AssignedIsExclusiveNearest(ev.dr[i], w.used, jetR);
        var es := w.emitted + [Emission(i, Assigned(ev.dr[i], w.used, jetR))];
        assert WalkJets(ev, jetR, n).emitted == es;
        forall k, l | 0 <= k < l < |es| && es[k].genJetIndex != -1
          ensures es[k].genJetIndex != es[l].genJetIndex
        {
          assert es[k] == w.emitted[k];
          if l == |es| - 1 {
            assert es[k].genJetIndex in w.used;
          } else {
            assert es[l] == w.emitted[l];
          }
        }
      }
    }
  }

  /** The records written so far are a prefix of those written for the whole event. */
  lemma {:induction false} WalkPrefix(ev: Event, jetR: Radius, n: nat, m: nat)
    requires WellFormed(ev) && n <= m <= |ev.jets|
    ensures WalkJets(ev, jetR, n).emitted <= WalkJets(ev, jetR, m).emitted
    decreases m
  {
    if n < m {
      WalkPrefix(ev, jetR, n, m - 1);
    }
  }

  // ---------------------------------------------------------------------------
  // Rejected jets leave no trace

  /** The event with jet i taken out (with its matcher answer and its distances). */
  function RemoveJet(ev: Event, i: nat): (r: Event)
    requires WellFormed(ev) && i < |ev.jets|
    ensures WellFormed(r) && |r.jets| == |ev.jets| - 1
  {
    Event(ev.pv, ev.jets[..i] + ev.jets[i + 1..], ev.genJets,
          ev.truth[..i] + ev.truth[i + 1..], ev.dr[..i] + ev.dr[i + 1..])
  }

  /** The emissions with every jet index above i moved down by one. */
  function Renumbered(es: seq<Emission>, i: nat): seq<Emission> {
    seq(|es|, k requires 0 <= k < |es| =>
      if es[k].jetIndex > i then Emission(es[k].jetIndex - 1, es[k].genJetIndex) else es[k])
  }

  lemma {:induction false} WalkBeforeRemoved(ev: Event, i: nat, jetR: Radius, n: nat)
    requires WellFormed(ev) && i < |ev.jets| && n <= i
    ensures WalkJets(RemoveJet(ev, i), jetR, n) == WalkJets(ev, jetR, n)
    decreases n
  {
    if n > 0 {
      WalkBeforeRemoved(ev, i, jetR, n - 1);
    }
  }

  lemma {:induction false} WalkAfterRemoved(ev: Event, i: nat, jetR: Radius, n: nat)
    requires WellFormed(ev) && i < |ev.jets| && i < n <= |ev.jets|
    requires !Emits(ev.jets[i], ev.truth[i])
    ensures var w, w' := WalkJets(ev, jetR, n), WalkJets(RemoveJet(ev, i), jetR, n - 1);
      w'.used == w.used && w'.emitted == Renumbered(w.emitted, i)
    decreases n
  {
    var ev' := RemoveJet(ev, i);
    if n == i + 1 {
      WalkBeforeRemoved(ev, i, jetR, i);
      WalkEmitsExactly(ev, jetR, i);
      var es := WalkJets(ev, jetR, n).emitted;
      assert Renumbered(es, i) == es;
    } else {
      WalkAfterRemoved(ev, i, jetR, n - 1);
      var w, w' := WalkJets(ev, jetR, n - 1), WalkJets(ev', jetR, n - 2);
      assert ev'.jets[n - 2] == ev.jets[n - 1] && ev'.truth[n - 2] == ev.truth[n - 1];
      assert ev'.dr[n - 2] == ev.dr[n - 1];
      if Emits(ev.jets[n - 1], ev.truth[n - 1]) {
        var e := Emission(n - 1, Assigned(ev.dr[n - 1], w.used, jetR));
        assert Renumbered(w.emitted + [e], i) == Renumbered(w.emitted, i) + [Emission(n - 2, e.genJetIndex)];
      }
    }
  }

  /** Taking out a jet that fails the cuts or is labelled "Invalid" changes neither
      genjet_used_inds nor any record's jet (up to renumbering) or generator jet. */
  lemma RejectedJetLeavesNoTrace(ev: Event, i: nat, jetR: Radius)
    requires WellFormed(ev) && i < |ev.jets|
    requires !Emits(ev.jets[i], ev.truth[i])
    ensures EventWalk(RemoveJet(ev, i), jetR).used == EventWalk(ev, jetR).used
    ensures EventWalk(RemoveJet(ev, i), jetR).emitted == Renumbered(EventWalk(ev, jetR).emitted, i)
  {
    WalkAfterRemoved(ev, i, jetR, |ev.jets|);
  }

  /** Two selected jets both within radius of one generator jet and of no other: only
      the first jet gets it, the second gets no generator jet. */
  lemma SharedGenJetGoesToFirst(j1: Jet, j2: Jet, m1: MatchResult, m2: MatchResult, gen: Jet, d1: real, d2: real, jetR: Radius)
    requires Emits(j1, m1) && Emits(j2, m2)
    requires d1 < jetR && d2 < jetR
    ensures var ev := Event(None, [j1, j2], [gen], [m1, m2], [[d1], [d2]]);
      EventWalk(ev, jetR) == Walk([0], [Emission(0, 0), Emission(1, -1)])
  {
    var ev := Event(None, [j1, j2], [gen], [m1, m2], [[d1], [d2]]);
    assert [d1][..0] == [] && [d2][..0] == [];
    assert Nearest([d1], []) == (d1, 0);
    assert Assigned(ev.dr[0], [], jetR) == 0;
    assert WalkJets(ev, jetR, 1) == Walk([0], [Emission(0, 0)]);
    assert Nearest([d2], [0]) == (NoMatchDistance, -1);
    assert Assigned(ev.dr[1], [0], jetR) == -1;
  }

  /** A jet at eta 2.6 is rejected before its label is looked at: no record, and the used
      list is what it was. */
  lemma ForwardJetRejected(ev: Event, i: nat, jetR: Radius)
    requires WellFormed(ev) && i < |ev.jets| && ev.jets[i].eta == 2.6
    ensures WalkJets(ev, jetR, i + 1) == WalkJets(ev, jetR, i)
  {
  }

  // ---------------------------------------------------------------------------
  // The record of one jet, as a specification

  function PartRows(ps: seq<ParticleInfo>, jet: Jet, pv: Option<Vertex>, deltaPhi: (real, real) -> real): seq<PartRow> {
    seq(|ps|, k requires 0 <= k < |ps| => PartRowOf(ps[k], jet, pv, deltaPhi))
  }

  function GenPartRows(ps: seq<ParticleInfo>, jet: Jet, pv: Option<Vertex>, deltaPhi: (real, real) -> real): seq<GenPartRow> {
    seq(|ps|, k requires 0 <= k < |ps| => GenPartRowOf(ps[k], jet, pv, deltaPhi))
  }

  /** The record written for `jet`, given its sorted kept constituents `ps` and, when a
      generator jet was assigned, that jet and its sorted kept constituents `gps`. */
  function RecordOf(jet: Jet, m: MatchResult, pv: Option<Vertex>, deltaPhi: (real, real) -> real,
                    ps: seq<ParticleInfo>, genJet: Option<Jet>, gps: seq<ParticleInfo>): Record
  {
    Record(
      PushParts(EmptyPart, PartRows(ps, jet, pv, deltaPhi)),
      JetScalars(jet.pt, jet.eta, jet.phi, jet.energy, jet.sdmass, |ps|,
                 jet.tau1, jet.tau2, jet.tau3, jet.tau4, m.labelIndex),
      if genJet.Some? then PushGenParts(EmptyGenPart, GenPartRows(gps, jet, pv, deltaPhi)) else EmptyGenPart,
      if genJet.Some? then
        GenJetScalars(genJet.value.pt, genJet.value.eta, genJet.value.phi, genJet.value.energy,
                      genJet.value.sdmass, |gps|)
      else DefaultGenJet,
      PushAuxRows(EmptyAux, AuxRows(m)))
  }

  ghost predicate GenSortedKept(gps: seq<ParticleInfo>, genJet: Option<Jet>) {
    if genJet.Some? then SortedKept(gps, genJet.value.constituents, false) else gps == []
  }

  /** `rec` is a record the program can write for `jet`: built from some order of its kept
      constituents by descending pt (std::sort fixes no order among equal pt), and likewise
      for the assigned generator jet. */
  ghost predicate RecordFits(rec: Record, jet: Jet, m: MatchResult, pv: Option<Vertex>,
                             deltaPhi: (real, real) -> real, genJet: Option<Jet>) {
    exists ps, gps :: SortedKept(ps, jet.constituents, true) && GenSortedKept(gps, genJet) &&
      rec == RecordOf(jet, m, pv, deltaPhi, ps, genJet, gps)
  }

  function GenJetOf(genJets: seq<Jet>, g: int): Option<Jet> {
    if 0 <= g < |genJets| then Some(genJets[g]) else None
  }

  ghost predicate RecordFor(rec: Record, ev: Event, e: Emission, deltaPhi: (real, real) -> real)
    requires WellFormed(ev)
  {
    e.jetIndex < |ev.jets| &&
    RecordFits(rec, ev.jets[e.jetIndex], ev.truth[e.jetIndex], ev.pv, deltaPhi, GenJetOf(ev.genJets, e.genJetIndex))
  }

  /** Every record is consistent: all part_* columns have jet_nparticles entries, the
      number of kept constituents; all genpart_* columns have genjet_nparticles entries,
      the number of kept generator constituents (none, and the genjet scalars at their
      defaults, when no generator jet was assigned); the aux columns have one entry per
      truth particle; jet_label is the matcher's index; and no particle is flagged both
      charged and neutral hadron. */
  lemma RecordShape(rec: Record, jet: Jet, m: MatchResult, pv: Option<Vertex>,
                    deltaPhi: (real, real) -> real, genJet: Option<Jet>)
    requires RecordFits(rec, jet, m, pv, deltaPhi, genJet)
    ensures rec.part.Rectangular() && rec.part.Length() == rec.jet.nparticles == |Kept(jet.constituents, true)|
    ensures rec.genpart.Rectangular() && rec.genpart.Length() == rec.genjet.nparticles
    ensures genJet.Some? ==> rec.genjet.nparticles == |Kept(genJet.value.constituents, false)|
    ensures genJet.None? ==> rec.genjet == DefaultGenJet && rec.genpart == EmptyGenPart
    ensures rec.aux.Rectangular()
    ensures rec.aux.Length() == |m.resParticles| + |m.decayParticles| + |m.tauDecayParticles| + |m.qcdPartons|
    ensures rec.jet.labelIndex == m.labelIndex
    ensures forall i :: 0 <= i < rec.part.Length() ==> !(rec.part.isChargedHadron[i] && rec.part.isNeutralHadron[i])
  {
    var ps: seq<ParticleInfo>, gps: seq<ParticleInfo> :| SortedKept(ps, jet.constituents, true) && GenSortedKept(gps, genJet) &&
      rec == RecordOf(jet, m, pv, deltaPhi, ps, genJet, gps);
    assert |multiset(ps)| == |ps|;
    PushPartsRows(PartRows(ps, jet, pv, deltaPhi));
    if genJet.Some? {
      assert |multiset(gps)| == |gps|;
      PushGenPartsRows(GenPartRows(gps, jet, pv, deltaPhi));
    }
    PushAuxRowsRows(AuxRows(m));
    AuxRowsLayout(m);
    forall i | 0 <= i < rec.part.Length()
      ensures !(rec.part.isChargedHadron[i] && rec.part.isNeutralHadron[i])
    {
      assert rec.part.RowAt(i) == PartRowOf(ps[i], jet, pv, deltaPhi);
      HadronFlagsExclusive(ps[i].pid, ps[i].charge);
    }
  }

  // ---------------------------------------------------------------------------
  // The imperative pipeline

  /** The four aux loops, in list order: resonances, decay products, tau decay products,
      QCD partons. */
  method FillAux(data: EventData, m: MatchResult)
    modifies data
    ensures data.Snapshot() == old(data.Snapshot()).(aux := PushAuxRows(old(data.aux), AuxRows(m)))
  {
    var a0 := data.aux;
    FillResonances(data, m.resParticles);
    FillRole(data, m.decayParticles, ResDecayProd);
    FillRole(data, m.tauDecayParticles, TauDecayProd);
    FillRole(data, m.qcdPartons, QcdParton);
    var r0, r1, r2, r3 := ResonanceRows(m.resParticles), RoleRows(m.decayParticles, ResDecayProd),
                          RoleRows(m.tauDecayParticles, TauDecayProd), RoleRows(m.qcdPartons, QcdParton);
    PushAuxRowsAppend(a0, r0, r1);
    PushAuxRowsAppend(a0, r0 + r1, r2);
    PushAuxRowsAppend(a0, r0 + r1 + r2, r3);
  }

  /** The resonance loop: the first resonance is flagged isResX, every later one isResY. */
  method FillResonances(data: EventData, res: seq<TruthParticle>)
    modifies data
    ensures data.Snapshot() == old(data.Snapshot()).(aux := PushAuxRows(old(data.aux), ResonanceRows(res)))
  {
    var a0 := data.aux;
    var nRes := 0;
    for k := 0 to |res|
      invariant nRes == k
      invariant data.Snapshot() == old(data.Snapshot()).(aux := PushAuxRows(a0, ResonanceRows(res[..k])))
    {
      assert ResonanceRows(res[..k + 1]) == ResonanceRows(res[..k]) + [RoleRow(res[k], if k == 0 then ResX else ResY)];
      data.PushAux(AuxRowOf(res[k], nRes == 0, nRes > 0, false, false, false));
      nRes := nRes + 1;
    }
    assert res[..|res|] == res;
  }

  /** One of the other three aux loops: every particle with the same role flag. */
  method FillRole(data: EventData, ps: seq<TruthParticle>, role: Role)
    modifies data
    ensures data.Snapshot() == old(data.Snapshot()).(aux := PushAuxRows(old(data.aux), RoleRows(ps, role)))
  {
    var a0 := data.aux;
    for k := 0 to |ps|
      invariant data.Snapshot() == old(data.Snapshot()).(aux := PushAuxRows(a0, RoleRows(ps[..k], role)))
    {
      assert RoleRows(ps[..k + 1], role) == RoleRows(ps[..k], role) + [RoleRow(ps[k], role)];
      data.PushAux(RoleRow(ps[k], role));
    }
    assert ps[..|ps|] == ps;
  }

  /** The kept constituents, sorted by descending pt (std::sort on the vector). */
  method SortParticles(particles: seq<ParticleInfo>) returns (sorted: seq<ParticleInfo>)
    ensures DescendingPt(sorted)
    ensures multiset(sorted) == multiset(particles)
  {
    var a := new ParticleInfo[|particles|](k requires 0 <= k < |particles| => particles[k]);
    assert a[..] == particles;
    SortByPt(a);
    sorted := a[..];
  }

  /** The loop over the sorted constituents, one push_back per part_* branch each. */
  method FillParts(data: EventData, ps: seq<ParticleInfo>, jet: Jet, pv: Option<Vertex>, deltaPhi: (real, real) -> real)
    modifies data
    ensures data.Snapshot() == old(data.Snapshot()).(part := PushParts(old(data.part), PartRows(ps, jet, pv, deltaPhi)))
  {
    var p0 := data.part;
    for k := 0 to |ps|
      invariant data.Snapshot() == old(data.Snapshot()).(part := PushParts(p0, PartRows(ps[..k], jet, pv, deltaPhi)))
    {
      var rows := PartRows(ps[..k + 1], jet, pv, deltaPhi);
      assert rows[..k] == PartRows(ps[..k], jet, pv, deltaPhi);
      data.PushPart(PartRowOf(ps[k], jet, pv, deltaPhi));
    }
    assert ps[..|ps|] == ps;
  }

  /** The loop over the sorted generator-jet constituents. */
  method FillGenParts(data: EventData, ps: seq<ParticleInfo>, jet: Jet, pv: Option<Vertex>, deltaPhi: (real, real) -> real)
    modifies data
    ensures data.Snapshot() == old(data.Snapshot()).(genpart := PushGenParts(old(data.genpart), GenPartRows(ps, jet, pv, deltaPhi)))
  {
    var p0 := data.genpart;
    for k := 0 to |ps|
      invariant data.Snapshot() == old(data.Snapshot()).(genpart := PushGenParts(p0, GenPartRows(ps[..k], jet, pv, deltaPhi)))
    {
      var rows := GenPartRows(ps[..k + 1], jet, pv, deltaPhi);
      assert rows[..k] == GenPartRows(ps[..k], jet, pv, deltaPhi);
      data.PushGenPart(GenPartRowOf(ps[k], jet, pv, deltaPhi));
    }
    assert ps[..|ps|] == ps;
  }

  /** Whether the collection loop over generator jet g (if any) is defined. */
  predicate GenDefined(genJets: seq<Jet>, g: int) {
    g == -1 || (0 <= g < |genJets| && BackDefined(genJets[g].constituents, false))
  }

  /** Everything after the label check for one jet: label, aux, jet features, constituents,
      the generator-jet scan and, on a match, the generator-jet features and constituents.
      Returns genjet_used_inds after the jet. */
  method FillJet(data: EventData, jet: Jet, m: MatchResult, pv: Option<Vertex>, genJets: seq<Jet>,
                 dr: seq<real>, used: seq<int>, jetR: Radius, deltaPhi: (real, real) -> real)
    returns (usedAfter: seq<int>)
    requires data.Snapshot() == EmptyRecord
    requires |dr| == |genJets|
    requires BackDefined(jet.constituents, true)
    requires GenDefined(genJets, Assigned(dr, used, jetR))
    modifies data
    ensures usedAfter == Use(used, Assigned(dr, used, jetR))
    ensures RecordFits(data.Snapshot(), jet, m, pv, deltaPhi, GenJetOf(genJets, Assigned(dr, used, jetR)))
  {
    data.jet := data.jet.(labelIndex := m.labelIndex);
    FillAux(data, m);
    data.jet := data.jet.(pt := jet.pt, eta := jet.eta, phi := jet.phi, energy := jet.energy,
                          sdmass := jet.sdmass, tau1 := jet.tau1, tau2 := jet.tau2,
                          tau3 := jet.tau3, tau4 := jet.tau4);
    var particles := CollectParticles(jet.constituents, true);
    particles := SortParticles(particles);
    data.jet := data.jet.(nparticles := |particles|);
    FillParts(data, particles, jet, pv, deltaPhi);

    var minDr, minIndex := NearestUnused(dr, used);
    ghost var g := Assigned(dr, used, jetR);
    var genparticles: seq<ParticleInfo> := [];
    if minDr < jetR {
      usedAfter := used + [minIndex];
      var genjet := genJets[minIndex];
      data.genjet := data.genjet.(pt := genjet.pt, eta := genjet.eta, phi := genjet.phi,
                                  energy := genjet.energy, sdmass := genjet.sdmass);
      genparticles := CollectParticles(genjet.constituents, false);
      genparticles := SortParticles(genparticles);
      data.genjet := data.genjet.(nparticles := |genparticles|);
      FillGenParts(data, genparticles, jet, pv, deltaPhi);
    } else {
      usedAfter := used;
    }
    assert data.Snapshot() == RecordOf(jet, m, pv, deltaPhi, particles, GenJetOf(genJets, g), genparticles);
  }

  /** Whether every collection loop the event reaches is defined: those of the jets that
      are written out and those of the generator jets assigned to them. */
  ghost predicate EventDefined(ev: Event, jetR: Radius)
    requires WellFormed(ev)
  {
    (forall i :: 0 <= i < |ev.jets| && Emits(ev.jets[i], ev.truth[i]) ==> BackDefined(ev.jets[i].constituents, true)) &&
    (forall k :: 0 <= k < |EventWalk(ev, jetR).emitted| ==> GenDefined(ev.genJets, EventWalk(ev, jetR).emitted[k].genJetIndex))
  }

  /** The jet loop of one event: genjet_used_inds starts empty, every jet that passes the
      cuts resets the container, and every jet with a valid label is written out. */
  method ProcessEvent(data: EventData, ev: Event, jetR: Radius, deltaPhi: (real, real) -> real)
    returns (rows: seq<Record>, used: seq<int>)
    requires WellFormed(ev) && EventDefined(ev, jetR)
    modifies data
    ensures used == EventWalk(ev, jetR).used
    ensures |rows| == |EventWalk(ev, jetR).emitted|
    ensures forall k :: 0 <= k < |rows| ==> RecordFor(rows[k], ev, EventWalk(ev, jetR).emitted[k], deltaPhi)
  {
    rows, used := [], [];
    for i := 0 to |ev.jets|
      invariant used == WalkJets(ev, jetR, i).used
      invariant |rows| == |WalkJets(ev, jetR, i).emitted|
      invariant forall k :: 0 <= k < |rows| ==> RecordFor(rows[k], ev, WalkJets(ev, jetR, i).emitted[k], deltaPhi)
    {
      var jet := ev.jets[i];
      if jet.pt < MinJetPt || Abs(jet.eta) > MaxJetAbsEta {
        continue;
      }
      data.Reset();
      var m := ev.truth[i];
      if m.labelName == InvalidLabel {
        continue;
      }
      ghost var g := Assigned(ev.dr[i], used, jetR);
      WalkPrefix(ev, jetR, i + 1, |ev.jets|);
      assert WalkJets(ev, jetR, i + 1).emitted[|rows|] == Emission(i, g);
      assert EventWalk(ev, jetR).emitted[|rows|] == Emission(i, g);
      assert GenDefined(ev.genJets, EventWalk(ev, jetR).emitted[|rows|].genJetIndex);
      used := FillJet(data, jet, m, ev.pv, ev.genJets, ev.dr[i], used, jetR, deltaPhi);
      rows := rows + [data.Snapshot()];
    }
  }

  /** Concatenation of the per-event record lists. */
  function Concat(chunks: seq<seq<Record>>): seq<Record>
    decreases |chunks|
  {
    if chunks == [] then [] else Concat(chunks[..|chunks| - 1]) + chunks[|chunks| - 1]
  }

  /** The records of one event are those its jet loop writes. */
  ghost predicate EventRows(rows: seq<Record>, ev: Event, jetR: Radius, deltaPhi: (real, real) -> real)
    requires WellFormed(ev)
  {
    |rows| == |EventWalk(ev, jetR).emitted| &&
    forall k :: 0 <= k < |rows| ==> RecordFor(rows[k], ev, EventWalk(ev, jetR).emitted[k], deltaPhi)
  }

  /** The event loop: the output container is allocated once, jetR comes from the jet
      branch name, and the rows are the events' rows in event order. */
  method MakeNtuples(events: seq<Event>, jetBranch: string, deltaPhi: (real, real) -> real)
    returns (rows: seq<Record>, ghost perEvent: seq<seq<Record>>)
    requires forall e :: 0 <= e < |events| ==> WellFormed(events[e]) && EventDefined(events[e], JetRadius(jetBranch))
    ensures |perEvent| == |events| && rows == Concat(perEvent)
    ensures forall e :: 0 <= e < |events| ==> EventRows(perEvent[e], events[e], JetRadius(jetBranch), deltaPhi)
  {
    var jetR := JetRadius(jetBranch);
    var data := new EventData();
    rows, perEvent := [], [];
    for entry := 0 to |events|
      invariant |perEvent| == entry && rows == Concat(perEvent)
      invariant forall e :: 0 <= e < entry ==> EventRows(perEvent[e], events[e], jetR, deltaPhi)
    {
      var eventRows, _ := ProcessEvent(data, events[entry], jetR, deltaPhi);
      assert (perEvent + [eventRows])[..entry] == perEvent;
      rows := rows + eventRows;
      perEvent := perEvent + [eventRows];
    }
  }
}
