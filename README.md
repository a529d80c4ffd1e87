# makeNtuples jet pipeline, modelled in Dafny

This project models the per-jet pipeline of `makeNtuples` (Delphes analyzer of the JetClass-II
generation). makeNtuples turns simulated events into one flat output row per selected jet. For
every event it loops over the jets of the chosen jet branch. A jet is skipped when pt < 120 or
|eta| > 2.5, or when the truth matcher labels it "Invalid". For every other jet it does the
following, then fills the tree:

- writes the matcher's label index and the matcher's four particle lists as auxiliary columns;
- collects, filters and sorts the jet's constituents and writes their features;
- assigns the nearest generator jet not yet used in this event, strictly within the radius
  jetR (1.5 for an "AK15" branch, 0.8 otherwise);
- on a match, writes that generator jet and its collected constituents.

Modules, one per part of the pipeline:

- `Records` (records.dfy): the event data that makeNtuples reads (particles, constituents,
  jets, vertex, matcher result, event).
- `Features` (features.dfy): the constituent validity test, the five particle-type flags,
  the eta offset, the vertex shifts and the x/y snap.
- `Constituents` (constituents.dfy): the constituent collection loop (emplace, re-examine
  `back()`, pop), and the in-place sort by descending pt on an array.
- `GenJetAssign` (genjet_assign.dfy): the strict-< argmin scan over unused generator jets,
  the radius test, the used-list update, and the choice of jetR from the branch name.
- `Output` (event_data.dfy): the output container `EventData`. It is a class whose branches
  are typed fields, grouped as parallel columns per collection (part_*, genpart_*,
  aux_genpart_*) plus jet and genjet scalars. `reset()` empties it.
- `Ntuples` (ntuples.dfy): the aux loops, the per-jet filling, the jet loop of an event and
  the event loop.

Each loop is a method proved against a specification function. The properties are proved
about those functions:

- every part_* column has jet_nparticles entries, equal to the number of kept constituents;
- likewise every genpart_* column has genjet_nparticles entries;
- the kept list is exactly the subsequence of valid, recognised constituents;
- the sorted list is ordered by descending pt and is a permutation of the kept list;
- the generator-jet assignment is the first nearest unused jet within jetR, and no generator
  jet is assigned twice in an event;
- a rejected jet changes nothing;
- every aux entry carries exactly one role flag.

Inputs that come from code outside this model are parameters:

- the truth matcher's answer per jet (`MatchResult`);
- deltaR between every jet and every generator jet (`Event.dr`);
- deltaPhi (a function argument);
- the jets' energy and soft-drop mass (fields of `Jet`).

Two details of the code that a reader might not expect:

- The eta offset is negated whenever the jet's eta is not strictly positive. So a jet at
  eta = 0 also gets the flip, not only a jet with negative eta (`Features.DEtaMirror`).
- x and y of a generator particle are snapped to 0 based on the vertex-shifted |z|, not on
  their own values.

## Model

| member | source | states |
|---|---|---|
| Features.ValidBounds | delphes_analyzers/makeNtuples.C:205 | a particle passes the validity test iff -10000 <= pz <= 10000, -5 <= eta <= 5 and pt > 0 |
| Features.FlagsPartition | delphes_analyzers/makeNtuples.C:229-233 | every particle gets one or two of the five type flags; exactly one iff leptons are charged and the photon pid is neutral |
| Features.HadronFlagsExclusive | delphes_analyzers/makeNtuples.C:232-233 | isChargedHadron and isNeutralHadron are never both set |
| Features.DEtaMagnitude | delphes_analyzers/makeNtuples.C:222 | the eta offset has the magnitude of eta - jet eta |
| Features.DEtaMirror | delphes_analyzers/makeNtuples.C:222 | mirroring particle and jet through eta = 0 keeps the offset, except for a jet at eta exactly 0 |
| Features.DzValCases | delphes_analyzers/makeNtuples.C:226 | dz = 0 stays 0, no vertex leaves dz unchanged, otherwise dz is shifted by the vertex z |
| Features.ShiftZ | delphes_analyzers/makeNtuples.C:294 | genpart_z is the production z relative to the primary vertex when there is one (adding the vertex z back gives the raw z), the raw z otherwise |
| Features.ShiftT | delphes_analyzers/makeNtuples.C:295 | genpart_t is the production time relative to the primary vertex when there is one (adding the vertex t back gives the raw t), the raw t otherwise |
| Features.ShiftsPreserveSeparation | delphes_analyzers/makeNtuples.C:294-295 | the vertex shifts are translations: two particles' separation in z and in t is unchanged |
| Features.SnapTogether | delphes_analyzers/makeNtuples.C:294-298 | x and y are either both 0 or both raw; both 0 when the shifted |z| < 1e-10, raw when it is >= 1e-10; 0 when z equals the vertex z |
| Constituents.KeptIsSubsequence | delphes_analyzers/makeNtuples.C:192-208 | the kept list picks, in increasing position, exactly the non-null, recognised, valid constituents |
| Constituents.Kept | delphes_analyzers/makeNtuples.C:192-208 | the collected list (non-null, recognised, valid constituents in order) is no longer than the constituent list and holds only particles that pass the validity test |
| Constituents.CollectParticles | delphes_analyzers/makeNtuples.C:191-208 | the emplace/back/pop loop yields the kept list, all valid; for an unrecognised object the re-examined back() is never popped |
| Constituents.SortByPt | delphes_analyzers/makeNtuples.C:211 | the array ends ordered by descending pt and is a permutation of its old contents |
| GenJetAssign.ContainsIffOccurs | delphes_analyzers/makeNtuples.C:108 | the substring test holds iff the pattern occurs at some position |
| GenJetAssign.JetRadius | delphes_analyzers/makeNtuples.C:108 | jetR chosen from the branch name is one of the two radii 1.5 and 0.8 |
| GenJetAssign.JetRadiusChoice | delphes_analyzers/makeNtuples.C:108 | jetR is 1.5 iff the branch name contains "AK15", 0.8 otherwise |
| GenJetAssign.DefaultRadii | delphes_analyzers/makeNtuples.C:19 | the default branch JetPUPPIAK8 gets 0.8, JetPUPPIAK15 gets 1.5 |
| GenJetAssign.Nearest | delphes_analyzers/makeNtuples.C:237-248 | (min_dr, min_dr_index) after the scan: either the sentinel (999, -1), or an unused generator jet in range whose distance is min_dr and below 999 |
| GenJetAssign.NearestIsFirstNearest | delphes_analyzers/makeNtuples.C:237-248 | the scan yields the first unused generator jet of smallest distance below 999, or (999, -1) |
| GenJetAssign.FirstNearestUnique | delphes_analyzers/makeNtuples.C:237-248 | that characterisation determines the scan's result uniquely |
| GenJetAssign.NearestUnused | delphes_analyzers/makeNtuples.C:237-248 | the argmin loop returns the first nearest unused generator jet (or the sentinel) |
| GenJetAssign.Assigned | delphes_analyzers/makeNtuples.C:243-251 | the assigned generator jet is -1, or an unused one in range whose distance is strictly below jetR |
| GenJetAssign.AssignedIsExclusiveNearest | delphes_analyzers/makeNtuples.C:237-251 | a match is unused, strictly within jetR, nearest and first among equals; no match iff every unused generator jet is at jetR or farther |
| GenJetAssign.UsePreservesExclusive | delphes_analyzers/makeNtuples.C:249-251 | appending the match keeps the used list duplicate-free and within range |
| Output.PartRowOf | delphes_analyzers/makeNtuples.C:218-233 | one part_* row: px, py, pz, energy, d0val, d0err, dzerr and charge as they are; deta of magnitude |eta - jet eta|; dphi from deltaPhi; dzval unchanged for dz = 0 or no vertex, otherwise dz less the vertex z; at least one type flag, never both hadron flags, a lepton never a charged hadron |
| Output.GenPartRowOf | delphes_analyzers/makeNtuples.C:288-299 | one genpart_* row: px, py, pz, energy and pid as they are; jet_deta of magnitude |eta - jet eta| to the reconstructed jet; jet_dphi from deltaPhi; z and t relative to the primary vertex if any; x and y both 0 when the shifted |z| < 1e-10, raw otherwise |
| Output.PartColumnsPushRow | delphes_analyzers/makeNtuples.C:218-233 | one push on every part_* column keeps them equal in length and appends exactly the row |
| Output.PushPartsRows | delphes_analyzers/makeNtuples.C:216-234 | pushing rows onto empty part_* columns gives equal-length columns whose i-th row is the i-th row pushed |
| Output.GenPartColumnsPushRow | delphes_analyzers/makeNtuples.C:288-299 | one push on every genpart_* column keeps them equal in length and appends exactly the row |
| Output.PushGenPartsRows | delphes_analyzers/makeNtuples.C:286-300 | pushing rows onto empty genpart_* columns gives equal-length columns whose i-th row is the i-th row pushed |
| Output.AuxColumnsPushRow | delphes_analyzers/makeNtuples.C:151-162 | one fillAuxVars call keeps the aux columns equal in length and appends exactly the row |
| Output.PushAuxRowsRows | delphes_analyzers/makeNtuples.C:163-176 | pushing rows onto empty aux columns gives equal-length columns whose i-th row is the i-th row pushed |
| Output.PushAuxRowsAppend | delphes_analyzers/makeNtuples.C:163-176 | running the aux loops one after the other pushes the concatenation of their rows |
| Output.AuxRowsLayout | delphes_analyzers/makeNtuples.C:151-176 | aux rows number res+decay+tauDecay+qcd, in that order, each with its particle and exactly one role flag; isResX only on the first resonance |
| Output.EventData.constructor | delphes_analyzers/makeNtuples.C:87 | the container starts empty |
| Output.EventData.Reset | delphes_analyzers/makeNtuples.C:131 | reset empties every vector branch and sets every scalar to its default |
| Output.EventData.PushPart | delphes_analyzers/makeNtuples.C:218-233 | one push on every part_* branch, nothing else changes |
| Output.EventData.PushGenPart | delphes_analyzers/makeNtuples.C:288-299 | one push on every genpart_* branch, nothing else changes |
| Output.EventData.PushAux | delphes_analyzers/makeNtuples.C:152-161 | one push on every aux_genpart_* branch, nothing else changes |
| Ntuples.PassesCuts | delphes_analyzers/makeNtuples.C:128 | a jet is kept by the kinematic cut iff pt >= 120 and -2.5 <= eta <= 2.5 |
| Ntuples.Emits | delphes_analyzers/makeNtuples.C:128-138 | a record is written for a jet iff it passes the cut and its label is not "Invalid" |
| Ntuples.WalkJets | delphes_analyzers/makeNtuples.C:124-138 | the jet loop over the first n jets writes at most n records and uses at most one generator jet per record |
| Ntuples.WalkUsedInvariant | delphes_analyzers/makeNtuples.C:237-251 | the used list starts empty per event and holds exactly the assigned generator jets, in order, duplicate-free and in range |
| Ntuples.WalkEmitsExactly | delphes_analyzers/makeNtuples.C:125-138 | records are written in jet order for exactly the jets that pass the cuts and have a label other than "Invalid" |
| Ntuples.AssignmentInjective | delphes_analyzers/makeNtuples.C:243-251 | no two records of one event get the same generator jet |
| Ntuples.WalkPrefix | delphes_analyzers/makeNtuples.C:125-138 | the records written after n jets are a prefix of the event's records |
| Ntuples.WalkBeforeRemoved | delphes_analyzers/makeNtuples.C:125-138 | removing a later jet does not change the walk over the earlier jets |
| Ntuples.WalkAfterRemoved | delphes_analyzers/makeNtuples.C:128-138 | after a rejected jet, removing it leaves the used list and the assignments unchanged, with jet positions renumbered |
| Ntuples.RejectedJetLeavesNoTrace | delphes_analyzers/makeNtuples.C:128-138 | removing a jet that fails the cuts or is "Invalid" changes neither the used list nor any record's jet or generator jet |
| Ntuples.SharedGenJetGoesToFirst | delphes_analyzers/makeNtuples.C:243-251 | two selected jets near one generator jet: only the first gets it |
| Ntuples.ForwardJetRejected | delphes_analyzers/makeNtuples.C:128-129 | a jet at eta 2.6 adds no record and leaves the used list as it was |
| Ntuples.RecordShape | delphes_analyzers/makeNtuples.C:216-300 | in every record, part_* columns all have jet_nparticles = number of kept constituents entries; genpart_* all have genjet_nparticles entries (0 and defaults without a match); aux has one entry per truth particle; jet_label is the matcher's index; no particle is both charged and neutral hadron |
| Ntuples.FillAux | delphes_analyzers/makeNtuples.C:163-176 | the four aux loops push the aux rows of the matcher result, nothing else changes |
| Ntuples.FillResonances | delphes_analyzers/makeNtuples.C:163-167 | the resonance loop pushes isResX for the first resonance and isResY for the rest |
| Ntuples.FillRole | delphes_analyzers/makeNtuples.C:168-176 | each of the other aux loops pushes its particles with its one role flag |
| Ntuples.SortParticles | delphes_analyzers/makeNtuples.C:211 | the sorted vector is ordered by descending pt and a permutation of the input |
| Ntuples.FillParts | delphes_analyzers/makeNtuples.C:217-234 | the part loop pushes one row per sorted particle, nothing else changes |
| Ntuples.FillGenParts | delphes_analyzers/makeNtuples.C:287-300 | the genpart loop pushes one row per sorted generator particle, nothing else changes |
| Ntuples.FillJet | delphes_analyzers/makeNtuples.C:149-301 | after the label check, the container holds a record built from a descending-pt permutation of the kept constituents and the exclusively assigned generator jet; the used list gains exactly that match |
| Ntuples.ProcessEvent | delphes_analyzers/makeNtuples.C:124-306 | the jet loop writes one record per emitting jet, in order, each fitting its jet and assigned generator jet, and ends with the specified used list |
| Ntuples.MakeNtuples | delphes_analyzers/makeNtuples.C:108-307 | the output rows are the events' rows in event order, with jetR from the branch name and the used list reset per event |

## Left out

- ROOT/Delphes I/O is not modelled: TFile, TTree, TChain, ExRootTreeReader, branch binding, ReadEntry, tree->Fill/Write and the deletes. An event arrives as a value, and filling the tree appends a snapshot of the container to the output rows.
- Progress and debug logging to std::cerr is not modelled, nor the processed-jet counter, which is used only in the final log line.
- The truth matcher (FatJetMatching::getLabel, findLabelIndex) is not part of this model. Its answer per jet is an input: a label, four particle lists and a label index.
- deltaR and deltaPhi are not part of this model. Distances come as an input per jet and generator jet, and deltaPhi is a function argument. The same holds for P4().Energy() and SoftDroppedP4[0].M(), which are jet fields.
- The construction of ParticleInfo from a GenParticle or a ParticleFlowCandidate is not part of this model. Constituents carry the normalised record.
- EventData's dynamic name lookup is replaced by typed fields. A lookup of an undeclared branch cannot occur in the model.
- Single-precision floats are modelled as reals. This covers float dr, float min_dr and the float absz before the 1e-10 comparison, so float rounding is not modelled. Reals have no NaN or infinity either: in the code a NaN pz, eta or pt passes the validity test, a NaN distance is never chosen by the scan, and a NaN jet eta passes the kinematic cut, because every comparison with NaN is false; none of this is modelled.
- Constituents.CollectParticles: an object of an unrecognised class arriving while the particle list is still empty makes back() undefined. The model excludes this case by a precondition (BackDefined). Otherwise the model follows the code: the earlier, already valid element is re-examined and kept.
- Ntuples.FillJet: the record is specified up to the order of equal-pt particles, which std::sort leaves unspecified.
- EventData.h is not part of this model. The values reset() leaves in the scalar branches are taken to be 0 (`Output.DefaultJet`, `Output.DefaultGenJet`); this matters for the genjet_* scalars of a jet without a matched generator jet, which keep the reset values.
