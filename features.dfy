/**
 * The per-particle quantities makeNtuples derives from a ParticleInfo: the validity
 * test applied to constituents, the five particle-type flags, and the offsets relative
 * to the jet axis and to the primary vertex.
 */
module Features {
  import opened Records

  /** The constituent validity test: a particle is dropped when |pz| > 10000,
      |eta| > 5 or pt <= 0. */
  predicate IsValid(p: ParticleInfo) {
    !(Abs(p.pz) > 10000.0 || Abs(p.eta) > 5.0 || p.pt <= 0.0)
  }

  lemma ValidBounds(p: ParticleInfo)
    ensures IsValid(p) <==> -10000.0 <= p.pz <= 10000.0 && -5.0 <= p.eta <= 5.0 && p.pt > 0.0
  {
  }

  // ---------------------------------------------------------------------------
  // Particle-type flags, from pid and charge alone

  predicate IsElectron(pid: int) { pid == 11 || pid == -11 }

  predicate IsMuon(pid: int) { pid == 13 || pid == -13 }

  predicate IsPhoton(pid: int) { pid == 22 }

  predicate IsChargedHadron(pid: int, charge: int) {
    charge != 0 && !(pid == 11 || pid == -11 || pid == 13 || pid == -13)
  }

  predicate IsNeutralHadron(pid: int, charge: int) {
    charge == 0 && !(pid == 22)
  }

  /** Number of the five flags that are set. */
  function FlagCount(pid: int, charge: int): nat {
    (if IsElectron(pid) then 1 else 0) + (if IsMuon(pid) then 1 else 0) +
    (if IsPhoton(pid) then 1 else 0) + (if IsChargedHadron(pid, charge) then 1 else 0) +
    (if IsNeutralHadron(pid, charge) then 1 else 0)
  }

  /** Charge consistent with the identity: leptons charged, photons neutral. */
  predicate PhysicalCharge(pid: int, charge: int) {
    ((IsElectron(pid) || IsMuon(pid)) ==> charge != 0) && (IsPhoton(pid) ==> charge == 0)
  }

  lemma HadronFlagsExclusive(pid: int, charge: int)
    ensures !(IsChargedHadron(pid, charge) && IsNeutralHadron(pid, charge))
  {
  }

  /** Every particle gets at least one flag and at most two; it gets exactly one
      precisely when its charge is consistent with its pid. */
  lemma FlagsPartition(pid: int, charge: int)
    ensures 1 <= FlagCount(pid, charge) <= 2
    ensures FlagCount(pid, charge) == 1 <==> PhysicalCharge(pid, charge)
  {
  }

  // ---------------------------------------------------------------------------
  // Offsets to the jet axis and to the primary vertex

  /** part_deta / genpart_jet_deta: the eta offset to the jet axis, sign-flipped unless
      the jet's eta is strictly positive. */
  function DEta(eta: real, jetEta: real): real {
    (if jetEta > 0.0 then 1.0 else -1.0) * (eta - jetEta)
  }

  lemma DEtaMagnitude(eta: real, jetEta: real)
    ensures Abs(DEta(eta, jetEta)) == Abs(eta - jetEta)
  {
  }

  /** Mirroring the particle and the jet through eta = 0 leaves the offset unchanged,
      except for a jet exactly at eta = 0 (which takes the -1 branch on both sides). */
  lemma DEtaMirror(eta: real, jetEta: real)
    ensures DEta(-eta, -jetEta) == DEta(eta, jetEta) <==> jetEta != 0.0 || eta == 0.0
  {
  }

  /** part_dzval: shifted by the primary vertex z, only when a vertex exists and dz != 0. */
  function DzVal(dz: real, pv: Option<Vertex>): real {
    if pv.Some? && dz != 0.0 then dz - pv.value.z else dz
  }

  lemma DzValCases(dz: real, pv: Option<Vertex>)
    ensures dz == 0.0 ==> DzVal(dz, pv) == 0.0
    ensures pv.None? ==> DzVal(dz, pv) == dz
    ensures pv.Some? && dz != 0.0 ==> DzVal(dz, pv) + pv.value.z == dz
  {
  }

  /** genpart_z / genpart_t: production vertex relative to the primary vertex, if any. */
  function ShiftZ(z: real, pv: Option<Vertex>): (r: real)
    ensures pv.Some? ==> r + pv.value.z == z
    ensures pv.None? ==> r == z
  {
    if pv.Some? then z - pv.value.z else z
  }

  function ShiftT(t: real, pv: Option<Vertex>): (r: real)
    ensures pv.Some? ==> r + pv.value.t == t
    ensures pv.None? ==> r == t
  {
    if pv.Some? then t - pv.value.t else t
  }

  /** The vertex shifts are translations: the separation of two production points, in z
      and in t, is the same before and after the shift. */
  lemma ShiftsPreserveSeparation(z1: real, z2: real, t1: real, t2: real, pv: Option<Vertex>)
    ensures ShiftZ(z1, pv) - ShiftZ(z2, pv) == z1 - z2
    ensures ShiftT(t1, pv) - ShiftT(t2, pv) == t1 - t2
  {
  }

  /** Threshold below which the shifted |z| counts as zero. */
  const SnapThreshold: real := 1e-10

  /** genpart_x / genpart_y: the raw coordinate, or 0 when the shifted |z| is below the
      threshold. */
  function Snapped(coord: real, shiftedZ: real): real {
    if Abs(shiftedZ) < SnapThreshold then 0.0 else coord
  }

  /** x and y are snapped together or not at all, and a coordinate is only ever kept
      or replaced by 0. */
  lemma SnapTogether(x: real, y: real, z: real, pv: Option<Vertex>)
    ensures (Snapped(x, ShiftZ(z, pv)) == 0.0 && Snapped(y, ShiftZ(z, pv)) == 0.0) ||
            (Snapped(x, ShiftZ(z, pv)) == x && Snapped(y, ShiftZ(z, pv)) == y)
    ensures Abs(ShiftZ(z, pv)) >= SnapThreshold ==> Snapped(x, ShiftZ(z, pv)) == x
    ensures Abs(ShiftZ(z, pv)) < SnapThreshold ==>
              Snapped(x, ShiftZ(z, pv)) == 0.0 && Snapped(y, ShiftZ(z, pv)) == 0.0
    ensures pv.Some? && z == pv.value.z ==> Snapped(x, ShiftZ(z, pv)) == 0.0
  {
  }
}
