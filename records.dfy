/**
 * The Delphes event records that makeNtuples reads, reduced to the fields it uses.
 * Everything the ROOT/Delphes libraries compute (four-vector energies, soft-drop
 * masses, angular distances) arrives here as a plain value.
 */
module Records {

  datatype Option<T> = None | Some(value: T)

  /** The normalised particle record (ParticleInfo) built from a GenParticle or a
      ParticleFlowCandidate: momentum, identity, impact parameters, production vertex. */
  datatype ParticleInfo = ParticleInfo(
    px: real, py: real, pz: real, energy: real,
    pt: real, eta: real, phi: real,
    charge: int, pid: int,
    d0: real, d0err: real, dz: real, dzerr: real,
    x: real, y: real, z: real, t: real)

  /** One entry of a jet's Constituents array, as the IsA() dispatch sees it:
      a null reference, a generator particle, a particle-flow candidate, or an
      object of any other class. */
  datatype Constituent =
    | Null
    | GenParticleRef(info: ParticleInfo)
    | PFCandidateRef(info: ParticleInfo)
    | OtherObject

  /** The primary vertex of the event (branch "Vertex", entry 0). */
  datatype Vertex = Vertex(z: real, t: real)

  /** A reconstructed or generator-level jet. `energy` stands for P4().Energy() and
      `sdmass` for SoftDroppedP4[0].M(). */
  datatype Jet = Jet(
    pt: real, eta: real, phi: real, energy: real, sdmass: real,
    tau1: real, tau2: real, tau3: real, tau4: real,
    constituents: seq<Constituent>)

  /** A generator particle as reported by the truth matcher. */
  datatype TruthParticle = TruthParticle(pt: real, eta: real, phi: real, mass: real, pid: int)

  /** What the truth matcher (FatJetMatching) returns for one jet: the label string,
      its four particle lists and the dense label index. */
  datatype MatchResult = MatchResult(
    labelName: string,
    resParticles: seq<TruthParticle>,
    decayParticles: seq<TruthParticle>,
    tauDecayParticles: seq<TruthParticle>,
    qcdPartons: seq<TruthParticle>,
    labelIndex: int)

  /** One event: the primary vertex if the Vertex branch provides one, the jets of the
      chosen jet branch, the generator jets, the matcher's answer for every jet and, for
      every jet i and generator jet j, dr[i][j] = deltaR(genjet j, jet i). */
  datatype Event = Event(
    pv: Option<Vertex>,
    jets: seq<Jet>,
    genJets: seq<Jet>,
    truth: seq<MatchResult>,
    dr: seq<seq<real>>)

  /** The shape the event source guarantees: one matcher answer and one row of distances
      per jet, one distance per generator jet. */
  predicate WellFormed(ev: Event) {
    |ev.truth| == |ev.jets| && |ev.dr| == |ev.jets| &&
    forall i :: 0 <= i < |ev.dr| ==> |ev.dr[i]| == |ev.genJets|
  }

  function Abs(x: real): (r: real)
    ensures r >= 0.0 && (r == x || r == -x)
  {
    if x < 0.0 then -x else x
  }
}
