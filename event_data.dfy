/**
 * The output record (EventData): one column per declared branch, grouped by the
 * collection it describes. The branch list is fixed at compile time here, so a lookup
 * of an undeclared branch cannot be written. Each group of vector branches is a
 * datatype of parallel columns; a row datatype holds one entry of every column.
 */
module Output {
  import opened Records
  import opened Features

  // ---------------------------------------------------------------------------
  // part_* : one row per kept jet constituent

  datatype PartRow = PartRow(
    px: real, py: real, pz: real, energy: real, deta: real, dphi: real,
    d0val: real, d0err: real, dzval: real, dzerr: real, charge: int,
    isElectron: bool, isMuon: bool, isPhoton: bool, isChargedHadron: bool, isNeutralHadron: bool)

  datatype PartColumns = PartColumns(
    px: seq<real>, py: seq<real>, pz: seq<real>, energy: seq<real>, deta: seq<real>, dphi: seq<real>,
    d0val: seq<real>, d0err: seq<real>, dzval: seq<real>, dzerr: seq<real>, charge: seq<int>,
    isElectron: seq<bool>, isMuon: seq<bool>, isPhoton: seq<bool>, isChargedHadron: seq<bool>,
    isNeutralHadron: seq<bool>)
  {
    function Length(): nat { |px| }

    /** All part_* columns have the same length. */
    predicate Rectangular() {
      |py| == |px| && |pz| == |px| && |energy| == |px| && |deta| == |px| && |dphi| == |px| &&
      |d0val| == |px| && |d0err| == |px| && |dzval| == |px| && |dzerr| == |px| &&
      |charge| == |px| && |isElectron| == |px| && |isMuon| == |px| && |isPhoton| == |px| &&
      |isChargedHadron| == |px| && |isNeutralHadron| == |px|
    }

    function RowAt(i: nat): PartRow
      requires Rectangular() && i < Length()
    {
      PartRow(px[i], py[i], pz[i], energy[i], deta[i], dphi[i], d0val[i], d0err[i], dzval[i],
              dzerr[i], charge[i], isElectron[i], isMuon[i], isPhoton[i], isChargedHadron[i],
              isNeutralHadron[i])
    }

    /** One push_back on every part_* column. */
    function Push(r: PartRow): PartColumns {
      PartColumns(px + [r.px], py + [r.py], pz + [r.pz], energy + [r.energy], deta + [r.deta],
                  dphi + [r.dphi], d0val + [r.d0val], d0err + [r.d0err], dzval + [r.dzval],
                  dzerr + [r.dzerr], charge + [r.charge], isElectron + [r.isElectron],
                  isMuon + [r.isMuon], isPhoton + [r.isPhoton], isChargedHadron + [r.isChargedHadron],
                  isNeutralHadron + [r.isNeutralHadron])
    }
  }

  const EmptyPart := PartColumns([], [], [], [], [], [], [], [], [], [], [], [], [], [], [], [])

  /** The features of one kept constituent of `jet`: its four-momentum, impact parameters
      and charge as they are, the offsets to the jet axis, dz relative to the primary
      vertex, and the type flags, of which at least one is set and never both hadron
      flags. */
  function PartRowOf(p: ParticleInfo, jet: Jet, pv: Option<Vertex>, deltaPhi: (real, real) -> real): (r: PartRow)
    ensures r.px == p.px && r.py == p.py && r.pz == p.pz && r.energy == p.energy
    ensures r.d0val == p.d0 && r.d0err == p.d0err && r.dzerr == p.dzerr && r.charge == p.charge
    ensures Abs(r.deta) == Abs(p.eta - jet.eta)
    ensures r.dphi == deltaPhi(p.phi, jet.phi)
    ensures p.dz == 0.0 || pv.None? ==> r.dzval == p.dz
    ensures p.dz != 0.0 && pv.Some? ==> r.dzval + pv.value.z == p.dz
    ensures r.isElectron || r.isMuon || r.isPhoton || r.isChargedHadron || r.isNeutralHadron
    ensures !(r.isChargedHadron && r.isNeutralHadron)
    ensures r.isElectron || r.isMuon ==> !r.isChargedHadron
  {
    PartRow(p.px, p.py, p.pz, p.energy, DEta(p.eta, jet.eta), deltaPhi(p.phi, jet.phi),
            p.d0, p.d0err, DzVal(p.dz, pv), p.dzerr, p.charge,
            IsElectron(p.pid), IsMuon(p.pid), IsPhoton(p.pid),
            IsChargedHadron(p.pid, p.charge), IsNeutralHadron(p.pid, p.charge))
  }

  /** The part_* columns after pushing `rows` in order onto `c`. */
  function PushParts(c: PartColumns, rows: seq<PartRow>): PartColumns
    decreases |rows|
  {
    if rows == [] then c else PushParts(c, rows[..|rows| - 1]).Push(rows[|rows| - 1])
  }

  lemma PartColumnsPushRow(c: PartColumns, r: PartRow)
    requires c.Rectangular()
    ensures c.Push(r).Rectangular() && c.Push(r).Length() == c.Length() + 1
    ensures forall i :: 0 <= i < c.Length() ==> c.Push(r).RowAt(i) == c.RowAt(i)
    ensures c.Push(r).RowAt(c.Length()) == r
  {
  }

  /** Pushing rows onto empty columns yields rectangular columns whose i-th row is the
      i-th row pushed. */
  lemma {:induction false} PushPartsRows(rows: seq<PartRow>)
    ensures PushParts(EmptyPart, rows).Rectangular()
    ensures PushParts(EmptyPart, rows).Length() == |rows|
    ensures forall i :: 0 <= i < |rows| ==> PushParts(EmptyPart, rows).RowAt(i) == rows[i]
    decreases |rows|
  {
    if rows != [] {
      PushPartsRows(rows[..|rows| - 1]);
      PartColumnsPushRow(PushParts(EmptyPart, rows[..|rows| - 1]), rows[|rows| - 1]);
    }
  }

  // ---------------------------------------------------------------------------
  // genpart_* : one row per kept constituent of the matched generator jet

  datatype GenPartRow = GenPartRow(
    px: real, py: real, pz: real, energy: real, jetDeta: real, jetDphi: real,
    x: real, y: real, z: real, t: real, pid: int)

  datatype GenPartColumns = GenPartColumns(
    px: seq<real>, py: seq<real>, pz: seq<real>, energy: seq<real>, jetDeta: seq<real>,
    jetDphi: seq<real>, x: seq<real>, y: seq<real>, z: seq<real>, t: seq<real>, pid: seq<int>)
  {
    function Length(): nat { |px| }

    predicate Rectangular() {
      |py| == |px| && |pz| == |px| && |energy| == |px| && |jetDeta| == |px| &&
      |jetDphi| == |px| && |x| == |px| && |y| == |px| && |z| == |px| && |t| == |px| &&
      |pid| == |px|
    }

    function RowAt(i: nat): GenPartRow
      requires Rectangular() && i < Length()
    {
      GenPartRow(px[i], py[i], pz[i], energy[i], jetDeta[i], jetDphi[i], x[i], y[i], z[i], t[i], pid[i])
    }

    function Push(r: GenPartRow): GenPartColumns {
      GenPartColumns(px + [r.px], py + [r.py], pz + [r.pz], energy + [r.energy],
                     jetDeta + [r.jetDeta], jetDphi + [r.jetDphi], x + [r.x], y + [r.y],
                     z + [r.z], t + [r.t], pid + [r.pid])
    }
  }

  const EmptyGenPart := GenPartColumns([], [], [], [], [], [], [], [], [], [], [])

  /** The features of one kept generator-jet constituent. The offsets are taken to the
      reconstructed jet's axis, and the vertex coordinates relative to the primary vertex. */
  function GenPartRowOf(p: ParticleInfo, jet: Jet, pv: Option<Vertex>, deltaPhi: (real, real) -> real): (r: GenPartRow)
    ensures r.px == p.px && r.py == p.py && r.pz == p.pz && r.energy == p.energy && r.pid == p.pid
    ensures Abs(r.jetDeta) == Abs(p.eta - jet.eta)
    ensures r.jetDphi == deltaPhi(p.phi, jet.phi)
    ensures pv.Some? ==> r.z + pv.value.z == p.z && r.t + pv.value.t == p.t
    ensures pv.None? ==> r.z == p.z && r.t == p.t
    ensures Abs(r.z) < SnapThreshold ==> r.x == 0.0 && r.y == 0.0
    ensures Abs(r.z) >= SnapThreshold ==> r.x == p.x && r.y == p.y
  {
    var z := ShiftZ(p.z, pv);
    GenPartRow(p.px, p.py, p.pz, p.energy, DEta(p.eta, jet.eta), deltaPhi(p.phi, jet.phi),
               Snapped(p.x, z), Snapped(p.y, z), z, ShiftT(p.t, pv), p.pid)
  }

  function PushGenParts(c: GenPartColumns, rows: seq<GenPartRow>): GenPartColumns
    decreases |rows|
  {
    if rows == [] then c else PushGenParts(c, rows[..|rows| - 1]).Push(rows[|rows| - 1])
  }

  lemma GenPartColumnsPushRow(c: GenPartColumns, r: GenPartRow)
    requires c.Rectangular()
    ensures c.Push(r).Rectangular() && c.Push(r).Length() == c.Length() + 1
    ensures forall i :: 0 <= i < c.Length() ==> c.Push(r).RowAt(i) == c.RowAt(i)
    ensures c.Push(r).RowAt(c.Length()) == r
  {
  }

  lemma {:induction false} PushGenPartsRows(rows: seq<GenPartRow>)
    ensures PushGenParts(EmptyGenPart, rows).Rectangular()
    ensures PushGenParts(EmptyGenPart, rows).Length() == |rows|
    ensures forall i :: 0 <= i < |rows| ==> PushGenParts(EmptyGenPart, rows).RowAt(i) == rows[i]
    decreases |rows|
  {
    if rows != [] {
      PushGenPartsRows(rows[..|rows| - 1]);
      GenPartColumnsPushRow(PushGenParts(EmptyGenPart, rows[..|rows| - 1]), rows[|rows| - 1]);
    }
  }

  // ---------------------------------------------------------------------------
  // aux_genpart_* : one row per particle of the truth matcher's four lists

  datatype AuxRow = AuxRow(
    pt: real, eta: real, phi: real, mass: real, pid: int,
    isResX: bool, isResY: bool, isResDecayProd: bool, isTauDecayProd: bool, isQcdParton: bool)

  datatype AuxColumns = AuxColumns(
    pt: seq<real>, eta: seq<real>, phi: seq<real>, mass: seq<real>, pid: seq<int>,
    isResX: seq<bool>, isResY: seq<bool>, isResDecayProd: seq<bool>, isTauDecayProd: seq<bool>,
    isQcdParton: seq<bool>)
  {
    function Length(): nat { |pt| }

    predicate Rectangular() {
      |eta| == |pt| && |phi| == |pt| && |mass| == |pt| && |pid| == |pt| && |isResX| == |pt| &&
      |isResY| == |pt| && |isResDecayProd| == |pt| && |isTauDecayProd| == |pt| &&
      |isQcdParton| == |pt|
    }

    function RowAt(i: nat): AuxRow
      requires Rectangular() && i < Length()
    {
      AuxRow(pt[i], eta[i], phi[i], mass[i], pid[i], isResX[i], isResY[i], isResDecayProd[i],
             isTauDecayProd[i], isQcdParton[i])
    }

    function Push(r: AuxRow): AuxColumns {
      AuxColumns(pt + [r.pt], eta + [r.eta], phi + [r.phi], mass + [r.mass], pid + [r.pid],
                 isResX + [r.isResX], isResY + [r.isResY], isResDecayProd + [r.isResDecayProd],
                 isTauDecayProd + [r.isTauDecayProd], isQcdParton + [r.isQcdParton])
    }
  }

  const EmptyAux := AuxColumns([], [], [], [], [], [], [], [], [], [])

  function PushAuxRows(c: AuxColumns, rows: seq<AuxRow>): AuxColumns
    decreases |rows|
  {
    if rows == [] then c else PushAuxRows(c, rows[..|rows| - 1]).Push(rows[|rows| - 1])
  }

  lemma AuxColumnsPushRow(c: AuxColumns, r: AuxRow)
    requires c.Rectangular()
    ensures c.Push(r).Rectangular() && c.Push(r).Length() == c.Length() + 1
    ensures forall i :: 0 <= i < c.Length() ==> c.Push(r).RowAt(i) == c.RowAt(i)
    ensures c.Push(r).RowAt(c.Length()) == r
  {
  }

  lemma {:induction false} PushAuxRowsRows(rows: seq<AuxRow>)
    ensures PushAuxRows(EmptyAux, rows).Rectangular()
    ensures PushAuxRows(EmptyAux, rows).Length() == |rows|
    ensures forall i :: 0 <= i < |rows| ==> PushAuxRows(EmptyAux, rows).RowAt(i) == rows[i]
    decreases |rows|
  {
    if rows != [] {
      PushAuxRowsRows(rows[..|rows| - 1]);
      AuxColumnsPushRow(PushAuxRows(EmptyAux, rows[..|rows| - 1]), rows[|rows| - 1]);
    }
  }

  /** Pushing two lists of rows one after the other is pushing their concatenation. */
  lemma {:induction false} PushAuxRowsAppend(c: AuxColumns, a: seq<AuxRow>, b: seq<AuxRow>)
    ensures PushAuxRows(c, a + b) == PushAuxRows(PushAuxRows(c, a), b)
    decreases |b|
  {
    if b == [] {
      assert a + b == a;
    } else {
      PushAuxRowsAppend(c, a, b[..|b| - 1]);
      assert (a + b)[..|a + b| - 1] == a + b[..|b| - 1];
    }
  }

  /** What fillAuxVars pushes for one truth particle with the given role flags. */
  function AuxRowOf(p: TruthParticle, isResX: bool, isResY: bool, isResDecayProd: bool,
                    isTauDecayProd: bool, isQcdParton: bool): AuxRow {
    AuxRow(p.pt, p.eta, p.phi, p.mass, p.pid, isResX, isResY, isResDecayProd, isTauDecayProd, isQcdParton)
  }

  /** The roles of the aux entries. */
  datatype Role = ResX | ResY | ResDecayProd | TauDecayProd | QcdParton

  function RoleRow(p: TruthParticle, role: Role): AuxRow {
    AuxRowOf(p, role == ResX, role == ResY, role == ResDecayProd, role == TauDecayProd, role == QcdParton)
  }

  /** The resonances: the first is ResX, every later one ResY. */
  function ResonanceRows(res: seq<TruthParticle>): seq<AuxRow> {
    seq(|res|, k requires 0 <= k < |res| => RoleRow(res[k], if k == 0 then ResX else ResY))
  }

  function RoleRows(ps: seq<TruthParticle>, role: Role): seq<AuxRow> {
    seq(|ps|, k requires 0 <= k < |ps| => RoleRow(ps[k], role))
  }

  /** All aux rows of a matcher result, in list order: resonances, decay products, tau
      decay products, QCD partons. */
  function AuxRows(m: MatchResult): seq<AuxRow> {
    ResonanceRows(m.resParticles) + RoleRows(m.decayParticles, ResDecayProd) +
    RoleRows(m.tauDecayParticles, TauDecayProd) + RoleRows(m.qcdPartons, QcdParton)
  }

  /** The number of role flags set in a row. */
  function RoleCount(r: AuxRow): nat {
    (if r.isResX then 1 else 0) + (if r.isResY then 1 else 0) + (if r.isResDecayProd then 1 else 0) +
    (if r.isTauDecayProd then 1 else 0) + (if r.isQcdParton then 1 else 0)
  }

  function ParticleOf(r: AuxRow): TruthParticle {
    TruthParticle(r.pt, r.eta, r.phi, r.mass, r.pid)
  }

  /** The aux rows: |res| + |decay| + |tauDecay| + |qcd| of them, in that list order,
      each carrying its particle and exactly one role flag; isResX only on the first
      resonance. */
  lemma AuxRowsLayout(m: MatchResult)
    ensures var rows := AuxRows(m);
      var nr, nd, nt, nq := |m.resParticles|, |m.decayParticles|, |m.tauDecayParticles|, |m.qcdPartons|;
      |rows| == nr + nd + nt + nq &&
      (forall i :: 0 <= i < |rows| ==> RoleCount(rows[i]) == 1) &&
      (forall i :: 0 <= i < |rows| ==> (rows[i].isResX <==> i == 0 && nr > 0)) &&
      (forall i :: 0 <= i < nr ==> ParticleOf(rows[i]) == m.resParticles[i] && (rows[i].isResY <==> i > 0)) &&
      (forall i :: 0 <= i < nd ==> ParticleOf(rows[nr + i]) == m.decayParticles[i] && rows[nr + i].isResDecayProd) &&
      (forall i :: 0 <= i < nt ==> ParticleOf(rows[nr + nd + i]) == m.tauDecayParticles[i] && rows[nr + nd + i].isTauDecayProd) &&
      (forall i :: 0 <= i < nq ==> ParticleOf(rows[nr + nd + nt + i]) == m.qcdPartons[i] && rows[nr + nd + nt + i].isQcdParton)
  {
  }

  // ---------------------------------------------------------------------------
  // Scalar branches

  datatype JetScalars = JetScalars(
    pt: real, eta: real, phi: real, energy: real, sdmass: real, nparticles: int,
    tau1: real, tau2: real, tau3: real, tau4: real, labelIndex: int)

  datatype GenJetScalars = GenJetScalars(
    pt: real, eta: real, phi: real, energy: real, sdmass: real, nparticles: int)

  const DefaultJet := JetScalars(0.0, 0.0, 0.0, 0.0, 0.0, 0, 0.0, 0.0, 0.0, 0.0, 0)
  const DefaultGenJet := GenJetScalars(0.0, 0.0, 0.0, 0.0, 0.0, 0)

  /** One output row: the values of every branch when the tree is filled. */
  datatype Record = Record(
    part: PartColumns, jet: JetScalars, genpart: GenPartColumns, genjet: GenJetScalars, aux: AuxColumns)

  /** The state after reset(): every vector branch empty, every scalar at its default. */
  const EmptyRecord := Record(EmptyPart, DefaultJet, EmptyGenPart, DefaultGenJet, EmptyAux)

  /** The output container, allocated once and reset before every jet. */
  class EventData {
    var part: PartColumns
    var jet: JetScalars
    var genpart: GenPartColumns
    var genjet: GenJetScalars
    var aux: AuxColumns

    /** The values the tree would write if filled now. */
    function Snapshot(): Record
      reads this
    {
      Record(part, jet, genpart, genjet, aux)
    }

    constructor ()
      ensures Snapshot() == EmptyRecord
    {
      part, jet, genpart, genjet, aux := EmptyPart, DefaultJet, EmptyGenPart, DefaultGenJet, EmptyAux;
    }

    method Reset()
      modifies this
      ensures Snapshot() == EmptyRecord
    {
      part, jet, genpart, genjet, aux := EmptyPart, DefaultJet, EmptyGenPart, DefaultGenJet, EmptyAux;
    }

    /** push_back of one constituent's features on every part_* branch. */
    method PushPart(r: PartRow)
      modifies this
      ensures Snapshot() == old(Snapshot()).(part := old(part).Push(r))
    {
      part := part.Push(r);
    }

    method PushGenPart(r: GenPartRow)
      modifies this
      ensures Snapshot() == old(Snapshot()).(genpart := old(genpart).Push(r))
    {
      genpart := genpart.Push(r);
    }

    /** fillAuxVars: push_back on every aux_genpart_* branch. */
    method PushAux(r: AuxRow)
      modifies this
      ensures Snapshot() == old(Snapshot()).(aux := old(aux).Push(r))
    {
      aux := aux.Push(r);
    }
  }
}
