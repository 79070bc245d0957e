/** The sphere-in-box multi-block mesher: the authored tables of nodes, blocks,
    face tags, edge tags, curved edges and node ids that `FESphereInBox`
    hands to the multi-block generator, and the order of the generator calls.

    The generator itself (welding, interpolation, smoothing) is not part of
    this model: each call into it is recorded, with its arguments, in a call
    trace. Every authored table is a function from row number to row. */
module SphereInBox {
  import opened Base
  import GItem

  // ---------------------------------------------------------------------
  // The lattice
  // ---------------------------------------------------------------------

  /** A point of the lattice {-1,0,1}^3. Box node n sits at lattice point
      `BoxNodeCell(n)`; sphere node 26+n lies on the sphere in the direction
      `SphereNodeDirection(n)` seen from the centre. */
  datatype Cell = Cell(i: int, j: int, k: int)

  predicate InLattice(c: Cell)
  {
    -1 <= c.i <= 1 && -1 <= c.j <= 1 && -1 <= c.k <= 1
  }

  /** A corner of the lattice: every coordinate is -1 or 1. */
  predicate IsLatticeCorner(c: Cell)
  {
    c.i != 0 && c.j != 0 && c.k != 0
  }

  /** A number for each lattice cell, distinct for distinct cells of the
      lattice. */
  function CellCode(c: Cell): int
  {
    (c.k + 1) * 9 + (c.j + 1) * 3 + (c.i + 1)
  }

  /** The object's geometry parameters W, H, D and R, read from its
      parameter block. */
  datatype Shape = Shape(width: real, height: real, depth: real, radius: real)
  {
    predicate Proper() { width > 0.0 && height > 0.0 && depth > 0.0 }
    /** The centre of the sphere, (0, 0, D/2). */
    function Centre(): Vec3 { Vec3(0.0, 0.0, depth * 0.5) }
  }

  /** The coordinate of lattice value v (-1, 0 or 1) on an axis that runs
      from lo through mid to hi. */
  function Grid(v: int, lo: real, mid: real, hi: real): real
  {
    if v < 0 then lo else if v == 0 then mid else hi
  }

  /** The position of a lattice point in a box of half-sizes w = W/2 and
      h = H/2; the box spans z from 0 to D. */
  function LatticePoint(s: Shape, c: Cell): Vec3
  {
    var w, h, d := s.width * 0.5, s.height * 0.5, s.depth * 0.5;
    Vec3(Grid(c.i, -w, 0.0, w), Grid(c.j, -h, 0.0, h), Grid(c.k, 0.0, d, s.depth))
  }

  const NodeCount: nat := 52     // m_MBNode.resize(52)
  const BoxNodeCount: nat := 26  // nodes 0..25 lie on the box lattice
  const BlockCount: nat := 24    // m_MBlock.resize(24)
  const FaceRowCount: nat := 48  // faces F1..F48
  const CurvedEdgeCount: nat := 48
  const NodeIdCount: nat := 16
  const CNode: nat := 52         // the centre node, control node of every arc

  predicate IsBoxNode(n: nat) { n < BoxNodeCount }
  predicate IsSphereNode(n: nat) { BoxNodeCount <= n < NodeCount }

  /** The position of box node n, as the source writes it, with w = W/2,
      h = H/2, d = D/2. */
  function BoxNodePosition(s: Shape, n: nat): Vec3
    requires n < BoxNodeCount
  {
    var w, h, d, D := s.width * 0.5, s.height * 0.5, s.depth * 0.5, s.depth;
    match n
    case 0 => Vec3(-w, -h, 0.0) case 1 => Vec3(0.0, -h, 0.0) case 2 => Vec3(w, -h, 0.0)
    case 3 => Vec3(-w, 0.0, 0.0) case 4 => Vec3(0.0, 0.0, 0.0) case 5 => Vec3(w, 0.0, 0.0)
    case 6 => Vec3(-w, h, 0.0) case 7 => Vec3(0.0, h, 0.0) case 8 => Vec3(w, h, 0.0)
    case 9 => Vec3(-w, -h, d) case 10 => Vec3(0.0, -h, d) case 11 => Vec3(w, -h, d)
    case 12 => Vec3(-w, 0.0, d) case 13 => Vec3(w, 0.0, d) case 14 => Vec3(-w, h, d)
    case 15 => Vec3(0.0, h, d) case 16 => Vec3(w, h, d) case 17 => Vec3(-w, -h, D)
    case 18 => Vec3(0.0, -h, D) case 19 => Vec3(w, -h, D) case 20 => Vec3(-w, 0.0, D)
    case 21 => Vec3(0.0, 0.0, D) case 22 => Vec3(w, 0.0, D) case 23 => Vec3(-w, h, D)
    case 24 => Vec3(0.0, h, D) case _ => Vec3(w, h, D)
  }

  /** The lattice point of box node n: the box nodes run through the
      lattice with x fastest, then y, then z, skipping the centre cell. */
  function BoxNodeCell(n: nat): Cell
    requires n < BoxNodeCount
  {
    var code := if n < 13 then n else n + 1;
    Cell(code % 3 - 1, code / 3 % 3 - 1, code / 9 - 1)
  }

  /** The direction from the centre of sphere node 26 + n; the node lies at
      distance R along the normalised direction. */
  function SphereNodeDirection(n: nat): Cell
    requires n < NodeCount - BoxNodeCount
  {
    match n
    case 0 => Cell(0, 0, -1) case 1 => Cell(-1, 0, -1) case 2 => Cell(-1, -1, -1)
    case 3 => Cell(0, -1, -1) case 4 => Cell(1, -1, -1) case 5 => Cell(1, 0, -1)
    case 6 => Cell(1, 1, -1) case 7 => Cell(0, 1, -1) case 8 => Cell(-1, 1, -1)
    case 9 => Cell(-1, 0, 0) case 10 => Cell(-1, -1, 0) case 11 => Cell(0, -1, 0)
    case 12 => Cell(1, -1, 0) case 13 => Cell(1, 0, 0) case 14 => Cell(1, 1, 0)
    case 15 => Cell(0, 1, 0) case 16 => Cell(-1, 1, 0) case 17 => Cell(-1, 0, 1)
    case 18 => Cell(-1, -1, 1) case 19 => Cell(0, -1, 1) case 20 => Cell(1, -1, 1)
    case 21 => Cell(1, 0, 1) case 22 => Cell(1, 1, 1) case 23 => Cell(0, 1, 1)
    case 24 => Cell(-1, 1, 1) case _ => Cell(0, 0, 1)
  }

  /** The lattice cell of a box node, or the direction of a sphere node. */
  function NodeCell(n: nat): Cell
    requires n < NodeCount
  {
    if n < BoxNodeCount then BoxNodeCell(n) else SphereNodeDirection(n - BoxNodeCount)
  }

  // ---------------------------------------------------------------------
  // Authored tables
  // ---------------------------------------------------------------------

  /** The eight corner node indices of a block, in slot order. */
  datatype Hex = Hex(c0: nat, c1: nat, c2: nat, c3: nat, c4: nat, c5: nat, c6: nat, c7: nat)
  {
    function Seq(): seq<nat> { [c0, c1, c2, c3, c4, c5, c6, c7] }
  }

  /** The four mesh parameters a block size can be drawn from. */
  datatype SizeParam = NX | NY | NZ | NR

  datatype BlockSpec = BlockSpec(corners: Hex, sx: SizeParam, sy: SizeParam, sz: SizeParam)
  {
    function Size(a: nat): SizeParam
      requires a < 3
    {
      if a == 0 then sx else if a == 1 then sy else sz
    }

    /** The axis whose size is `nr`: the one that runs from box to sphere. */
    function RadialAxis(): nat
    {
      if sx == NR then 0 else if sy == NR then 1 else 2
    }

    /** On how many axes the size is `nr`. */
    function NrCount(): nat
    {
      (if sx == NR then 1 else 0) + (if sy == NR then 1 else 0) + (if sz == NR then 1 else 0)
    }
  }

  /** Blocks b1..b24: corners and sizes; every block gets part id 0. */
  function Block(b: nat): (r: BlockSpec)
    requires b < BlockCount
    ensures RadialSizes(r)
  {
    match b
    case 0 => BlockSpec(Hex(0, 1, 4, 3, 28, 29, 26, 27), NX, NY, NR)
    case 1 => BlockSpec(Hex(1, 2, 5, 4, 29, 30, 31, 26), NX, NY, NR)
    case 2 => BlockSpec(Hex(3, 4, 7, 6, 27, 26, 33, 34), NX, NY, NR)
    case 3 => BlockSpec(Hex(4, 5, 8, 7, 26, 31, 32, 33), NX, NY, NR)
    case 4 => BlockSpec(Hex(0, 28, 27, 3, 9, 36, 35, 12), NR, NY, NZ)
    case 5 => BlockSpec(Hex(0, 1, 29, 28, 9, 10, 37, 36), NX, NR, NZ)
    case 6 => BlockSpec(Hex(1, 2, 30, 29, 10, 11, 38, 37), NX, NR, NZ)
    case 7 => BlockSpec(Hex(30, 2, 5, 31, 38, 11, 13, 39), NR, NY, NZ)
    case 8 => BlockSpec(Hex(31, 5, 8, 32, 39, 13, 16, 40), NR, NY, NZ)
    case 9 => BlockSpec(Hex(33, 32, 8, 7, 41, 40, 16, 15), NX, NR, NZ)
    case 10 => BlockSpec(Hex(34, 33, 7, 6, 42, 41, 15, 14), NX, NR, NZ)
    case 11 => BlockSpec(Hex(3, 27, 34, 6, 12, 35, 42, 14), NR, NY, NZ)
    case 12 => BlockSpec(Hex(9, 36, 35, 12, 17, 44, 43, 20), NR, NY, NZ)
    case 13 => BlockSpec(Hex(9, 10, 37, 36, 17, 18, 45, 44), NX, NR, NZ)
    case 14 => BlockSpec(Hex(10, 11, 38, 37, 18, 19, 46, 45), NX, NR, NZ)
    case 15 => BlockSpec(Hex(38, 11, 13, 39, 46, 19, 22, 47), NR, NY, NZ)
    case 16 => BlockSpec(Hex(39, 13, 16, 40, 47, 22, 25, 48), NR, NY, NZ)
    case 17 => BlockSpec(Hex(41, 40, 16, 15, 49, 48, 25, 24), NX, NR, NZ)
    case 18 => BlockSpec(Hex(42, 41, 15, 14, 50, 49, 24, 23), NX, NR, NZ)
    case 19 => BlockSpec(Hex(12, 35, 42, 14, 20, 43, 50, 23), NR, NY, NZ)
    case 20 => BlockSpec(Hex(44, 45, 51, 43, 17, 18, 21, 20), NX, NY, NR)
    case 21 => BlockSpec(Hex(45, 46, 47, 51, 18, 19, 22, 21), NX, NY, NR)
    case 22 => BlockSpec(Hex(43, 51, 49, 50, 20, 21, 24, 23), NX, NY, NR)
    case _ => BlockSpec(Hex(51, 47, 48, 49, 21, 22, 25, 24), NX, NY, NR)
  }

  /** The six face tags of each block; -1 leaves a face untagged. */
  function FaceIds(b: nat): (r: seq<int>)
    requires b < BlockCount
    ensures |r| == 6
  {
    match b
    case 0 => [-1, -1, -1, -1, 4, 10] case 1 => [-1, -1, -1, -1, 4, 10]
    case 2 => [-1, -1, -1, -1, 4, 10] case 3 => [-1, -1, -1, -1, 4, 10]
    case 4 => [-1, 9, -1, 3, -1, -1] case 5 => [0, -1, 6, -1, -1, -1]
    case 6 => [0, -1, 6, -1, -1, -1] case 7 => [-1, 1, -1, 7, -1, -1]
    case 8 => [-1, 1, -1, 7, -1, -1] case 9 => [8, -1, 2, -1, -1, -1]
    case 10 => [8, -1, 2, -1, -1, -1] case 11 => [-1, 9, -1, 3, -1, -1]
    case 12 => [-1, 9, -1, 3, -1, -1] case 13 => [0, -1, 6, -1, -1, -1]
    case 14 => [0, -1, 6, -1, -1, -1] case 15 => [-1, 1, -1, 7, -1, -1]
    case 16 => [-1, 1, -1, 7, -1, -1] case 17 => [8, -1, 2, -1, -1, -1]
    case 18 => [8, -1, 2, -1, -1, -1] case 19 => [-1, 9, -1, 3, -1, -1]
    case 20 => [-1, -1, -1, -1, 11, 5] case 21 => [-1, -1, -1, -1, 11, 5]
    case 22 => [-1, -1, -1, -1, 11, 5] case _ => [-1, -1, -1, -1, 11, 5]
  }

  /** One `SetFaceEdgeID` call: face `face` of block `block` gets edge
      tags `ids` (-1 leaves an edge untagged). */
  datatype FaceEdgeRow = FaceEdgeRow(block: nat, face: nat, ids: seq<int>)

  /** Faces F1..F48, in order (row i is F(i+1)). */
  function FaceEdges(i: nat): (r: FaceEdgeRow)
    requires i < FaceRowCount
    ensures |r.ids| == 4
  {
    if i < BlockCount then BoxFaceEdges(i) else SphereFaceEdges(i - BlockCount)
  }

  /** F1..F24, the box faces. */
  function BoxFaceEdges(i: nat): (r: FaceEdgeRow)
    requires i < BlockCount
    ensures |r.ids| == 4
  {
    match i
    case 0 => FaceEdgeRow(0, 4, [-1, -1, 0, 3])
    case 1 => FaceEdgeRow(1, 4, [-1, 1, 0, -1])
    case 2 => FaceEdgeRow(2, 4, [2, -1, -1, 3])
    case 3 => FaceEdgeRow(3, 4, [2, 1, -1, -1])
    case 4 => FaceEdgeRow(4, 3, [3, 8, -1, -1])
    case 5 => FaceEdgeRow(5, 0, [0, -1, -1, 8])
    case 6 => FaceEdgeRow(6, 0, [0, 9, -1, -1])
    case 7 => FaceEdgeRow(7, 1, [1, -1, -1, 9])
    case 8 => FaceEdgeRow(8, 1, [1, 10, -1, -1])
    case 9 => FaceEdgeRow(9, 2, [2, -1, -1, 10])
    case 10 => FaceEdgeRow(10, 2, [2, 11, -1, -1])
    case 11 => FaceEdgeRow(11, 3, [3, -1, -1, 11])
    case 12 => FaceEdgeRow(12, 3, [-1, 8, 7, -1])
    case 13 => FaceEdgeRow(13, 0, [-1, -1, 4, 8])
    case 14 => FaceEdgeRow(14, 0, [-1, 9, 4, -1])
    case 15 => FaceEdgeRow(15, 1, [-1, -1, 5, 9])
    case 16 => FaceEdgeRow(16, 1, [-1, 10, 5, -1])
    case 17 => FaceEdgeRow(17, 2, [-1, -1, 6, 10])
    case 18 => FaceEdgeRow(18, 2, [-1, 11, 6, -1])
    case 19 => FaceEdgeRow(19, 3, [-1, -1, 7, 11])
    case 20 => FaceEdgeRow(20, 5, [4, -1, -1, 7])
    case 21 => FaceEdgeRow(21, 5, [4, 5, -1, -1])
    case 22 => FaceEdgeRow(22, 5, [-1, -1, 6, 7])
    case _ => FaceEdgeRow(23, 5, [-1, 5, 6, -1])
  }

  /** F25..F48, the sphere faces. */
  function SphereFaceEdges(i: nat): (r: FaceEdgeRow)
    requires i < BlockCount
    ensures |r.ids| == 4
  {
    match i
    case 0 => FaceEdgeRow(0, 5, [12, -1, -1, 15])
    case 1 => FaceEdgeRow(1, 5, [12, 13, -1, -1])
    case 2 => FaceEdgeRow(2, 5, [-1, -1, 14, 15])
    case 3 => FaceEdgeRow(3, 5, [-1, 13, 14, -1])
    case 4 => FaceEdgeRow(4, 1, [15, -1, -1, 20])
    case 5 => FaceEdgeRow(5, 2, [12, 20, -1, -1])
    case 6 => FaceEdgeRow(6, 2, [12, -1, -1, 21])
    case 7 => FaceEdgeRow(7, 3, [13, 21, -1, -1])
    case 8 => FaceEdgeRow(8, 3, [13, -1, -1, 22])
    case 9 => FaceEdgeRow(9, 0, [14, 22, -1, -1])
    case 10 => FaceEdgeRow(10, 0, [14, -1, -1, 23])
    case 11 => FaceEdgeRow(11, 1, [15, 23, -1, -1])
    case 12 => FaceEdgeRow(12, 1, [-1, -1, 19, 20])
    case 13 => FaceEdgeRow(13, 2, [-1, 20, 16, -1])
    case 14 => FaceEdgeRow(14, 2, [-1, -1, 16, 21])
    case 15 => FaceEdgeRow(15, 3, [-1, 21, 17, -1])
    case 16 => FaceEdgeRow(16, 3, [-1, -1, 17, 22])
    case 17 => FaceEdgeRow(17, 0, [-1, 22, 18, -1])
    case 18 => FaceEdgeRow(18, 0, [-1, -1, 18, 23])
    case 19 => FaceEdgeRow(19, 1, [-1, 23, 19, -1])
    case 20 => FaceEdgeRow(20, 4, [-1, -1, 16, 19])
    case 21 => FaceEdgeRow(21, 4, [-1, 17, 16, -1])
    case 22 => FaceEdgeRow(22, 4, [18, -1, -1, 19])
    case _ => FaceEdgeRow(23, 4, [18, 17, -1, -1])
  }

  /** One curved edge: edge `edge` of face F`face` (numbered from 1). */
  datatype CurvedEdge = CurvedEdge(face: nat, edge: nat)

  function CurvedEdgeAt(i: nat): (r: CurvedEdge)
    requires i < CurvedEdgeCount
    ensures BlockCount < r.face <= FaceRowCount && r.edge < 4
  {
    match i
    case 0 => CurvedEdge(25, 0) case 1 => CurvedEdge(25, 1) case 2 => CurvedEdge(25, 2) case 3 => CurvedEdge(25, 3)
    case 4 => CurvedEdge(26, 0) case 5 => CurvedEdge(26, 1) case 6 => CurvedEdge(26, 2) case 7 => CurvedEdge(27, 1)
    case 8 => CurvedEdge(27, 2) case 9 => CurvedEdge(27, 3) case 10 => CurvedEdge(28, 1) case 11 => CurvedEdge(28, 2)
    case 12 => CurvedEdge(29, 1) case 13 => CurvedEdge(29, 2) case 14 => CurvedEdge(29, 3) case 15 => CurvedEdge(30, 2)
    case 16 => CurvedEdge(30, 3) case 17 => CurvedEdge(31, 2) case 18 => CurvedEdge(31, 3) case 19 => CurvedEdge(32, 2)
    case 20 => CurvedEdge(32, 3) case 21 => CurvedEdge(33, 2) case 22 => CurvedEdge(33, 3) case 23 => CurvedEdge(34, 2)
    case 24 => CurvedEdge(34, 3) case 25 => CurvedEdge(35, 2) case 26 => CurvedEdge(35, 3) case 27 => CurvedEdge(36, 2)
    case 28 => CurvedEdge(37, 1) case 29 => CurvedEdge(37, 2) case 30 => CurvedEdge(37, 3) case 31 => CurvedEdge(38, 2)
    case 32 => CurvedEdge(38, 3) case 33 => CurvedEdge(39, 2) case 34 => CurvedEdge(39, 3) case 35 => CurvedEdge(40, 2)
    case 36 => CurvedEdge(40, 3) case 37 => CurvedEdge(41, 2) case 38 => CurvedEdge(41, 3) case 39 => CurvedEdge(42, 2)
    case 40 => CurvedEdge(42, 3) case 41 => CurvedEdge(43, 2) case 42 => CurvedEdge(43, 3) case 43 => CurvedEdge(44, 2)
    case 44 => CurvedEdge(45, 0) case 45 => CurvedEdge(46, 3) case 46 => CurvedEdge(47, 1) case _ => CurvedEdge(48, 2)
  }

  /** One `SetID` call on a node. */
  datatype NodeId = NodeId(node: nat, id: int)

  function NodeIdAt(k: nat): (r: NodeId)
    requires k < NodeIdCount
    ensures r.node < NodeCount && r.id == k
  {
    match k
    case 0 => NodeId(0, 0) case 1 => NodeId(2, 1) case 2 => NodeId(8, 2) case 3 => NodeId(6, 3)
    case 4 => NodeId(17, 4) case 5 => NodeId(19, 5) case 6 => NodeId(25, 6) case 7 => NodeId(23, 7)
    case 8 => NodeId(28, 8) case 9 => NodeId(30, 9) case 10 => NodeId(32, 10) case 11 => NodeId(34, 11)
    case 12 => NodeId(44, 12) case 13 => NodeId(46, 13) case 14 => NodeId(48, 14) case _ => NodeId(50, 15)
  }

  /** The `SetID` calls in the order the source makes them. */
  function NodeIdTable(): (r: seq<NodeId>)
    ensures |r| == NodeIdCount
  {
    seq(NodeIdCount, k requires 0 <= k < NodeIdCount => NodeIdAt(k))
  }

  // ---------------------------------------------------------------------
  // Block geometry conventions
  // ---------------------------------------------------------------------

  /** The axis a block face is perpendicular to, under the multi-block
      generator's face numbering (see `FaceCorners`). */
  function FaceAxis(f: nat): nat
    requires f < 6
  {
    match f case 0 => 1 case 1 => 0 case 2 => 1 case 3 => 0 case _ => 2
  }

  predicate BoxTag(t: int) { 0 <= t < 6 }
  predicate SphereTag(t: int) { 6 <= t < 12 }

  /** The first slot holding a box tag, or 6 when there is none. */
  function BoxSlot(tags: seq<int>): (r: nat)
    requires |tags| == 6
    ensures r <= 6 && (r < 6 ==> BoxTag(tags[r]))
    ensures forall f | 0 <= f < r :: !BoxTag(tags[f])
  {
    if BoxTag(tags[0]) then 0 else if BoxTag(tags[1]) then 1
    else if BoxTag(tags[2]) then 2 else if BoxTag(tags[3]) then 3
    else if BoxTag(tags[4]) then 4 else if BoxTag(tags[5]) then 5 else 6
  }

  /** The first slot holding a sphere tag, or 6 when there is none. */
  function SphereSlot(tags: seq<int>): (r: nat)
    requires |tags| == 6
    ensures r <= 6 && (r < 6 ==> SphereTag(tags[r]))
    ensures forall f | 0 <= f < r :: !SphereTag(tags[f])
  {
    if SphereTag(tags[0]) then 0 else if SphereTag(tags[1]) then 1
    else if SphereTag(tags[2]) then 2 else if SphereTag(tags[3]) then 3
    else if SphereTag(tags[4]) then 4 else if SphereTag(tags[5]) then 5 else 6
  }

  // ---------------------------------------------------------------------
  // What the tables promise
  // ---------------------------------------------------------------------

  predicate BoxNodeOk(s: Shape, n: nat)
    requires n < BoxNodeCount
  {
    var c := BoxNodeCell(n);
    BoxNodePosition(s, n) == LatticePoint(s, c)
  }

  /** The box nodes sit on the lattice, at pairwise distinct lattice points
      other than the centre cell. */
  lemma BoxNodesOnLattice(s: Shape)
    ensures forall n | 0 <= n < BoxNodeCount :: BoxNodePosition(s, n) == LatticePoint(s, BoxNodeCell(n))
    ensures forall n | 0 <= n < BoxNodeCount :: InLattice(BoxNodeCell(n)) && BoxNodeCell(n) != Cell(0, 0, 0)
    ensures forall n, m | 0 <= n < m < BoxNodeCount :: BoxNodeCell(n) != BoxNodeCell(m)
  {
    forall n | 0 <= n < BoxNodeCount
      ensures BoxNodeOk(s, n)
    {
      assert n in {0, 1, 2, 3, 4, 5, 6, 7, 8, 9, 10, 11, 12, 13, 14, 15, 16, 17, 18, 19, 20, 21, 22, 23, 24, 25};
    }
    forall n, m | 0 <= n < m < BoxNodeCount
      ensures BoxNodeCell(n) != BoxNodeCell(m)
    {
      CellCodeDecodes(n);
      CellCodeDecodes(m);
    }
  }

  /** In a proper box no two box nodes coincide. */
  lemma BoxNodesApart(s: Shape)
    requires s.Proper()
    ensures forall n, m | 0 <= n < m < BoxNodeCount :: BoxNodePosition(s, n) != BoxNodePosition(s, m)
  {
    BoxNodesOnLattice(s);
    forall n, m | 0 <= n < m < BoxNodeCount
      ensures BoxNodePosition(s, n) != BoxNodePosition(s, m)
    {
      LatticePointInjective(s, BoxNodeCell(n), BoxNodeCell(m));
    }
  }

  /** Box node n is found again from the code of its cell. */
  lemma CellCodeDecodes(n: nat)
    requires n < BoxNodeCount
    ensures CellCode(BoxNodeCell(n)) == if n < 13 then n else n + 1
  {
    var code := if n < 13 then n else n + 1;
    assert code in {0, 1, 2, 3, 4, 5, 6, 7, 8, 9, 10, 11, 12, 13, 14, 15, 16, 17, 18, 19, 20, 21, 22, 23, 24, 25, 26};
  }

  /** Distinct lattice cells give distinct points of a proper box, and the
      centre cell gives the centre of the sphere. */
  lemma LatticePointInjective(s: Shape, c1: Cell, c2: Cell)
    requires s.Proper() && InLattice(c1) && InLattice(c2)
    ensures LatticePoint(s, c1) == LatticePoint(s, c2) <==> c1 == c2
    ensures LatticePoint(s, Cell(0, 0, 0)) == s.Centre()
  {
  }

  /** Which sphere node points in the direction with a given cell code. */
  function SphereNodeOfCode(code: int): int
  {
    match code
    case 0 => 2 case 1 => 3 case 2 => 4 case 3 => 1 case 4 => 0 case 5 => 5
    case 6 => 8 case 7 => 7 case 8 => 6 case 9 => 10 case 10 => 11 case 11 => 12
    case 12 => 9 case 14 => 13 case 15 => 16 case 16 => 15 case 17 => 14 case 18 => 18
    case 19 => 19 case 20 => 20 case 21 => 17 case 22 => 25 case 23 => 21 case 24 => 24
    case 25 => 23 case 26 => 22
    case _ => -1
  }

  predicate SphereNodeOk(n: nat)
    requires n < NodeCount - BoxNodeCount
  {
    var c := SphereNodeDirection(n);
    InLattice(c) && c != Cell(0, 0, 0) && SphereNodeOfCode(CellCode(c)) == n
  }

  /** The sphere nodes point in 26 distinct directions: every cell of the
      lattice but the centre. */
  lemma SphereDirectionsDistinct()
    ensures forall n | 0 <= n < NodeCount - BoxNodeCount ::
      InLattice(SphereNodeDirection(n)) && SphereNodeDirection(n) != Cell(0, 0, 0)
    ensures forall n, m | 0 <= n < m < NodeCount - BoxNodeCount ::
      SphereNodeDirection(n) != SphereNodeDirection(m)
  {
    forall n | 0 <= n < NodeCount - BoxNodeCount
      ensures SphereNodeOk(n)
    {
      assert n in {0, 1, 2, 3, 4, 5, 6, 7, 8, 9, 10, 11, 12, 13, 14, 15, 16, 17, 18, 19, 20, 21, 22, 23, 24, 25};
    }
    forall n, m | 0 <= n < m < NodeCount - BoxNodeCount
      ensures SphereNodeDirection(n) != SphereNodeDirection(m)
    {
      assert SphereNodeOk(n) && SphereNodeOk(m);
    }
  }

  /** The eight corners of a block are among the 52 nodes and pairwise
      distinct. */
  predicate WellFormedCorners(h: Hex)
  {
    h.c0 < NodeCount && h.c1 < NodeCount && h.c2 < NodeCount && h.c3 < NodeCount &&
    h.c4 < NodeCount && h.c5 < NodeCount && h.c6 < NodeCount && h.c7 < NodeCount &&
    h.c0 != h.c1 && h.c0 != h.c2 && h.c0 != h.c3 && h.c0 != h.c4 && h.c0 != h.c5 && h.c0 != h.c6 && h.c0 != h.c7 &&
    h.c1 != h.c2 && h.c1 != h.c3 && h.c1 != h.c4 && h.c1 != h.c5 && h.c1 != h.c6 && h.c1 != h.c7 &&
    h.c2 != h.c3 && h.c2 != h.c4 && h.c2 != h.c5 && h.c2 != h.c6 && h.c2 != h.c7 &&
    h.c3 != h.c4 && h.c3 != h.c5 && h.c3 != h.c6 && h.c3 != h.c7 &&
    h.c4 != h.c5 && h.c4 != h.c6 && h.c4 != h.c7 &&
    h.c5 != h.c6 && h.c5 != h.c7 &&
    h.c6 != h.c7
  }

  /** `nr` is the size along exactly one axis; the two other axes keep
      their own parameter: nx along x, ny along y, nz along z. */
  predicate RadialSizes(b: BlockSpec)
  {
    b.NrCount() == 1 &&
    (b.sx == NR || b.sx == NX) && (b.sy == NR || b.sy == NY) && (b.sz == NR || b.sz == NZ)
  }

  predicate BlockOk(b: BlockSpec)
  {
    WellFormedCorners(b.corners) && RadialSizes(b)
  }

  /** Every block names eight distinct corners among the 52 nodes and has
      `nr` on exactly one axis. */
  lemma BlocksWellFormed()
    ensures forall b | 0 <= b < BlockCount :: BlockOk(Block(b))
  {
    forall b | 0 <= b < BlockCount
      ensures BlockOk(Block(b))
    {
      assert b in {0, 1, 2, 3, 4, 5, 6, 7, 8, 9, 10, 11, 12, 13, 14, 15, 16, 17, 18, 19, 20, 21, 22, 23};
    }
  }

  /** One of the nodes is a box node and the other a sphere node. */
  predicate Spans(n0: nat, n1: nat)
  {
    IsBoxNode(n0) != IsBoxNode(n1)
  }

  /** Along its `nr` axis a block runs from the box to the sphere: each of
      its four edges along that axis joins a box node and a sphere node. */
  predicate RadialBlock(b: BlockSpec)
  {
    var h := b.corners;
    if b.sx == NR then Spans(h.c0, h.c1) && Spans(h.c3, h.c2) && Spans(h.c4, h.c5) && Spans(h.c7, h.c6)
    else if b.sy == NR then Spans(h.c0, h.c3) && Spans(h.c1, h.c2) && Spans(h.c4, h.c7) && Spans(h.c5, h.c6)
    else Spans(h.c0, h.c4) && Spans(h.c1, h.c5) && Spans(h.c2, h.c6) && Spans(h.c3, h.c7)
  }

  lemma BlocksRadial()
    ensures forall b | 0 <= b < BlockCount :: RadialBlock(Block(b))
  {
    forall b | 0 <= b < BlockCount
      ensures RadialBlock(Block(b))
    {
      assert b in {0, 1, 2, 3, 4, 5, 6, 7, 8, 9, 10, 11, 12, 13, 14, 15, 16, 17, 18, 19, 20, 21, 22, 23};
    }
  }

  /** The corners of face f of a block, in edge order: edge e of the face
      joins positions e and (e+1) mod 4. This is the multi-block
      generator's convention. */
  function FaceCorners(h: Hex, f: nat): (r: seq<nat>)
    requires f < 6
    ensures |r| == 4
  {
    match f
    case 0 => [h.c0, h.c1, h.c5, h.c4]
    case 1 => [h.c1, h.c2, h.c6, h.c5]
    case 2 => [h.c2, h.c3, h.c7, h.c6]
    case 3 => [h.c3, h.c0, h.c4, h.c7]
    case 4 => [h.c3, h.c2, h.c1, h.c0]
    case _ => [h.c4, h.c5, h.c6, h.c7]
  }

  /** All four corners of a face are box nodes, or all four are sphere
      nodes. */
  predicate FaceOn(q: seq<nat>, box: bool)
    requires |q| == 4
  {
    (IsBoxNode(q[0]) == box) && (IsBoxNode(q[1]) == box) && (IsBoxNode(q[2]) == box) && (IsBoxNode(q[3]) == box)
  }

  /** Face f is tagged exactly when it is one of the two faces bs and ss. */
  predicate TaggedOnlyAt(tags: seq<int>, f: nat, bs: nat, ss: nat)
    requires |tags| == 6 && f < 6
  {
    tags[f] != -1 <==> f == bs || f == ss
  }

  /** The block has exactly two tagged faces, across its `nr` axis from
      each other: one with a box tag t (0 <= t < 6) and one tagged t + 6. */
  predicate PairedTags(b: BlockSpec, tags: seq<int>)
  {
    |tags| == 6 &&
    var bs, ss := BoxSlot(tags), SphereSlot(tags);
    bs < 6 && ss < 6 &&
    TaggedOnlyAt(tags, 0, bs, ss) && TaggedOnlyAt(tags, 1, bs, ss) && TaggedOnlyAt(tags, 2, bs, ss) &&
    TaggedOnlyAt(tags, 3, bs, ss) && TaggedOnlyAt(tags, 4, bs, ss) && TaggedOnlyAt(tags, 5, bs, ss) &&
    tags[ss] == tags[bs] + 6 &&
    FaceAxis(bs) == b.RadialAxis() && FaceAxis(ss) == b.RadialAxis()
  }

  /** The face with the box tag lies on the box, the face with the sphere
      tag on the sphere. */
  predicate TaggedOnSurfaces(b: BlockSpec, tags: seq<int>)
    requires |tags| == 6
  {
    var bs, ss := BoxSlot(tags), SphereSlot(tags);
    bs < 6 && ss < 6 &&
    FaceOn(FaceCorners(b.corners, bs), true) && FaceOn(FaceCorners(b.corners, ss), false)
  }

  predicate FaceTagUsed(t: int)
  {
    exists b, f | 0 <= b < BlockCount && 0 <= f < 6 :: FaceIds(b)[f] == t
  }

  /** Every block has one box face and the sphere face across from it. */
  lemma FaceTagsPaired()
    ensures forall b | 0 <= b < BlockCount :: PairedTags(Block(b), FaceIds(b))
  {
    forall b | 0 <= b < BlockCount
      ensures PairedTags(Block(b), FaceIds(b))
    {
      assert b in {0, 1, 2, 3, 4, 5, 6, 7, 8, 9, 10, 11, 12, 13, 14, 15, 16, 17, 18, 19, 20, 21, 22, 23};
    }
  }

  /** The tagged faces are where their tags say: on the box, or on the
      sphere. */
  lemma TaggedFacesOnSurfaces()
    ensures forall b | 0 <= b < BlockCount :: TaggedOnSurfaces(Block(b), FaceIds(b))
  {
    forall b | 0 <= b < BlockCount
      ensures TaggedOnSurfaces(Block(b), FaceIds(b))
    {
      assert b in {0, 1, 2, 3, 4, 5, 6, 7, 8, 9, 10, 11, 12, 13, 14, 15, 16, 17, 18, 19, 20, 21, 22, 23};
    }
  }

  /** The blocks use all twelve face tags. */
  lemma FaceTagsAllUsed()
    ensures forall t | 0 <= t < 12 :: FaceTagUsed(t)
  {
    forall t | 0 <= t < 12
      ensures FaceTagUsed(t)
    {
      var b := [5, 7, 9, 4, 0, 20, 5, 7, 9, 4, 0, 20][t];
      var f := [0, 1, 2, 3, 4, 5, 2, 3, 0, 1, 5, 4][t];
      assert FaceIds(b)[f] == t;
    }
  }

  predicate EdgeTagIn(t: int, lo: int, hi: int) { t == -1 || lo <= t < hi }

  /** F(i+1) is the box face of block i: the face with its box tag,
      with edge tags -1 or 0..11. */
  predicate BoxRowOk(i: nat)
    requires i < BlockCount
  {
    var row := BoxFaceEdges(i);
    row.block == i && row.face == BoxSlot(FaceIds(i)) &&
    EdgeTagIn(row.ids[0], 0, 12) && EdgeTagIn(row.ids[1], 0, 12) &&
    EdgeTagIn(row.ids[2], 0, 12) && EdgeTagIn(row.ids[3], 0, 12)
  }

  /** F(i+25) is the sphere face of block i: the face with its sphere tag,
      with edge tags -1 or 12..23. */
  predicate SphereRowOk(i: nat)
    requires i < BlockCount
  {
    var row := SphereFaceEdges(i);
    row.block == i && row.face == SphereSlot(FaceIds(i)) &&
    EdgeTagIn(row.ids[0], 12, 24) && EdgeTagIn(row.ids[1], 12, 24) &&
    EdgeTagIn(row.ids[2], 12, 24) && EdgeTagIn(row.ids[3], 12, 24)
  }

  predicate EdgeTagUsed(t: int)
  {
    exists i, e | 0 <= i < FaceRowCount && 0 <= e < 4 :: FaceEdges(i).ids[e] == t
  }

  /** A face row and edge that carry tag t. */
  function EdgeTagWitness(t: nat): (nat, nat)
    requires t < 24
  {
    match t
    case 0 => (0, 2) case 1 => (1, 1) case 2 => (2, 0) case 3 => (0, 3)
    case 4 => (13, 2) case 5 => (15, 2) case 6 => (17, 2) case 7 => (12, 2)
    case 8 => (4, 1) case 9 => (6, 1) case 10 => (8, 1) case 11 => (10, 1)
    case 12 => (24, 0) case 13 => (25, 1) case 14 => (26, 2) case 15 => (24, 3)
    case 16 => (37, 2) case 17 => (39, 2) case 18 => (41, 2) case 19 => (36, 2)
    case 20 => (28, 3) case 21 => (30, 3) case 22 => (32, 3) case _ => (34, 3)
  }

  /** Faces F1..F24 are the box faces of blocks 0..23, in order. */
  lemma BoxFaceRowsMatchFaceTags()
    ensures forall i | 0 <= i < BlockCount :: BoxRowOk(i)
  {
    forall i | 0 <= i < BlockCount
      ensures BoxRowOk(i)
    {
      assert i in {0, 1, 2, 3, 4, 5, 6, 7, 8, 9, 10, 11, 12, 13, 14, 15, 16, 17, 18, 19, 20, 21, 22, 23};
    }
  }

  /** Faces F25..F48 are the sphere faces of blocks 0..23, in order. */
  lemma SphereFaceRowsMatchFaceTags()
    ensures forall i | 0 <= i < BlockCount :: SphereRowOk(i)
  {
    forall i | 0 <= i < BlockCount
      ensures SphereRowOk(i)
    {
      assert i in {0, 1, 2, 3, 4, 5, 6, 7, 8, 9, 10, 11, 12, 13, 14, 15, 16, 17, 18, 19, 20, 21, 22, 23};
    }
  }

  lemma SphereFaceRowOk(i: nat)
    requires i < BlockCount
    ensures SphereRowOk(i)
  {
    SphereFaceRowsMatchFaceTags();
  }

  /** All 24 edge tags are used. */
  lemma EdgeTagsAllUsed()
    ensures forall t | 0 <= t < 24 :: EdgeTagUsed(t)
  {
    forall t | 0 <= t < 24
      ensures EdgeTagUsed(t)
    {
      var w := EdgeTagWitness(t);
      assert w.0 < FaceRowCount && w.1 < 4 && FaceEdges(w.0).ids[w.1] == t by {
        assert t in {0, 1, 2, 3, 4, 5, 6, 7, 8, 9, 10, 11, 12, 13, 14, 15, 16, 17, 18, 19, 20, 21, 22, 23};
      }
    }
  }


  /** Curved edge c comes strictly before d: by face, then by edge. */
  predicate Before(c: CurvedEdge, d: CurvedEdge)
  {
    c.face < d.face || (c.face == d.face && c.edge < d.edge)
  }

  /** The curved edges in the order the source sets them. */
  function CurvedEdgeTable(): (r: seq<CurvedEdge>)
    ensures |r| == CurvedEdgeCount
  {
    seq(CurvedEdgeCount, i requires 0 <= i < CurvedEdgeCount => CurvedEdgeAt(i))
  }

  /** The list is sorted by face and edge. */
  predicate CurvedEdgeOk(i: nat)
    requires i < CurvedEdgeCount
  {
    i + 1 < CurvedEdgeCount ==> Before(CurvedEdgeAt(i), CurvedEdgeAt(i + 1))
  }

  lemma CurvedEdgesSorted()
    ensures forall i | 0 <= i < CurvedEdgeCount :: CurvedEdgeOk(i)
  {
    forall i | 0 <= i < CurvedEdgeCount
      ensures CurvedEdgeOk(i)
    {
      assert i in {0, 1, 2, 3, 4, 5, 6, 7, 8, 9, 10, 11, 12, 13, 14, 15, 16, 17, 18, 19, 20, 21, 22, 23, 24, 25, 26, 27, 28, 29, 30, 31, 32, 33, 34, 35, 36, 37, 38, 39, 40, 41, 42, 43, 44, 45, 46, 47};
    }
  }

  predicate SortedEdges(s: seq<CurvedEdge>)
  {
    forall i | 0 <= i < |s| - 1 :: Before(s[i], s[i + 1])
  }

  /** In a sorted list every edge comes before all later ones. */
  lemma {:induction false} SortedPairwise(s: seq<CurvedEdge>, i: nat, j: nat)
    requires SortedEdges(s) && i < j < |s|
    ensures Before(s[i], s[j])
    decreases j - i
  {
    assert Before(s[i], s[i + 1]);
    if i + 1 < j {
      SortedPairwise(s, i + 1, j);
    }
  }

  /** No face edge is listed twice. */
  lemma CurvedEdgesDistinct()
    ensures forall i, j | 0 <= i < j < CurvedEdgeCount :: CurvedEdgeTable()[i] != CurvedEdgeTable()[j]
  {
    CurvedEdgesSorted();
    var s := CurvedEdgeTable();
    assert SortedEdges(s) by {
      forall i | 0 <= i < |s| - 1
        ensures Before(s[i], s[i + 1])
      {
        assert CurvedEdgeOk(i);
      }
    }
    forall i, j | 0 <= i < j < CurvedEdgeCount
      ensures s[i] != s[j]
    {
      SortedPairwise(s, i, j);
    }
  }

  /** Which `SetID` entry names a node, or -1. */
  function IdEntryOfNode(n: nat): int
  {
    match n
    case 0 => 0 case 2 => 1 case 8 => 2 case 6 => 3 case 17 => 4 case 19 => 5 case 25 => 6 case 23 => 7
    case 28 => 8 case 30 => 9 case 32 => 10 case 34 => 11 case 44 => 12 case 46 => 13 case 48 => 14 case 50 => 15
    case _ => -1
  }

  predicate NodeIdOk(k: nat)
    requires k < NodeIdCount
  {
    var n := NodeIdAt(k).node;
    NodeIdAt(k).id == k && n < NodeCount && IdEntryOfNode(n) == k &&
    (k < 8 ==> IsBoxNode(n) && IsLatticeCorner(BoxNodeCell(n))) &&
    (8 <= k ==>
      IsSphereNode(n) && NodeIdAt(k - 8).node < BoxNodeCount &&
      SphereNodeDirection(n - BoxNodeCount) == BoxNodeCell(NodeIdAt(k - 8).node))
  }

  lemma NodeIdRows()
    ensures forall k | 0 <= k < NodeIdCount :: NodeIdOk(k)
  {
    forall k | 0 <= k < NodeIdCount
      ensures NodeIdOk(k)
    {
      assert k in {0, 1, 2, 3, 4, 5, 6, 7, 8, 9, 10, 11, 12, 13, 14, 15};
    }
  }

  /** Sixteen nodes get ids 0..15 in table order: first the eight corners
      of the box, then the eight sphere nodes on the diagonals, id k + 8
      going to the sphere node in the direction of box corner k. */
  lemma NodeIdsWellFormed()
    ensures forall k | 0 <= k < NodeIdCount :: NodeIdAt(k).id == k && NodeIdAt(k).node < NodeCount
    ensures forall k, m | 0 <= k < m < NodeIdCount :: NodeIdAt(k).node != NodeIdAt(m).node
    ensures forall k | 0 <= k < 8 :: IsBoxNode(NodeIdAt(k).node) && IsLatticeCorner(BoxNodeCell(NodeIdAt(k).node))
    ensures forall k | 8 <= k < NodeIdCount ::
      IsSphereNode(NodeIdAt(k).node) && NodeCell(NodeIdAt(k).node) == NodeCell(NodeIdAt(k - 8).node)
  {
    NodeIdRows();
    forall k, m | 0 <= k < m < NodeIdCount
      ensures NodeIdAt(k).node != NodeIdAt(m).node
    {
      assert NodeIdOk(k) && NodeIdOk(m);
    }
  }

  // ---------------------------------------------------------------------
  // Generator state
  // ---------------------------------------------------------------------

  /** Where a generator node is: not yet placed, at an exact point, or on
      the sphere of the given centre and radius in the given direction. */
  datatype NodePosition = Unplaced | At(r: Vec3) | OnSphere(centre: Vec3, radius: real, dir: Cell)

  datatype MBNodeType = DefaultNodeType | ShapeNode

  datatype MBNode = MBNode(pos: NodePosition, ntype: MBNodeType, id: Option<int>)

  const FreshNode := MBNode(Unplaced, DefaultNodeType, None)

  /** The grading of a block; `BuildMesh` never sets one. */
  datatype Zoning = NoZoning | Zoned(gx: real, gy: real, gz: real, mirrorX: bool, mirrorY: bool, mirrorZ: bool)

  datatype MBBlock = MBBlock(pid: int, nodes: seq<nat>, sizes: seq<int>, zoning: Zoning)

  const FreshBlock := MBBlock(-1, [], [], NoZoning)

  /** One call into the multi-block generator or into the mesh it returns. */
  datatype GeneratorCall =
    | UpdateMB
    | SetBlockFaceID(block: nat, ids: seq<int>)
    | SetFaceEdgeID(block: nat, face: nat, ids: seq<int>)
    | SetEdge(block: nat, face: nat, edge: nat, edgeType: GItem.EdgeType, winding: int, cnode: nat)
    | BuildMB(nodes: seq<MBNode>, blocks: seq<MBBlock>)
    | UpdateMesh
    | AutoSmooth(angle: int)

  /** `std::vector::resize`: existing entries are kept, new ones are `fill`. */
  function Resize<T>(s: seq<T>, n: nat, fill: T): (r: seq<T>)
    ensures |r| == n
    ensures forall i | 0 <= i < n :: r[i] == if i < |s| then s[i] else fill
  {
    if n <= |s| then s[..n] else s + seq(n - |s|, _ => fill)
  }

  /** The 52 nodes with their positions written: box nodes at the table's
      points, sphere nodes on the sphere; every other field is kept. */
  function PlaceNodes(nodes: seq<MBNode>, s: Shape): (r: seq<MBNode>)
    requires |nodes| == NodeCount
    ensures |r| == NodeCount
    ensures forall n | 0 <= n < NodeCount :: r[n].ntype == nodes[n].ntype && r[n].id == nodes[n].id
  {
    seq(NodeCount, n requires 0 <= n < NodeCount =>
      if n < BoxNodeCount then nodes[n].(pos := At(BoxNodePosition(s, n)))
      else nodes[n].(pos := OnSphere(s.Centre(), s.radius, SphereNodeDirection(n - BoxNodeCount))))
  }

  /** `SetID` applied to each table entry in turn. */
  function AssignIds(nodes: seq<MBNode>, t: seq<NodeId>): (r: seq<MBNode>)
    requires forall k | 0 <= k < |t| :: t[k].node < |nodes|
    ensures |r| == |nodes|
    decreases |t|
  {
    if t == [] then nodes
    else AssignIds(nodes[t[0].node := nodes[t[0].node].(id := Some(t[0].id))], t[1..])
  }

  /** `SetID` changes ids only: positions and types stay, and so does the id
      of every node no entry names. */
  lemma {:induction false} AssignIdsKeeps(nodes: seq<MBNode>, t: seq<NodeId>)
    requires forall k | 0 <= k < |t| :: t[k].node < |nodes|
    ensures forall n | 0 <= n < |nodes| ::
      AssignIds(nodes, t)[n].pos == nodes[n].pos && AssignIds(nodes, t)[n].ntype == nodes[n].ntype
    ensures forall n | 0 <= n < |nodes| && (forall k | 0 <= k < |t| :: t[k].node != n) ::
      AssignIds(nodes, t)[n].id == nodes[n].id
    decreases |t|
  {
    if t != [] {
      var next := nodes[t[0].node := nodes[t[0].node].(id := Some(t[0].id))];
      assert forall k | 1 <= k < |t| :: t[k] == t[1..][k - 1];
      AssignIdsKeeps(next, t[1..]);
    }
  }

  /** The last entry that names a node decides its id. */
  lemma {:induction false} AssignIdsSets(nodes: seq<MBNode>, t: seq<NodeId>, k: nat)
    requires forall j | 0 <= j < |t| :: t[j].node < |nodes|
    requires k < |t| && forall m | k < m < |t| :: t[m].node != t[k].node
    ensures AssignIds(nodes, t)[t[k].node].id == Some(t[k].id)
    decreases |t|
  {
    var next := nodes[t[0].node := nodes[t[0].node].(id := Some(t[0].id))];
    assert forall j | 1 <= j < |t| :: t[j] == t[1..][j - 1];
    if k == 0 {
      AssignIdsKeeps(next, t[1..]);
    } else {
      AssignIdsSets(next, t[1..], k - 1);
    }
  }

  /** The 52 table nodes and the centre node, placed, before ids are set. */
  function PlacedNodes(prev: seq<MBNode>, s: Shape): (r: seq<MBNode>)
    ensures |r| == NodeCount + 1
  {
    PlaceNodes(Resize(prev, NodeCount, FreshNode), s) + [MBNode(At(Vec3(0.0, 0.0, s.depth * 0.5)), ShapeNode, None)]
  }

  /** The generator nodes after `BuildMesh`, starting from `prev`. */
  function BuiltNodes(prev: seq<MBNode>, s: Shape): (r: seq<MBNode>)
    ensures |r| == NodeCount + 1
  {
    AssignIds(PlacedNodes(prev, s), NodeIdTable())
  }

  /** The added node 52 is a shape node at the centre, and the box nodes
      sit on the lattice of the box. */
  lemma BuiltNodesPlaced(prev: seq<MBNode>, s: Shape)
    ensures BuiltNodes(prev, s)[CNode].pos == At(s.Centre()) && BuiltNodes(prev, s)[CNode].ntype == ShapeNode
    ensures forall n | 0 <= n < BoxNodeCount :: BuiltNodes(prev, s)[n].pos == At(LatticePoint(s, BoxNodeCell(n)))
  {
    AssignIdsKeeps(PlacedNodes(prev, s), NodeIdTable());
    BoxNodesOnLattice(s);
  }

  /** The sphere nodes sit on the sphere about the centre, each in the
      direction of the box node it is paired with, and the 52 table nodes
      keep their node types. */
  lemma BuiltSphereNodesPlaced(prev: seq<MBNode>, s: Shape)
    ensures forall n | BoxNodeCount <= n < NodeCount ::
      BuiltNodes(prev, s)[n].pos == OnSphere(s.Centre(), s.radius, NodeCell(n))
    ensures forall n | 0 <= n < NodeCount ::
      BuiltNodes(prev, s)[n].ntype == (if n < |prev| then prev[n].ntype else DefaultNodeType)
  {
    AssignIdsKeeps(PlacedNodes(prev, s), NodeIdTable());
  }

  /** Node `NodeIdAt(k).node` gets id k. */
  lemma BuiltNodesIdentified(prev: seq<MBNode>, s: Shape)
    ensures forall k | 0 <= k < NodeIdCount :: BuiltNodes(prev, s)[NodeIdAt(k).node].id == Some(k)
  {
    var p := PlacedNodes(prev, s);
    var t := NodeIdTable();
    NodeIdsWellFormed();
    forall k | 0 <= k < NodeIdCount
      ensures BuiltNodes(prev, s)[NodeIdAt(k).node].id == Some(k)
    {
      AssignIdsSets(p, t, k);
    }
  }

  /** The centre node and the nodes not in the table keep the id they had. */
  lemma BuiltNodesKeepIds(prev: seq<MBNode>, s: Shape)
    ensures BuiltNodes(prev, s)[CNode].id == None
    ensures forall n | 0 <= n < NodeCount && (forall k | 0 <= k < NodeIdCount :: NodeIdAt(k).node != n) ::
      BuiltNodes(prev, s)[n].id == (if n < |prev| then prev[n].id else None)
  {
    var p := PlacedNodes(prev, s);
    var t := NodeIdTable();
    AssignIdsKeeps(p, t);
  }

  // ---------------------------------------------------------------------
  // Blocks and generator calls
  // ---------------------------------------------------------------------

  function SizeValue(p: SizeParam, nx: int, ny: int, nz: int, nr: int): int
  {
    match p case NX => nx case NY => ny case NZ => nz case NR => nr
  }

  /** `SetSizes` of a block, with the mesh parameters in place of their names. */
  function Sizes(b: BlockSpec, nx: int, ny: int, nz: int, nr: int): seq<int>
  {
    [SizeValue(b.sx, nx, ny, nz, nr), SizeValue(b.sy, nx, ny, nz, nr), SizeValue(b.sz, nx, ny, nz, nr)]
  }

  /** The 24 blocks after `resize(24)` and the `SetID`, `SetNodes` and
      `SetSizes` calls on each. */
  function BuiltBlocks(prev: seq<MBBlock>, nx: int, ny: int, nz: int, nr: int): (r: seq<MBBlock>)
    ensures |r| == BlockCount
  {
    var blocks := Resize(prev, BlockCount, FreshBlock);
    seq(BlockCount, b requires 0 <= b < BlockCount =>
      blocks[b].(pid := 0, nodes := Block(b).corners.Seq(), sizes := Sizes(Block(b), nx, ny, nz, nr)))
  }

  /** Every block is in part 0 with eight distinct corners among the 52
      nodes; its sizes are `nr` along the radial axis and nx, ny, nz along
      the others; the zoning is never set, so the bias `gr` and its mirror
      flag `br` have no effect. */
  lemma BuiltBlocksShape(prev: seq<MBBlock>, nx: int, ny: int, nz: int, nr: int)
    ensures forall b | 0 <= b < BlockCount ::
      var r := BuiltBlocks(prev, nx, ny, nz, nr)[b];
      r.pid == 0 && r.nodes == Block(b).corners.Seq() && WellFormedCorners(Block(b).corners) &&
      r.sizes == [if Block(b).RadialAxis() == 0 then nr else nx,
                  if Block(b).RadialAxis() == 1 then nr else ny,
                  if Block(b).RadialAxis() == 2 then nr else nz] &&
      r.zoning == (if b < |prev| then prev[b].zoning else NoZoning)
  {
    BlocksWellFormed();
  }

  /** `SetBlockFaceID` for blocks b1..b24. */
  function FaceIdCalls(): (r: seq<GeneratorCall>)
    ensures |r| == BlockCount
  {
    seq(BlockCount, b requires 0 <= b < BlockCount => SetBlockFaceID(b, FaceIds(b)))
  }

  /** `SetFaceEdgeID` for faces F1..F48. */
  function FaceEdgeCalls(): (r: seq<GeneratorCall>)
    ensures |r| == FaceRowCount
  {
    seq(FaceRowCount, i requires 0 <= i < FaceRowCount =>
      SetFaceEdgeID(FaceEdges(i).block, FaceEdges(i).face, FaceEdges(i).ids))
  }

  /** `GetFaceEdge(F, e).SetEdge(EDGE_3P_CIRC_ARC, 1, cnode)` for each
      curved edge: face F is resolved to its block and face through the
      `SetFaceEdgeID` table. */
  function CurvedEdgeCalls(): (r: seq<GeneratorCall>)
    ensures |r| == CurvedEdgeCount
  {
    seq(CurvedEdgeCount, i requires 0 <= i < CurvedEdgeCount =>
      var ce := CurvedEdgeAt(i);
      var row := FaceEdges(ce.face - 1);
      SetEdge(row.block, row.face, ce.edge, GItem.Edge3PCircArc, 1, CNode))
  }

  /** Every curved edge is a three-point circular arc about the centre
      node, on an edge of the sphere face of its block. */
  lemma CurvedEdgeCallsOnSphere()
    ensures forall i | 0 <= i < CurvedEdgeCount ::
      var c := CurvedEdgeCalls()[i];
      c.SetEdge? && c.edgeType == GItem.Edge3PCircArc && c.winding == 1 && c.cnode == CNode &&
      c.block < BlockCount && c.face == SphereSlot(FaceIds(c.block)) && c.edge < 4
  {
    forall i | 0 <= i < CurvedEdgeCount
      ensures var c := CurvedEdgeCalls()[i];
        c.block < BlockCount && c.face == SphereSlot(FaceIds(c.block))
    {
      SphereFaceRowOk(CurvedEdgeAt(i).face - BlockCount - 1);
    }
  }

  lemma CurvedEdgesDiffer(i: nat, j: nat)
    requires i < j < CurvedEdgeCount
    ensures CurvedEdgeAt(i) != CurvedEdgeAt(j)
  {
    CurvedEdgesDistinct();
    assert CurvedEdgeTable()[i] != CurvedEdgeTable()[j];
  }

  /** No edge index of a block's sphere face is made an arc twice. This
      compares the edges as their faces name them, not as node pairs. */
  lemma CurvedEdgeCallsDistinct()
    ensures forall i, j | 0 <= i < j < CurvedEdgeCount ::
      CurvedEdgeCalls()[i].block != CurvedEdgeCalls()[j].block || CurvedEdgeCalls()[i].edge != CurvedEdgeCalls()[j].edge
  {
    forall i, j | 0 <= i < j < CurvedEdgeCount
      ensures CurvedEdgeCalls()[i].block != CurvedEdgeCalls()[j].block || CurvedEdgeCalls()[i].edge != CurvedEdgeCalls()[j].edge
    {
      var c, d := CurvedEdgeAt(i), CurvedEdgeAt(j);
      CurvedEdgesDiffer(i, j);
      SphereFaceRowOk(c.face - BlockCount - 1);
      SphereFaceRowOk(d.face - BlockCount - 1);
    }
  }

  /** The trace after `BuildMesh`, given the trace `prev` before it and the
      nodes and blocks it hands to the generator. */
  function MeshCalls(prev: seq<GeneratorCall>, nodes: seq<MBNode>, blocks: seq<MBBlock>): (r: seq<GeneratorCall>)
  {
    prev + [UpdateMB] + FaceIdCalls() + FaceEdgeCalls() + CurvedEdgeCalls()
    + [BuildMB(nodes, blocks), UpdateMesh, AutoSmooth(60)]
  }

  /** `BuildMesh` extends the trace: first `UpdateMB`, then the 24 face tag
      calls, the 48 edge tag calls and the 48 arcs, and last the generation
      itself with the final nodes and blocks, the mesh update and
      smoothing at 60 degrees. */
  lemma MeshCallsOrder(prev: seq<GeneratorCall>, nodes: seq<MBNode>, blocks: seq<MBBlock>)
    ensures var r := MeshCalls(prev, nodes, blocks);
      var p := |prev|;
      |r| == p + 1 + BlockCount + FaceRowCount + CurvedEdgeCount + 3 &&
      IsPrefix(prev, r) && r[p] == UpdateMB &&
      r[p + 1..p + 1 + BlockCount] == FaceIdCalls() &&
      r[p + 1 + BlockCount..p + 1 + BlockCount + FaceRowCount] == FaceEdgeCalls() &&
      r[p + 1 + BlockCount + FaceRowCount..|r| - 3] == CurvedEdgeCalls() &&
      r[|r| - 3..] == [BuildMB(nodes, blocks), UpdateMesh, AutoSmooth(60)]
  {
  }

  // ---------------------------------------------------------------------
  // The mesher object
  // ---------------------------------------------------------------------

  class FESphereInBox {
    /** The sphere-in-box object, when there is one. */
    var po: Option<Shape>
    /** The mesh parameters. */
    var nx: int
    var ny: int
    var nz: int
    var nr: int
    var gr: real
    var br: bool
    /** The generator's node and block lists. */
    var mbNodes: seq<MBNode>
    var mBlocks: seq<MBBlock>
    /** The generator calls made so far. */
    var calls: seq<GeneratorCall>

    /** The mesher of an object: nx = ny = nz = 5, nr = 1, no radial bias
        (gr = 1), not mirrored. */
    constructor (s: Shape)
      ensures po == Some(s)
      ensures nx == 5 && ny == 5 && nz == 5 && nr == 1 && gr == 1.0 && !br
      ensures mbNodes == [] && mBlocks == [] && calls == []
    {
      po := Some(s);
      nx, ny, nz, nr := 5, 5, 5, 1;
      gr, br := 1.0, false;
      mbNodes, mBlocks, calls := [], [], [];
    }

    /** The sixteen `SetID` calls on the generator nodes. */
    method SetNodeIds()
      requires |mbNodes| == NodeCount + 1
      modifies this
      ensures mbNodes == AssignIds(old(mbNodes), NodeIdTable())
      ensures po == old(po) && nx == old(nx) && ny == old(ny) && nz == old(nz) && nr == old(nr)
      ensures gr == old(gr) && br == old(br) && mBlocks == old(mBlocks) && calls == old(calls)
    {
      mbNodes := AssignIds(mbNodes, NodeIdTable());
    }

    /** Lays out the 53 nodes and 24 blocks of the sphere in the box and
        hands them to the generator. */
    method BuildMesh()
      requires po.Some?
      modifies this
      ensures po == old(po) && nx == old(nx) && ny == old(ny) && nz == old(nz) && nr == old(nr)
      ensures gr == old(gr) && br == old(br)
      ensures mbNodes == BuiltNodes(old(mbNodes), po.value)
      ensures mBlocks == BuiltBlocks(old(mBlocks), nx, ny, nz, nr)
      ensures calls == MeshCalls(old(calls), mbNodes, mBlocks)
    {
      var s := po.value;
      mbNodes := PlacedNodes(mbNodes, s);
      mBlocks := BuiltBlocks(mBlocks, nx, ny, nz, nr);
      calls := calls + [UpdateMB] + FaceIdCalls() + FaceEdgeCalls() + CurvedEdgeCalls();
      SetNodeIds();
      calls := calls + [BuildMB(mbNodes, mBlocks), UpdateMesh, AutoSmooth(60)];
    }
  }
}
