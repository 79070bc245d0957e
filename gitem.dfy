/** Geometric items of a geometry object: nodes, edges, faces and parts
    (GeomLib/GItem.cpp). Each item records its state flags, a global and a
    local id, its name and the object that owns it. */
module GItem {
  import opened Base

  /** The identity of an item's owning object (`m_po`). An owner that is a
      `GObject` may carry a finite-element mesh; any other `GBaseObject`
      cannot. */
  datatype Owner = NoOwner | OtherObject(oid: nat) | GeomObject(oid: nat, mesh: Option<FEMesh>)

  /** The part of a finite-element mesh that `GetFEEdgeSet` reads: the
      geometric edge id (`m_gid`) of every mesh edge, by edge index. */
  datatype FEMesh = FEMesh(edgeGids: seq<int>)

  datatype NodeType = NodeUnknown | NodeShape

  /** The curve kind of an edge. */
  datatype EdgeType = EdgeUnknown | EdgeLine | EdgeYArc | EdgeZArc | Edge3PCircArc | Edge3PArc

  datatype FaceType = FaceUnknown | FaceOther(code: int)

  /** The part of an edge that equality and evaluation look at: its kind,
      its two end nodes and its control node. */
  datatype EdgeCurve = EdgeCurve(ntype: EdgeType, node0: int, node1: int, cnode: int)

  /** `GEdge::operator==`, with `a` the edge on the left and `b` the one on
      the right. */
  predicate SameEdge(a: EdgeCurve, b: EdgeCurve)
    ensures SameEdge(a, b) ==> a.ntype == b.ntype && a.ntype != EdgeUnknown
    ensures a.ntype == EdgeLine && b.ntype == EdgeLine ==>
      (SameEdge(a, b) <==> {a.node0, a.node1} <= {b.node0, b.node1})
    ensures a.ntype == b.ntype && a.ntype in {EdgeYArc, EdgeZArc} ==>
      (SameEdge(a, b) <==> (a.node0, a.node1) == (b.node0, b.node1))
    ensures a.ntype == b.ntype && a.ntype in {Edge3PCircArc, Edge3PArc} ==>
      (SameEdge(a, b) <==> (a.node0, a.node1, a.cnode) == (b.node0, b.node1, b.cnode))
  {
    if b.ntype != a.ntype then false
    else
      match a.ntype
      case EdgeLine =>
        (a.node0 == b.node0 || a.node0 == b.node1) && (a.node1 == b.node0 || a.node1 == b.node1)
      case EdgeYArc => a.node0 == b.node0 && a.node1 == b.node1
      case EdgeZArc => a.node0 == b.node0 && a.node1 == b.node1
      case Edge3PCircArc => a.node0 == b.node0 && a.node1 == b.node1 && a.cnode == b.cnode
      case Edge3PArc => a.node0 == b.node0 && a.node1 == b.node1 && a.cnode == b.cnode
      case EdgeUnknown => false
  }

  /** Every edge of a known kind equals itself; an edge of unknown kind
      equals nothing, itself included. */
  lemma SameEdgeReflexive(a: EdgeCurve)
    ensures SameEdge(a, a) <==> a.ntype != EdgeUnknown
  {
  }

  /** Reversing a line edge keeps it equal, in both directions. */
  lemma LineEqualityIgnoresDirection(n0: int, n1: int, c0: int, c1: int)
    ensures SameEdge(EdgeCurve(EdgeLine, n0, n1, c0), EdgeCurve(EdgeLine, n1, n0, c1))
    ensures SameEdge(EdgeCurve(EdgeLine, n1, n0, c1), EdgeCurve(EdgeLine, n0, n1, c0))
  {
  }

  /** For line edges whose two ends differ, the rule is symmetric and means
      that both edges join the same pair of nodes. */
  lemma LineEqualityOnProperEdges(a: EdgeCurve, b: EdgeCurve)
    requires a.ntype == EdgeLine && b.ntype == EdgeLine
    requires a.node0 != a.node1 && b.node0 != b.node1
    ensures SameEdge(a, b) <==> {a.node0, a.node1} == {b.node0, b.node1}
    ensures SameEdge(a, b) <==> SameEdge(b, a)
  {
    if SameEdge(a, b) {
      assert a.node0 in {b.node0, b.node1} && a.node1 in {b.node0, b.node1};
      assert b.node0 in {a.node0, a.node1};
      assert b.node1 in {a.node0, a.node1};
    }
  }

  /** The line rule only checks that each left end occurs among the right
      ends, so a line whose two ends coincide equals a longer line, but not
      the other way round. */
  lemma LineEqualityOnDegenerateEdge()
    ensures SameEdge(EdgeCurve(EdgeLine, 1, 1, -1), EdgeCurve(EdgeLine, 1, 2, -1))
    ensures !SameEdge(EdgeCurve(EdgeLine, 1, 2, -1), EdgeCurve(EdgeLine, 1, 1, -1))
  {
  }

  /** The Y- and Z-arc rule ignores the control node. */
  lemma AxisArcIgnoresControlNode(t: EdgeType, n0: int, n1: int, c0: int, c1: int)
    requires t == EdgeYArc || t == EdgeZArc
    ensures SameEdge(EdgeCurve(t, n0, n1, c0), EdgeCurve(t, n0, n1, c1))
  {
  }

  /** `GEdge::Point` clamps its parameter into [0, 1]. */
  function Clamp(l: real): (r: real)
    ensures 0.0 <= r <= 1.0
    ensures 0.0 <= l <= 1.0 ==> r == l
    ensures l < 0.0 ==> r == 0.0
    ensures l > 1.0 ==> r == 1.0
  {
    if l < 0.0 then 0.0 else if l > 1.0 then 1.0 else l
  }

  /** One coordinate of `r0 * (1 - l) + r1 * l`. */
  function Mix(a: real, b: real, l: real): real
  {
    a * (1.0 - l) + b * l
  }

  /** `r0 * (1 - l) + r1 * l`. */
  function Lerp(r0: Vec3, r1: Vec3, l: real): Vec3
  {
    Vec3(Mix(r0.x, r1.x, l), Mix(r0.y, r1.y, l), Mix(r0.z, r1.z, l))
  }

  lemma ProductNonNegative(u: real, v: real)
    requires u >= 0.0 && v >= 0.0
    ensures u * v >= 0.0
  {
  }

  /** v lies between a and b, whichever is smaller. */
  predicate Between(v: real, a: real, b: real)
  {
    if a <= b then a <= v <= b else b <= v <= a
  }

  /** One coordinate of a point between `a` and `b` lies between them. */
  lemma MixBetween(a: real, b: real, l: real)
    requires 0.0 <= l <= 1.0
    ensures Between(Mix(a, b, l), a, b)
  {
    var t := Mix(a, b, l);
    if a <= b {
      ProductNonNegative(l, b - a);
      ProductNonNegative(1.0 - l, b - a);
      assert t == a + l * (b - a) == b - (1.0 - l) * (b - a);
    } else {
      ProductNonNegative(l, a - b);
      ProductNonNegative(1.0 - l, a - b);
      assert t == a - l * (a - b) == b + (1.0 - l) * (a - b);
    }
  }

  /** The line branch of `GEdge::Point`: the point at parameter `l` of the
      straight edge between the owner's nodes `node0` and `node1`, whose local
      positions are given by `pos`. The arc branches are not modelled and give
      `None`, as does an edge of any other kind. */
  function EdgePoint(c: EdgeCurve, l: real, pos: seq<Vec3>): (p: Option<Vec3>)
    requires c.ntype == EdgeLine ==> 0 <= c.node0 < |pos| && 0 <= c.node1 < |pos|
    ensures p.Some? <==> c.ntype == EdgeLine
    ensures p.Some? && l <= 0.0 ==> p.value == pos[c.node0]
    ensures p.Some? && l >= 1.0 ==> p.value == pos[c.node1]
  {
    if c.ntype == EdgeLine then Some(Lerp(pos[c.node0], pos[c.node1], Clamp(l)))
    else None
  }

  /** Every point of a line edge lies in the box spanned by its two ends. */
  lemma EdgePointBetweenEnds(c: EdgeCurve, l: real, pos: seq<Vec3>)
    requires c.ntype == EdgeLine && 0 <= c.node0 < |pos| && 0 <= c.node1 < |pos|
    ensures var p := EdgePoint(c, l, pos).value;
      var a := pos[c.node0]; var b := pos[c.node1];
      Between(p.x, a.x, b.x) && Between(p.y, a.y, b.y) && Between(p.z, a.z, b.z)
  {
    var a, b, t := pos[c.node0], pos[c.node1], Clamp(l);
    MixBetween(a.x, b.x, t);
    MixBetween(a.y, b.y, t);
    MixBetween(a.z, b.z, t);
  }

  /** The indices, in ascending order, of the mesh edges whose geometric id
      is `lid`. */
  function MatchingEdges(gids: seq<int>, lid: int): (r: seq<nat>)
    ensures forall k :: 0 <= k < |r| ==> r[k] < |gids| && gids[r[k]] == lid
    ensures forall i :: 0 <= i < |gids| && gids[i] == lid ==> i in r
    ensures forall k, m :: 0 <= k < m < |r| ==> r[k] < r[m]
  {
    if |gids| == 0 then []
    else
      var n := |gids| - 1;
      MatchingEdges(gids[..n], lid) + (if gids[n] == lid then [n] else [])
  }

  /** What `GEdge::GetFEEdgeSet` can produce: a null pointer, a new edge set
      of the given owner holding mesh-edge indices, or a dereference of a null
      pointer. */
  datatype EdgeSetResult = NullEdgeSet | EdgeSet(oid: nat, items: seq<nat>) | NullDereference

  /** `GEdge::GetFEEdgeSet` as written: the null test is made on the owner
      pointer rather than on the result of the cast to `GObject`, so an owner
      that is not a `GObject` is dereferenced through a null pointer. */
  function FEEdgeSetAsWritten(owner: Owner, lid: int): (r: EdgeSetResult)
    ensures r.EdgeSet? ==> owner.GeomObject? && r.oid == owner.oid
  {
    match owner
    case NoOwner => NullEdgeSet
    case OtherObject(_) => NullDereference
    case GeomObject(oid, mesh) =>
      if mesh.None? then NullEdgeSet else EdgeSet(oid, MatchingEdges(mesh.value.edgeGids, lid))
  }

  /** As written, exactly the owners that are not a `GObject` reach the
      null dereference. */
  lemma FEEdgeSetAsWrittenDereferencesNull(owner: Owner, lid: int)
    ensures FEEdgeSetAsWritten(owner, lid) == NullDereference <==> owner.OtherObject?
  {
  }

  /** `GEdge::GetFEEdgeSet` with the null test made on the cast result. */
  function FEEdgeSet(owner: Owner, lid: int): (r: EdgeSetResult)
    ensures r != NullDereference
    ensures r.NullEdgeSet? <==> !(owner.GeomObject? && owner.mesh.Some?)
    ensures owner.GeomObject? ==> FEEdgeSetAsWritten(owner, lid) == r
  {
    match owner
    case GeomObject(oid, mesh) =>
      if mesh.None? then NullEdgeSet else EdgeSet(oid, MatchingEdges(mesh.value.edgeGids, lid))
    case _ => NullEdgeSet
  }

  /** A mesh-edge index is in the edge set exactly when that mesh edge
      carries the edge's local id. */
  lemma FEEdgeSetMembers(owner: Owner, lid: int, i: nat)
    requires owner.GeomObject? && owner.mesh.Some?
    ensures FEEdgeSet(owner, lid).EdgeSet?
    ensures FEEdgeSet(owner, lid).oid == owner.oid
    ensures i in FEEdgeSet(owner, lid).items <==>
      i < |owner.mesh.value.edgeGids| && owner.mesh.value.edgeGids[i] == lid
  {
  }

  /** One entry of a face's edge list; only the edge id `nid` is read here. */
  datatype FaceEdge = FaceEdge(nid: int)

  /** A named parameter value of a parameter container. */
  datatype Param = Param(name: string, value: real)

  datatype SectionKind = SolidSection | ShellSection

  class GNode {
    var r: Vec3
    var state: int
    var gid: int
    var lid: int
    var ntype: NodeType
    var ntag: int
    var owner: Owner
    var name: string

    /** `GNode()` (with `po == NoOwner`) and `GNode(po)`. */
    constructor (po: Owner)
      ensures owner == po && ntype == NodeUnknown
    {
      owner := po;
      ntype := NodeUnknown;
    }

    /** The copy constructor copies every field, the owner included. */
    constructor Copy(n: GNode)
      ensures r == n.r && state == n.state && gid == n.gid && lid == n.lid
      ensures ntype == n.ntype && ntag == n.ntag && name == n.name
      ensures owner == n.owner
    {
      r, state, gid, lid := n.r, n.state, n.gid, n.lid;
      ntype, ntag, owner, name := n.ntype, n.ntag, n.owner, n.name;
    }

    /** `operator=` copies every field except the owner. */
    method Assign(n: GNode)
      modifies this
      ensures r == old(n.r) && state == old(n.state) && gid == old(n.gid) && lid == old(n.lid)
      ensures ntype == old(n.ntype) && ntag == old(n.ntag) && name == old(n.name)
      ensures owner == old(owner)
    {
      r, state, gid, lid := n.r, n.state, n.gid, n.lid;
      ntype, ntag, name := n.ntype, n.ntag, n.name;
    }
  }

  class GEdge {
    var node0: int
    var node1: int
    var cnode: int
    var ntype: EdgeType
    var state: int
    var gid: int
    var lid: int
    var owner: Owner
    var name: string

    function Curve(): EdgeCurve
      reads this
    {
      EdgeCurve(ntype, node0, node1, cnode)
    }

    /** `operator==`. */
    predicate Equals(e: GEdge)
      reads this, e
      ensures Equals(e) ==> ntype == e.ntype && ntype != EdgeUnknown
    {
      SameEdge(Curve(), e.Curve())
    }

    /** `Point(l)`, given the local positions of the owner's nodes. */
    function Point(l: real, pos: seq<Vec3>): (p: Option<Vec3>)
      reads this
      requires ntype == EdgeLine ==> 0 <= node0 < |pos| && 0 <= node1 < |pos|
      ensures p.Some? <==> ntype == EdgeLine
      ensures p.Some? && l <= 0.0 ==> p.value == pos[node0]
      ensures p.Some? && l >= 1.0 ==> p.value == pos[node1]
    {
      EdgePoint(Curve(), l, pos)
    }

    constructor Copy(e: GEdge)
      ensures node0 == e.node0 && node1 == e.node1 && cnode == e.cnode && ntype == e.ntype
      ensures state == e.state && gid == e.gid && lid == e.lid && name == e.name
      ensures owner == e.owner
    {
      node0, node1, cnode, ntype := e.node0, e.node1, e.cnode, e.ntype;
      state, gid, lid, owner, name := e.state, e.gid, e.lid, e.owner, e.name;
    }

    method Assign(e: GEdge)
      modifies this
      ensures node0 == old(e.node0) && node1 == old(e.node1) && cnode == old(e.cnode)
      ensures ntype == old(e.ntype)
      ensures state == old(e.state) && gid == old(e.gid) && lid == old(e.lid) && name == old(e.name)
      ensures owner == old(owner)
      ensures Curve() == old(e.Curve())
    {
      node0, node1, cnode, ntype := e.node0, e.node1, e.cnode, e.ntype;
      state, gid, lid, name := e.state, e.gid, e.lid, e.name;
    }

    /** `GetFEEdgeSet`: walks the owner mesh's edges in index order and keeps
        those whose geometric id is this edge's local id. */
    method GetFEEdgeSet() returns (r: EdgeSetResult)
      ensures r == FEEdgeSet(owner, lid)
    {
      if !owner.GeomObject? || owner.mesh.None? {
        return NullEdgeSet;
      }
      var gids := owner.mesh.value.edgeGids;
      var items: seq<nat> := [];
      var i := 0;
      while i < |gids|
        invariant 0 <= i <= |gids|
        invariant items == MatchingEdges(gids[..i], lid)
      {
        assert gids[..i + 1][..i] == gids[..i];
        if gids[i] == lid {
          items := items + [i];
        }
        i := i + 1;
      }
      assert gids[..i] == gids;
      r := EdgeSet(owner.oid, items);
    }
  }

  class GFace {
    var ntype: FaceType
    var nPID: seq<int>
    var nodes: seq<int>
    var edges: seq<FaceEdge>
    var state: int
    var gid: int
    var lid: int
    var owner: Owner
    var name: string

    /** `GFace()` (with `po == NoOwner`) and `GFace(po)`: no adjacent parts,
        unknown type, no nodes and no edges. */
    constructor (po: Owner)
      ensures owner == po && nPID == [-1, -1, -1] && ntype == FaceUnknown
      ensures nodes == [] && edges == []
    {
      owner := po;
      nPID := [-1, -1, -1];
      ntype := FaceUnknown;
      nodes, edges := [], [];
    }

    constructor Copy(f: GFace)
      ensures ntype == f.ntype && nPID == f.nPID && nodes == f.nodes && edges == f.edges
      ensures state == f.state && gid == f.gid && lid == f.lid && name == f.name
      ensures owner == f.owner
    {
      ntype, nPID, nodes, edges := f.ntype, f.nPID, f.nodes, f.edges;
      state, gid, lid, owner, name := f.state, f.gid, f.lid, f.owner, f.name;
    }

    method Assign(f: GFace)
      modifies this
      ensures ntype == old(f.ntype) && nPID == old(f.nPID) && nodes == old(f.nodes)
      ensures edges == old(f.edges)
      ensures state == old(f.state) && gid == old(f.gid) && lid == old(f.lid) && name == old(f.name)
      ensures owner == old(owner)
    {
      ntype, nPID, nodes, edges := f.ntype, f.nPID, f.nodes, f.edges;
      state, gid, lid, name := f.state, f.gid, f.lid, f.name;
    }

    /** `HasEdge(nid)`: a linear search of the face's edge list. */
    method HasEdge(nid: int) returns (found: bool)
      ensures found <==> exists i :: 0 <= i < |edges| && edges[i].nid == nid
    {
      var i := 0;
      while i < |edges|
        invariant 0 <= i <= |edges|
        invariant forall k :: 0 <= k < i ==> edges[k].nid != nid
      {
        if edges[i].nid == nid {
          return true;
        }
        i := i + 1;
      }
      return false;
    }
  }

  /** A part's section: its formulation kind, the part it was made for
      (`m_part`), its parent in the parameter tree and its parameters. */
  class GPartSection {
    var kind: SectionKind
    var part: GPart?
    var parent: GPart?
    var params: seq<Param>

    constructor (k: SectionKind, pg: GPart?)
      ensures kind == k && part == pg && parent == pg
    {
      kind, part, parent := k, pg, pg;
    }

    /** `GSolidSection::Copy` and `GShellSection::Copy`: a new section of the
        same kind, made for no part, with the same parameters. */
    method Copy() returns (s: GPartSection)
      ensures fresh(s)
      ensures s.kind == kind && s.part == null && s.parent == null && s.params == params
    {
      s := new GPartSection(kind, null);
      s.params := params;
    }
  }

  class GPart {
    var matid: int
    var section: GPartSection?
    var params: seq<Param>
    var state: int
    var gid: int
    var lid: int
    var owner: Owner
    var name: string

    /** `GPart()` (with `po == NoOwner`) and `GPart(po)`. */
    constructor (po: Owner)
      ensures owner == po && matid == -1 && section == null
    {
      owner := po;
      matid := -1;
      section := null;
    }

    /** The copy constructor: a copy of the other part's section, if it has
        one, and no section otherwise (see `CopiedSectionAsWritten`). Unlike
        `operator=` it does not copy the parameters: the copy starts with
        the empty parameter list of a new item. */
    constructor Copy(p: GPart)
      ensures SlotOf(section) == SlotOf(p.section)
      ensures p.section == null ==> section == null
      ensures p.section != null ==>
        fresh(section) && section.kind == p.section.kind &&
        section.params == p.section.params && section.part == null
      ensures matid == p.matid && params == []
      ensures state == p.state && gid == p.gid && lid == p.lid && name == p.name
      ensures owner == p.owner
    {
      var s: GPartSection? := null;
      if p.section != null {
        s := p.section.Copy();
      }
      section := s;
      matid, params := p.matid, [];
      state, gid, lid, owner, name := p.state, p.gid, p.lid, p.owner, p.name;
    }

    /** `operator=` copies the material id, the parameters, the state, the
        ids and the name; it keeps this part's own section and owner. */
    method Assign(p: GPart)
      modifies this
      ensures matid == old(p.matid) && params == old(p.params)
      ensures state == old(p.state) && gid == old(p.gid) && lid == old(p.lid) && name == old(p.name)
      ensures section == old(section) && owner == old(owner)
    {
      matid, params := p.matid, p.params;
      state, gid, lid, name := p.state, p.gid, p.lid, p.name;
    }

    /** `SetSection`, corrected: nothing happens when `s` is already the
        section; otherwise `s` replaces it and, unless it is null, gets
        this part as its parent (see `SetSectionAsWritten`). */
    method SetSection(s: GPartSection?)
      modifies this, s
      ensures section == s
      ensures s == old(section) ==> s == null || s.parent == old(s.parent)
      ensures s != old(section) && s != null ==> s.parent == this
      ensures s != null ==> s.kind == old(s.kind) && s.part == old(s.part) && s.params == old(s.params)
      ensures matid == old(matid) && params == old(params) && owner == old(owner)
      ensures state == old(state) && gid == old(gid) && lid == old(lid) && name == old(name)
    {
      if section == s {
        return;
      }
      section := s;
      if s != null {
        s.parent := this;
      }
    }
  }

  /** What `SetSection(s)` does, as written, on a part whose section is
      `current`: it returns at once when `s` is already the section, and
      otherwise replaces the section and calls `SetParent` on `s`, even
      when `s` is null. */
  datatype SetSectionOutcome = SectionKept | SectionReplaced | SetParentOnNull

  function SetSectionAsWritten(p: GPart, s: GPartSection?): SetSectionOutcome
    reads p
  {
    if p.section == s then SectionKept
    else if s == null then SetParentOnNull
    else SectionReplaced
  }

  /** As written, clearing the section of a part that has one calls
      `SetParent` through a null pointer; every other call is one the
      corrected `GPart.SetSection` makes in the same way. */
  lemma SetSectionAsWrittenDereferencesNull(p: GPart, s: GPartSection?)
    ensures SetSectionAsWritten(p, s) == SetParentOnNull <==> s == null && p.section != null
  {
  }

  /** What the section pointer of a copy-constructed part holds: a copy of
      the other part's section, no section, or a pointer the constructor
      never initialises. */
  datatype SectionSlot = NoSection | CopyOfSection | Uninitialised

  /** The slot a section pointer stands for once it is set. */
  function SlotOf(s: GPartSection?): SectionSlot
  {
    if s == null then NoSection else CopyOfSection
  }

  /** The section slot of a copy of `p`, as the copy constructor is
      written: it sets the section only when `p` has one. */
  function CopiedSectionAsWritten(p: GPart): SectionSlot
    reads p
  {
    if p.section != null then CopyOfSection else Uninitialised
  }

  /** As written, copying a part without a section leaves the section
      uninitialised; the corrected `GPart.Copy`, whose section slot is
      `SlotOf(p.section)`, agrees with it exactly when `p` has a section. */
  lemma CopiedSectionAsWrittenUninitialised(p: GPart)
    ensures p.section == null ==> CopiedSectionAsWritten(p) == Uninitialised
    ensures CopiedSectionAsWritten(p) == SlotOf(p.section) <==> p.section != null
  {
  }
}
