# FEBioStudio core, modelled in Dafny

This project models five pieces of FEBioStudio, the pre- and post-processor of the FEBio finite-element solver, and proves properties about them:

- **The sphere-in-box mesher** (`FESphereInBox`). It lays out the multi-block description of a box with a spherical cavity: 52 nodes on the box and the sphere, plus a centre node; 24 hexahedral blocks; face and edge tags; and 48 circular arcs. It then hands that description to the multi-block generator. The model records every call made to the generator as a trace, and proves properties of the tables:
  - the box nodes sit on a 3×3×3 lattice;
  - the sphere nodes point in 26 distinct directions;
  - every block has eight distinct corners and runs from the box to the sphere along its radial axis;
  - each block has one box face and, opposite it, one sphere face;
  - every curved edge is an arc about the centre node, lying on a sphere face;
  - no block-face edge is listed twice among the curved edges;
  - the node ids are well formed.
- **Geometry items** (`GNode`, `GEdge`, `GFace`, `GPart`). This covers:
  - edge equality;
  - the line branch of `GEdge::Point`, with its clamping;
  - the mesh-edge set of an edge;
  - `GFace::HasEdge`;
  - the constructors, copy constructors and assignment operators;
  - `GPart::SetSection`.
- **The byte threshold image filter** (`ThresholdImageFilter`). It covers how the filter is named from a shared counter, its default bounds, and the in-place voxel loop of `ApplyFilter`.
- **The run dialog** (`CDlgRun`). It covers:
  - the default solver command line and a parser that reads it back;
  - the checks made before the dialog closes;
  - the launch configuration list.
- **The solver-class translation** (`CreateFSObject`). A solver class becomes a model component: the component takes the class's type string and one parameter per class parameter of a supported type. A QVariant list becomes a vector, and the parameter type codes are the solver's `FEBIO_PARAM_TYPE` enumeration.

The files are:

- `base.dfy`: `Option`, `Vec3` and `IsPrefix`.
- `sphere_in_box.dfy`: module `SphereInBox`.
- `gitem.dfy`: module `GItem`.
- `image_filter.dfy`: module `ImageFilter`.
- `dlg_run.dfy`: module `DlgRun`.
- `febio_interface.dfy`: module `FEBioInterface`.

Where the source works by changing objects, the model uses classes with `modifies` clauses: the mesher, the geometry items, the filter, the dialog and the model component. Each such method is proved against a function of its inputs, and the functions carry the lemmas. The generator, Qt and the solver library are outside the model. Their results enter as parameters, and their effects are recorded as values.

## Model

| member | source | states |
|---|---|---|
| SphereInBox.FESphereInBox.constructor | MeshTools/FESphereInBox.cpp:39-51 | The mesher of an object has nx = ny = nz = 5, nr = 1, bias gr = 1 and mirroring off, with empty generator lists. |
| SphereInBox.FESphereInBox.BuildMesh | MeshTools/FESphereInBox.cpp:54-446 | Requires the object, as the source asserts. The new nodes, blocks and trace are the built nodes, the built blocks, and the old trace extended by the face, edge, arc and build calls. The mesh parameters are unchanged. |
| SphereInBox.FESphereInBox.SetNodeIds | MeshTools/FESphereInBox.cpp:416-431 | The sixteen `SetID` calls change only the node ids, as `AssignIds` of the id table. |
| SphereInBox.Block | MeshTools/FESphereInBox.cpp:139-283 | Blocks b1..b24 as the source lists them. Every block takes `nr` along exactly one axis and keeps nx along x, ny along y and nz along z otherwise. |
| SphereInBox.FaceIds | MeshTools/FESphereInBox.cpp:289-312 | The `SetBlockFaceID` row of each block names all six of its faces. |
| SphereInBox.FaceEdges | MeshTools/FESphereInBox.cpp:315-363 | The `SetFaceEdgeID` rows F1..F48, each naming all four edges of its face. |
| SphereInBox.CurvedEdgeAt | MeshTools/FESphereInBox.cpp:366-413 | The 48 curved edges, each naming a sphere face F25..F48 and one of its four edges. |
| SphereInBox.NodeIdAt | MeshTools/FESphereInBox.cpp:416-431 | `SetID` entry k gives id k to one of the 52 nodes. |
| SphereInBox.BoxNodesOnLattice | MeshTools/FESphereInBox.cpp:84-109 | Box node n sits at the lattice point of its cell. The 26 cells are distinct lattice points other than the centre. |
| SphereInBox.BoxNodesApart | MeshTools/FESphereInBox.cpp:84-109 | In a box of positive width, height and depth no two box nodes are placed at the same point. |
| SphereInBox.CellCodeDecodes | MeshTools/FESphereInBox.cpp:84-109 | The cell code of box node n is n below 13 and n + 1 above. Box nodes run through the lattice in order and skip only the centre, so no two box nodes share a cell. |
| SphereInBox.SphereDirectionsDistinct | MeshTools/FESphereInBox.cpp:111-136 | The 26 sphere nodes point from the centre in 26 distinct lattice directions, each different from the centre. |
| SphereInBox.BlocksWellFormed | MeshTools/FESphereInBox.cpp:139-283 | Every block has eight distinct corners among the 52 nodes, and `nr` on exactly one axis. |
| SphereInBox.BlocksRadial | MeshTools/FESphereInBox.cpp:139-283 | Along its `nr` axis, each of a block's four edges joins a box node to a sphere node. |
| SphereInBox.FaceTagsPaired | MeshTools/FESphereInBox.cpp:289-312 | Every block has exactly two tagged faces, both across its `nr` axis. One carries a box tag t (0..5) and the other the sphere tag t + 6. |
| SphereInBox.TaggedFacesOnSurfaces | MeshTools/FESphereInBox.cpp:289-312 | The four corners of the face with the box tag are box nodes. The four corners of the face with the sphere tag are sphere nodes. |
| SphereInBox.FaceTagsAllUsed | MeshTools/FESphereInBox.cpp:289-312 | All twelve face tags 0..11 are used. |
| SphereInBox.BoxFaceRowsMatchFaceTags | MeshTools/FESphereInBox.cpp:315-363 | Face F(i+1) is the box-tagged face of block i + 1, for F1..F24. Its edge tags are -1 or in 0..11. |
| SphereInBox.SphereFaceRowsMatchFaceTags | MeshTools/FESphereInBox.cpp:315-363 | Face F(i+25) is the sphere-tagged face of block i + 1, for F25..F48. Its edge tags are -1 or in 12..23. |
| SphereInBox.EdgeTagsAllUsed | MeshTools/FESphereInBox.cpp:315-363 | All 24 edge tags are used on some face edge. |
| SphereInBox.CurvedEdgesSorted | MeshTools/FESphereInBox.cpp:366-413 | The 48 curved edges are listed in increasing face and edge order. |
| SphereInBox.CurvedEdgesDistinct | MeshTools/FESphereInBox.cpp:366-413 | No face edge is listed twice among the curved edges. |
| SphereInBox.CurvedEdgeCallsOnSphere | MeshTools/FESphereInBox.cpp:366-413 | Every arc call is a three-point circular arc with winding 1 about centre node 52, on an edge of the sphere face of its block. |
| SphereInBox.CurvedEdgeCallsDistinct | MeshTools/FESphereInBox.cpp:366-413 | No two arc calls name the same edge index of the same block. Edges that two sphere faces share are not compared. |
| SphereInBox.NodeIdsWellFormed | MeshTools/FESphereInBox.cpp:416-431 | Ids 0..15 go first to the eight box corners and then to the eight diagonal sphere nodes. Id k + 8 goes to the sphere node in the direction of box corner k. |
| SphereInBox.AssignIdsKeeps | MeshTools/FESphereInBox.cpp:416-431 | `SetID` changes no position or node type, and no id that no entry names. |
| SphereInBox.AssignIdsSets | MeshTools/FESphereInBox.cpp:416-431 | A node that a table entry names, with no later entry naming it, gets that entry's id. |
| SphereInBox.BuiltNodesPlaced | MeshTools/FESphereInBox.cpp:82-137 | Node 52, added last, is a shape node at the centre (0, 0, D/2). Box node n sits at the lattice point of its cell in the W×H×D box. |
| SphereInBox.BuiltSphereNodesPlaced | MeshTools/FESphereInBox.cpp:111-136 | Each sphere node lies on the sphere of radius R about the centre, in the direction of its lattice cell. The table nodes keep their node type, or take the default one when new. |
| SphereInBox.BuiltNodesIdentified | MeshTools/FESphereInBox.cpp:416-431 | After `BuildMesh` the node of id entry k carries id k, for all sixteen entries. |
| SphereInBox.BuiltNodesKeepIds | MeshTools/FESphereInBox.cpp:137 | The centre node gets no id. Nodes that no id entry names keep the id they had. |
| SphereInBox.BuiltBlocksShape | MeshTools/FESphereInBox.cpp:139-283 | The 24 blocks are in part 0, have well-formed corners and take `nr` along their radial axis and nx, ny, nz along the others. Their zoning is never set, so the bias `gr` and `br` have no effect. |
| SphereInBox.MeshCallsOrder | MeshTools/FESphereInBox.cpp:286-443 | The trace extends the old one with `UpdateMB`, then 24 face-tag, 48 edge-tag and 48 arc calls, then the build with the final nodes and blocks, the mesh update, and smoothing at 60 degrees. |
| GItem.SameEdge | GeomLib/GItem.cpp:143-169 | Equal edges have the same, known kind. Lines are equal exactly when each left end is one of the right ends. Y- and Z-arcs compare their ends in order. Three-point arcs also compare the control node. |
| GItem.SameEdgeReflexive | GeomLib/GItem.cpp:143-169 | An edge of a known kind equals itself. An edge of unknown kind equals nothing. |
| GItem.LineEqualityIgnoresDirection | GeomLib/GItem.cpp:148-151 | A line edge equals its reversal, in both directions. |
| GItem.LineEqualityOnProperEdges | GeomLib/GItem.cpp:145-151 | For line edges with distinct ends, equality holds exactly when both edges join the same node pair, and it is symmetric. |
| GItem.LineEqualityOnDegenerateEdge | GeomLib/GItem.cpp:148-151 | A line whose ends coincide equals a longer line, but not the other way round. |
| GItem.AxisArcIgnoresControlNode | GeomLib/GItem.cpp:152-155 | Y- and Z-arcs compare their ends in order and ignore the control node. |
| GItem.GEdge.Equals | GeomLib/GItem.cpp:143-169 | `operator==` on two edges is `SameEdge` of their curves: equal edges have the same, known kind. |
| GItem.Clamp | GeomLib/GItem.cpp:229-230 | The result lies in [0, 1]. Values inside are kept, values below become 0 and values above become 1. |
| GItem.EdgePoint | GeomLib/GItem.cpp:226-241 | A point exists exactly for a line edge. It is the first end for l <= 0 and the second end for l >= 1. |
| GItem.EdgePointBetweenEnds | GeomLib/GItem.cpp:235-241 | Over exact reals, every coordinate of a point on a line edge lies between the coordinates of the ends. |
| GItem.GEdge.Point | GeomLib/GItem.cpp:226-241 | An edge has a point exactly when it is a line. The point is its first node for l <= 0 and its second node for l >= 1. |
| GItem.MatchingEdges | GeomLib/GItem.cpp:350-355 | The kept indices are in range, carry the local id, include every such index, and are strictly increasing. |
| GItem.FEEdgeSetAsWritten | GeomLib/GItem.cpp:341-358 | The code as written: an edge set, when made, belongs to the owning geometry object, and an owner that is not a geometry object reaches the null dereference. |
| GItem.FEEdgeSet | GeomLib/GItem.cpp:341-358 | The corrected edge set is never a null dereference. It is null exactly when there is no geometry object with a mesh, and it agrees with the code as written for geometry objects. |
| GItem.FEEdgeSetMembers | GeomLib/GItem.cpp:341-358 | For a meshed object, a mesh edge is in the set exactly when its geometric id equals the edge's local id. |
| GItem.GEdge.GetFEEdgeSet | GeomLib/GItem.cpp:341-358 | The loop over the mesh edges returns `FEEdgeSet` of the owner and local id. |
| GItem.GNode.constructor | GeomLib/GItem.cpp:47-55 | A new node has the given owner and unknown type. |
| GItem.GNode.Copy | GeomLib/GItem.cpp:57-67 | The copy has every field of the other node, the owner included. |
| GItem.GNode.Assign | GeomLib/GItem.cpp:70-80 | Every field is copied except the owner, which is kept. |
| GItem.GEdge.Copy | GeomLib/GItem.cpp:113-125 | The type, end nodes, control node, ids, state, name and owner are copied. |
| GItem.GEdge.Assign | GeomLib/GItem.cpp:128-140 | The same fields are copied, and the owner is kept. |
| GItem.GFace.constructor | GeomLib/GItem.cpp:365-375 | A new face has no adjacent parts (-1, -1, -1), unknown type, and no nodes or edges. |
| GItem.GFace.Copy | GeomLib/GItem.cpp:377-391 | The type, part ids, nodes, edges, state, ids, name and owner are copied. |
| GItem.GFace.Assign | GeomLib/GItem.cpp:394-408 | The same fields are copied, and the owner is kept. |
| GItem.GFace.HasEdge | GeomLib/GItem.cpp:411-418 | The result is true exactly when some entry of the edge list has the id. |
| GItem.GPartSection.constructor | GeomLib/GItem.cpp:421-425 | A section of the given kind made for part `pg`, whose parent is `pg`; with no part it has no parent. |
| GItem.GPartSection.Copy | GeomLib/GItem.cpp:440-445 | A fresh section of the same kind and parameters, made for no part. `GShellSection::Copy` at 482-487 is the same. |
| GItem.GPart.constructor | GeomLib/GItem.cpp:492-501 | A new part has material -1 and no section. |
| GItem.GPart.Copy | GeomLib/GItem.cpp:518-529 | The corrected copy constructor. The copy has a fresh copy of the other part's section when it has one, and no section otherwise, so its slot is that of the other part's section. It copies the material, state, ids, name and owner, and starts with no parameters. |
| GItem.GPart.Assign | GeomLib/GItem.cpp:532-542 | The material, parameters, state, ids and name are copied. This part's section and owner are kept. |
| GItem.GPart.SetSection | GeomLib/GItem.cpp:508-514 | The corrected `SetSection`. The section becomes `s`. A new non-null section gets this part as its parent; setting the same section again changes nothing. The parameters, state, ids, name and owner of the part are unchanged. |
| GItem.FEEdgeSetAsWrittenDereferencesNull | GeomLib/GItem.cpp:343-347 | As written, the null dereference happens exactly for an owner that is not a geometry object. |
| GItem.SetSectionAsWrittenDereferencesNull | GeomLib/GItem.cpp:508-514 | As written, `SetParent` is called through a null pointer exactly when a part that has a section is given a null one. |
| GItem.CopiedSectionAsWrittenUninitialised | GeomLib/GItem.cpp:518-529 | As written, copying a part without a section leaves the section pointer uninitialised. The code as written agrees with the corrected `GPart.Copy` exactly when the other part has a section. |
| ImageFilter.FilterCounter.constructor | ImageLib/ImageFilter.cpp:145 | The shared counter starts at 1. |
| ImageFilter.FilterName | ImageLib/ImageFilter.cpp:145-150 | A name starts with "ThresholdImageFilter" and has at least two more characters. |
| ImageFilter.Digits | ImageLib/ImageFilter.cpp:148 | At least one decimal digit, a single one exactly below 10, and every character a digit. |
| ImageFilter.TwoDigits | ImageLib/ImageFilter.cpp:148 | `%02d` gives at least two characters, and exactly two below 100. |
| ImageFilter.DigitsRoundTrip | ImageLib/ImageFilter.cpp:148 | The decimal digits of n read back as n. |
| ImageFilter.FilterNameRoundTrip | ImageLib/ImageFilter.cpp:145-150 | A filter name is "ThresholdImageFilter" followed by the counter, which reads back from the rest. Counters below 100 add exactly two characters. |
| ImageFilter.FilterNamesDistinct | ImageLib/ImageFilter.cpp:145-150 | Filters made at different counter values get different names. |
| ImageFilter.ThresholdImageFilter.constructor | ImageLib/ImageFilter.cpp:142-154 | The name is made from the counter, the counter goes up by one, and the bounds are max = 255 and min = 0. |
| ImageFilter.ThresholdImageFilter.ApplyFilter | ImageLib/ImageFilter.cpp:156-190 | When min >= max nothing is written. Otherwise the first W·H·D output bytes are the thresholded source bytes, and the rest of the output is kept. A separate source buffer is left alone. |
| ImageFilter.Filtered | ImageLib/ImageFilter.cpp:172-183 | The image after the loop has the output's length. Every byte is kept, or, below the voxel count, copied from the source or zeroed. |
| ImageFilter.FilteredIdempotent | ImageLib/ImageFilter.cpp:172-183 | Filtering the filtered image again, in place, changes nothing. |
| ImageFilter.FilteredDefaultCopies | ImageLib/ImageFilter.cpp:152-153 | With the default bounds every voxel is copied unchanged. |
| ImageFilter.Threshold | ImageLib/ImageFilter.cpp:174-181 | A voxel keeps its value or becomes 0, and keeps it whenever it lies in [min, max]. |
| ImageFilter.ThresholdKeeps | ImageLib/ImageFilter.cpp:174-181 | A voxel is kept exactly when it lies in [min, max] or is already 0. Otherwise it becomes 0. |
| DlgRun.DefaultCommand | FEBioStudio/DlgRun.cpp:162-184 | The default command always starts with `-i $(Filename)`, and is exactly that when no option is set. |
| DlgRun.ParseCommand | FEBioStudio/DlgRun.cpp:162-184 | A line is read only when it starts with `-i $(Filename)`; that text alone reads as no options and no task. |
| DlgRun.DefaultCommandParts | FEBioStudio/DlgRun.cpp:162-184 | Read back, the default command has -g exactly when debugging and the config option exactly when a config file is given. It has a task part exactly when a task name is given: the name, a quote, a space and its task-file text. |
| DlgRun.TaskPartAmbiguous | FEBioStudio/DlgRun.cpp:175-180 | A task name that contains a quote and a space gives the same command as a shorter name with a longer file. |
| DlgRun.InitialCommandIsDefault | FEBioStudio/DlgRun.cpp:102-103 | The initial command text equals the default command of empty fields. |
| DlgRun.RunDialog.constructor | FEBioStudio/DlgRun.cpp:102-103 | The command field starts disabled, with the text `-i $(Filename)`. |
| DlgRun.RunDialog.UpdateDefaultCommand | FEBioStudio/DlgRun.cpp:162-184 | An overridden command stays as typed. Otherwise the command becomes the default command of the fields, and no other field changes. |
| DlgRun.Accept | FEBioStudio/DlgRun.cpp:309-348 | A refusal carries one of the two messages of the source. |
| DlgRun.AcceptChecks | FEBioStudio/DlgRun.cpp:309-348 | The dialog closes exactly when the working directory and the job name are both given. A missing directory is reported first, then a missing job name. |
| DlgRun.RunDialog.UpdateLaunchConfigBox | FEBioStudio/DlgRun.cpp:226-240 | The box lists the configuration names in order. `index` becomes current when it names an item; otherwise the first item is current, or none when the list is empty. |
| FEBioInterface.TypeCode | FEBioStudio/FEBioClass.h:35-58 | Every enumerator's code is below 22. |
| FEBioInterface.TypeCodeRoundTrip | FEBioStudio/FEBioClass.h:35-58 | Every enumerator's code names it again. |
| FEBioInterface.CodeTypeRoundTrip | FEBioStudio/FEBioClass.h:35-58 | Every code 0..21 names an enumerator whose code it is. |
| FEBioInterface.QVariantToVec3 | FEBioStudio/FEBioInterface.cpp:32-40 | Storing the vector read from a list value gives the value back, so the reader takes exactly entries 0, 1 and 2. |
| FEBioInterface.ReadStoredVec3 | FEBioStudio/FEBioInterface.cpp:32-40 | A vector stored as the doubles of entries 0, 1 and 2 reads back as x, y and z. |
| FEBioInterface.QVariantToVec3ReadsThree | FEBioStudio/FEBioInterface.cpp:32-40 | Entries after the third are never read. |
| FEBioInterface.SupportedCodes | FEBioStudio/FEBioInterface.cpp:63-72 | The handled codes are 1, 2, 3, 5, 17 and 18: INT, BOOL, DOUBLE, VEC3D, DOUBLE_MAPPED and VEC3D_MAPPED. |
| FEBioInterface.TranslateParam | FEBioStudio/FEBioInterface.cpp:55-72 | One case of the `switch` adds a parameter exactly for a handled type, under the class parameter's name. |
| FEBioInterface.TranslateParamKinds | FEBioStudio/FEBioInterface.cpp:55-72 | A parameter is added exactly for the handled types, under the same name. INT gives an int, BOOL a bool, DOUBLE and DOUBLE_MAPPED a double, VEC3D and VEC3D_MAPPED a vector. Only DOUBLE_MAPPED is variable. |
| FEBioInterface.TranslateParamValues | FEBioStudio/FEBioInterface.cpp:63-70 | The added value is the QVariant converted to the parameter's type. |
| FEBioInterface.Translated | FEBioStudio/FEBioInterface.cpp:53-74 | The parameters the loop adds, in order: never more than the class has. |
| FEBioInterface.TranslatedOnePerParam | FEBioStudio/FEBioInterface.cpp:53-74 | When every type is handled, there is one parameter per class parameter, in order, under the same names. |
| FEBioInterface.TranslatedLength | FEBioStudio/FEBioInterface.cpp:53-74 | Never more parameters than the class has, and as many exactly when every type is handled. |
| FEBioInterface.TranslatedSkipsUnsupported | FEBioStudio/FEBioInterface.cpp:71-72 | A parameter of any other type adds nothing. |
| FEBioInterface.FSModelComponent.constructor | FEBioStudio/FEBioInterface.cpp:42-50 | A component starts with an empty type string and no parameters. |
| FEBioInterface.FSModelComponent.AddParam | FEBioStudio/FEBioInterface.cpp:65-70 | The `Add...Param` calls append the new parameter and change nothing else. |
| FEBioInterface.FSModelComponent.MakeLastVariable | FEBioStudio/FEBioInterface.cpp:69 | `MakeVariable(true)` marks the parameter just added as variable and changes nothing else. |
| FEBioInterface.AddTranslatedParam | FEBioStudio/FEBioInterface.cpp:55-72 | One pass of the `switch`: the new parameter list is the old one plus the translation, if any. The result reports whether the branch was a handled one. |
| FEBioInterface.CreateFSObject | FEBioStudio/FEBioInterface.cpp:42-77 | A null class leaves the component untouched. Otherwise the type string is set, and the parameters become the old ones followed by the translation of the class parameters, in order. It reports the default-branch assert exactly when fewer parameters are added than the class has. |

## Left out

- The multi-block generator is not modelled. `UpdateMB`, `BuildMesh`, `UpdateMesh` and `AutoSmooth` are recorded as trace entries; the mesh they return, its ownership, and the `GetBlockFace` and `GetFaceEdge` lookups are left out. Face references are resolved through the face-edge table instead.
- SphereInBox.BuiltSphereNodesPlaced: a sphere node's position is stated as lying at distance R along the normalised lattice direction, through `OnSphere`. The source's R/√2 and R/√3 coordinates are not computed, because real square roots are not available.
- The parameters are read through `GetParamBlock` and `GetIntValue` as plain fields: the shape's W, H, D and R, and the mesher's nx, ny, nz, nr, gr and br. The parameter-list declarations `AddIntParam` and friends are not modelled.
- SphereInBox.FaceAxis: the multi-block generator's face numbering is not part of this model. `FaceCorners` and `FaceAxis` assume that face 0 has corners 0, 1, 5, 4, face 1 has 1, 2, 6, 5, face 2 has 2, 3, 7, 6, face 3 has 3, 0, 4, 7, face 4 has 3, 2, 1, 0 and face 5 has 4, 5, 6, 7. `FaceTagsPaired` and `TaggedFacesOnSurfaces` hold under that numbering only.
- SphereInBox.CurvedEdgeCallsDistinct: it compares (block, edge index) pairs only. Neighbouring sphere faces share edges, for example F25 edge 1 and F26 edge 3 both join nodes 26 and 29. The model does not prove that the 48 arcs bend 48 different node pairs, nor that together they cover every sphere-face edge.
- The shape's W, H, D and R are read in the source through the `GCylinderInBox` parameter indices `WIDTH` to `RADIUS`, although the object is a `GSphereInBox`. The model reads them as the sphere-in-box shape's own fields, which is right only if both classes declare these four parameters in the same order. The headers that would show this are not part of this model.
- The default constructor `FESphereInBox()` is not modelled. It sets no object and declares no parameters, and `BuildMesh` asserts that an object is present.
- The commented-out old `BuildMesh` at MeshTools/FESphereInBox.cpp:449-609 is not modelled.
- GItem.EdgePoint: only the line branch of `GEdge::Point` is modelled. The circular-arc and three-point arc branches use trigonometry and are not modelled; they give `None`, as does any other kind.
- GItem.EdgePointBetweenEnds: positions are exact reals, not IEEE doubles, so the lemma holds over reals only. With doubles, equal ends at x = -6.474482095870493 and l = 0.2505954088773793 give -6.474482095870492, which lies outside the span.
- GItem.GEdge.Point: it models a build in which `assert((l>=0)&&(l<=1.0))` at GeomLib/GItem.cpp:228 does not stop the program. Values l < 0 and l > 1 are clamped to 0 and 1 instead of aborting. GItem.EdgePoint follows the same reading.
- `GEdge::Length`, `GEdge::Tangent`, `GNode::Position`, `GNode::MakeRequired` and the section formulation accessors are not modelled.
- GItem.GPart.SetSection: the `delete` of the replaced section is not modelled. The old section object is only dropped from the part.
- GItem.GPart.Copy: the copy starts with no parameters. This assumes that the default base constructor in GItem.h, which is not part of this model, declares none.
- GItem.GPartSection.constructor: the `elem_type` choice parameter that the constructor declares is not modelled, and neither are those of `GShellSection`.
- The global counters `m_ncount` of `GItem_T`, and the `GItem.h` base fields beyond those written here, are not part of this model. GItem.h is not part of this model.
- ImageFilter.TwoDigits: the name counter is an unbounded `nat`. The wrap-around of the `static int` counter is not modelled.
- ImageFilter.ThresholdImageFilter.ApplyFilter: the voxel count is taken as given. The `int` overflow of width·height·depth, the image model lookups, the timing and the console output are left out.
- The image library's mean and Gaussian filters are not modelled.
- DlgRun: the conversion to an absolute path with `FSDir` and the commented-out directory check in `accept` are not modelled. The widgets are modelled as fields and the message boxes as the `Refused` message.
- DlgRun.RunDialog.constructor: the dialog takes the launch configurations by value. The source keeps a pointer to the caller's vector, set in `SetLaunchConfig`, and `CDlgEditPath` edits that vector through it. This aliasing is not modelled.
- DlgRun.RunDialog.UpdateLaunchConfigBox: the model assumes Qt's rule that adding items to an empty combo box makes the first item current.
- FEBioInterface: `CreateFEBioClass` and Qt's QVariant conversions are outside the model. The class arrives as an `Option`, and a QVariant is known by what its conversions return. The `delete` of the class is not modelled.
- FEBioInterface.CreateFSObject: it models a build in which `assert(false)` does not stop the program. The model reports that the assert was reached instead of aborting there.
- FEBioInterface.QVariantToVec3: it requires at least three list entries, because `QList::at` requires its index to be in range.

## Findings

| source | as written | input that shows it | evidently intended | confidence | as-written member | corrected member |
|---|---|---|---|---|---|---|
| GeomLib/GItem.cpp:341-358 | `GetFEEdgeSet` tests the owner pointer `m_po` for null, then dereferences the result of `dynamic_cast<GObject*>(m_po)` | an edge whose owner is a `GBaseObject` that is not a `GObject` | test the cast result for null and return null | not executed | GItem.FEEdgeSetAsWrittenDereferencesNull | GItem.FEEdgeSet |
| GeomLib/GItem.cpp:508-514 | `SetSection` deletes the old section and then calls `SetParent` on the new one without testing it for null | `SetSection(nullptr)` on a part that has a section | call `SetParent` only on a non-null section | not executed | GItem.SetSectionAsWrittenDereferencesNull | GItem.GPart.SetSection |
| GeomLib/GItem.cpp:518-529 | the `GPart` copy constructor sets `m_section` only when the other part has a section | copying a part whose section is null | set `m_section` to null when there is nothing to copy | not executed | GItem.CopiedSectionAsWrittenUninitialised | GItem.GPart.Copy |
