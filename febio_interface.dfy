/** The translation of a solver class into a model component
    (FEBioStudio/FEBioInterface.cpp): the component takes the class's type
    string and one parameter per class parameter of a supported type. The
    parameter types are the solver's `FEBIO_PARAM_TYPE` codes
    (FEBioStudio/FEBioClass.h). */
module FEBioInterface {
  import opened Base

  // ---------------------------------------------------------------------
  // Parameter types
  // ---------------------------------------------------------------------

  /** `FEBIO_PARAM_TYPE`, in declaration order. */
  datatype ParamType =
    | ParamInvalid | ParamInt | ParamBool | ParamDouble | ParamVec2d | ParamVec3d
    | ParamMat3d | ParamMat3ds | ParamImage3d | ParamString | ParamDataArray
    | ParamTens3drs | ParamStdString | ParamStdVectorInt | ParamStdVectorDouble
    | ParamStdVectorVec2d | ParamStdVectorString | ParamDoubleMapped
    | ParamVec3dMapped | ParamMat3dMapped | ParamMat3dsMapped | ParamMaterialPoint

  const ParamTypeCount := 22

  /** The enumerator's value: its position in the declaration. */
  function TypeCode(t: ParamType): (r: nat)
    ensures r < ParamTypeCount
  {
    match t
    case ParamInvalid => 0 case ParamInt => 1 case ParamBool => 2 case ParamDouble => 3
    case ParamVec2d => 4 case ParamVec3d => 5 case ParamMat3d => 6 case ParamMat3ds => 7
    case ParamImage3d => 8 case ParamString => 9 case ParamDataArray => 10
    case ParamTens3drs => 11 case ParamStdString => 12 case ParamStdVectorInt => 13
    case ParamStdVectorDouble => 14 case ParamStdVectorVec2d => 15
    case ParamStdVectorString => 16 case ParamDoubleMapped => 17 case ParamVec3dMapped => 18
    case ParamMat3dMapped => 19 case ParamMat3dsMapped => 20 case ParamMaterialPoint => 21
  }

  /** The enumerators in declaration order. */
  const AllTypes: seq<ParamType> := [
    ParamInvalid, ParamInt, ParamBool, ParamDouble, ParamVec2d, ParamVec3d,
    ParamMat3d, ParamMat3ds, ParamImage3d, ParamString, ParamDataArray,
    ParamTens3drs, ParamStdString, ParamStdVectorInt, ParamStdVectorDouble,
    ParamStdVectorVec2d, ParamStdVectorString, ParamDoubleMapped,
    ParamVec3dMapped, ParamMat3dMapped, ParamMat3dsMapped, ParamMaterialPoint]

  /** The enumerator an `int` type code names, if any. */
  function TypeOfCode(c: int): (r: Option<ParamType>)
    ensures r.Some? <==> 0 <= c < ParamTypeCount
  {
    if 0 <= c < |AllTypes| then Some(AllTypes[c]) else None
  }

  /** Every enumerator's code names it. */
  lemma TypeCodeRoundTrip(t: ParamType)
    ensures TypeOfCode(TypeCode(t)) == Some(t)
  {
  }

  /** Every code in range names an enumerator whose code it is, so the 22
      codes are distinct. */
  lemma CodeTypeRoundTrip(c: int)
    requires 0 <= c < ParamTypeCount
    ensures TypeCode(TypeOfCode(c).value) == c
  {
    assert c in {0, 1, 2, 3, 4, 5, 6, 7, 8, 9, 10, 11, 12, 13, 14, 15, 16, 17, 18, 19, 20, 21};
  }

  // ---------------------------------------------------------------------
  // Values
  // ---------------------------------------------------------------------

  /** A `QVariant`, known by what its conversions `toInt`, `toBool`,
      `toDouble` and `value<QList<QVariant>>` return; the rules by which Qt
      computes them are Qt's and taken as given. */
  datatype QVariant = QVariant(toInt: int, toBool: bool, toDouble: real, toList: seq<QVariant>)

  /** `qvariant_to_vec3d`: entries 0, 1 and 2 of the list the value holds
      are x, y and z; `QList::at` needs them to exist. Storing the vector
      read gives the value back, so the entries read are exactly the three
      `StoreVec3` writes. */
  function QVariantToVec3(v: QVariant): (r: Vec3)
    requires |v.toList| >= 3
    ensures StoreVec3(v, r) == v
  {
    var val := v.toList;
    assert [val[0], val[1], val[2]] + val[3..] == val;
    Vec3(val[0].toDouble, val[1].toDouble, val[2].toDouble)
  }

  /** The value with the coordinates of w stored as the doubles of list
      entries 0, 1 and 2, and everything else as in v. */
  function StoreVec3(v: QVariant, w: Vec3): (r: QVariant)
    requires |v.toList| >= 3
    ensures |r.toList| == |v.toList|
  {
    var val := v.toList;
    v.(toList := [val[0].(toDouble := w.x), val[1].(toDouble := w.y), val[2].(toDouble := w.z)] + val[3..])
  }

  /** A stored vector is read back unchanged. */
  lemma ReadStoredVec3(v: QVariant, w: Vec3)
    requires |v.toList| >= 3
    ensures QVariantToVec3(StoreVec3(v, w)) == w
  {
  }

  /** Entries after the third are never read. */
  lemma QVariantToVec3ReadsThree(v: QVariant, u: QVariant)
    requires |v.toList| >= 3 && |u.toList| >= 3
    requires v.toList[..3] == u.toList[..3]
    ensures QVariantToVec3(v) == QVariantToVec3(u)
  {
    assert v.toList[0] == v.toList[..3][0];
    assert v.toList[1] == v.toList[..3][1];
    assert v.toList[2] == v.toList[..3][2];
  }

  // ---------------------------------------------------------------------
  // Parameter translation
  // ---------------------------------------------------------------------

  /** `FEBioParam`: a name, an `int` type code and a value. */
  datatype FEBioParam = FEBioParam(name: string, ptype: int, val: QVariant)

  /** The part of `FEBioClass` read here. */
  datatype FEBioClass = FEBioClass(typeString: string, params: seq<FEBioParam>)

  datatype ParamValue = IntValue(i: int) | BoolValue(b: bool) | DoubleValue(d: real) | VecValue(v: Vec3)

  /** A parameter of the model component; `variable` is set by `MakeVariable`. */
  datatype FSParam = FSParam(name: string, value: ParamValue, variable: bool)

  /** The branches of the translation's `switch`: one per handled type and
      the default. */
  datatype SwitchCase = CaseInt | CaseBool | CaseDouble | CaseVec3d | CaseDoubleMapped | CaseVec3dMapped | CaseDefault

  /** The branch a type code takes: the codes of INT, BOOL, DOUBLE, VEC3D,
      DOUBLE_MAPPED and VEC3D_MAPPED select their own branch. */
  function CaseOf(ptype: int): SwitchCase
  {
    if ptype == 1 then CaseInt
    else if ptype == 2 then CaseBool
    else if ptype == 3 then CaseDouble
    else if ptype == 5 then CaseVec3d
    else if ptype == 17 then CaseDoubleMapped
    else if ptype == 18 then CaseVec3dMapped
    else CaseDefault
  }

  /** The six types the translation handles. */
  predicate Supported(ptype: int)
  {
    CaseOf(ptype) != CaseDefault
  }

  /** The handled codes are those of INT, BOOL, DOUBLE, VEC3D, DOUBLE_MAPPED
      and VEC3D_MAPPED. */
  lemma SupportedCodes(ptype: int)
    ensures Supported(ptype) <==> ptype in {1, 2, 3, 5, 17, 18}
    ensures Supported(ptype) ==> TypeOfCode(ptype).Some?
  {
  }

  /** A vector-valued parameter, whose value must hold a list. */
  predicate IsVector(ptype: int)
  {
    CaseOf(ptype) == CaseVec3d || CaseOf(ptype) == CaseVec3dMapped
  }

  /** What the vector conversion of a parameter needs. */
  predicate Convertible(p: FEBioParam)
  {
    IsVector(p.ptype) ==> |p.val.toList| >= 3
  }

  /** One case of the `switch`: the parameter it adds, if any. */
  function TranslateParam(p: FEBioParam): (r: Option<FSParam>)
    requires Convertible(p)
    ensures r.Some? <==> Supported(p.ptype)
    ensures r.Some? ==> r.value.name == p.name
  {
    match CaseOf(p.ptype)
    case CaseInt => Some(FSParam(p.name, IntValue(p.val.toInt), false))
    case CaseBool => Some(FSParam(p.name, BoolValue(p.val.toBool), false))
    case CaseDouble => Some(FSParam(p.name, DoubleValue(p.val.toDouble), false))
    case CaseVec3d => Some(FSParam(p.name, VecValue(QVariantToVec3(p.val)), false))
    case CaseDoubleMapped => Some(FSParam(p.name, DoubleValue(p.val.toDouble), true))
    case CaseVec3dMapped => Some(FSParam(p.name, VecValue(QVariantToVec3(p.val)), false))
    case CaseDefault => None
  }

  /** A parameter is added exactly for the six supported types, under the
      same name. Its value is an int for INT, a bool for BOOL, a double for
      DOUBLE and DOUBLE_MAPPED, and a vector for VEC3D and VEC3D_MAPPED; only
      DOUBLE_MAPPED is marked variable. */
  lemma TranslateParamKinds(p: FEBioParam)
    requires Convertible(p)
    ensures TranslateParam(p).Some? <==> Supported(p.ptype)
    ensures TranslateParam(p).Some? ==>
      var q := TranslateParam(p).value;
      q.name == p.name &&
      (q.variable <==> p.ptype == TypeCode(ParamDoubleMapped)) &&
      (q.value.VecValue? <==> p.ptype == TypeCode(ParamVec3d) || p.ptype == TypeCode(ParamVec3dMapped)) &&
      (q.value.IntValue? <==> p.ptype == TypeCode(ParamInt)) &&
      (q.value.BoolValue? <==> p.ptype == TypeCode(ParamBool)) &&
      (q.value.DoubleValue? <==> p.ptype == TypeCode(ParamDouble) || p.ptype == TypeCode(ParamDoubleMapped))
  {
  }

  /** The translated values are the converted values of the parameters. */
  lemma TranslateParamValues(p: FEBioParam)
    requires Convertible(p) && Supported(p.ptype)
    ensures var q := TranslateParam(p).value.value;
      (q.IntValue? ==> q.i == p.val.toInt) &&
      (q.BoolValue? ==> q.b == p.val.toBool) &&
      (q.DoubleValue? ==> q.d == p.val.toDouble) &&
      (q.VecValue? ==> q.v == QVariantToVec3(p.val))
  {
  }

  predicate AllConvertible(ps: seq<FEBioParam>)
  {
    forall k | 0 <= k < |ps| :: Convertible(ps[k])
  }

  /** The parameters added for `ps`, in order. */
  function Translated(ps: seq<FEBioParam>): (r: seq<FSParam>)
    requires AllConvertible(ps)
    ensures |r| <= |ps|
    decreases |ps|
  {
    if ps == [] then []
    else
      var last := TranslateParam(ps[|ps| - 1]);
      Translated(ps[..|ps| - 1]) + (if last.Some? then [last.value] else [])
  }

  /** The translation of a prefix one parameter longer. */
  lemma TranslatedStep(ps: seq<FEBioParam>, i: nat)
    requires AllConvertible(ps) && i < |ps|
    ensures AllConvertible(ps[..i]) && AllConvertible(ps[..i + 1])
    ensures var q := TranslateParam(ps[i]);
      Translated(ps[..i + 1]) == Translated(ps[..i]) + (if q.Some? then [q.value] else [])
  {
    assert ps[..i + 1][..i] == ps[..i];
  }

  /** When every type is supported, the translation has one parameter per
      class parameter, in the same order and under the same name. */
  lemma {:induction false} TranslatedOnePerParam(ps: seq<FEBioParam>)
    requires AllConvertible(ps)
    requires forall k | 0 <= k < |ps| :: Supported(ps[k].ptype)
    ensures |Translated(ps)| == |ps|
    ensures forall k | 0 <= k < |ps| :: TranslateParam(ps[k]) == Some(Translated(ps)[k])
    ensures forall k | 0 <= k < |ps| :: Translated(ps)[k].name == ps[k].name
    decreases |ps|
  {
    if ps != [] {
      var n := |ps| - 1;
      var init := ps[..n];
      assert forall k | 0 <= k < n :: init[k] == ps[k];
      TranslatedOnePerParam(init);
      TranslateParamKinds(ps[n]);
      assert ps[..n + 1] == ps;
      TranslatedStep(ps, n);
      forall k | 0 <= k < |ps|
        ensures TranslateParam(ps[k]) == Some(Translated(ps)[k])
        ensures Translated(ps)[k].name == ps[k].name
      {
        TranslateParamKinds(ps[k]);
      }
    }
  }

  /** The translation never has more parameters than the class, and has as
      many exactly when every type is supported. */
  lemma {:induction false} TranslatedLength(ps: seq<FEBioParam>)
    requires AllConvertible(ps)
    ensures |Translated(ps)| <= |ps|
    ensures |Translated(ps)| == |ps| <==> forall k | 0 <= k < |ps| :: Supported(ps[k].ptype)
    decreases |ps|
  {
    if ps != [] {
      var n := |ps| - 1;
      var init := ps[..n];
      assert forall k | 0 <= k < n :: init[k] == ps[k];
      TranslatedLength(init);
      TranslateParamKinds(ps[n]);
      assert |Translated(ps)| == |Translated(init)| + (if Supported(ps[n].ptype) then 1 else 0);
      if Supported(ps[n].ptype) {
        assert (forall k | 0 <= k < |ps| :: Supported(ps[k].ptype)) <==>
               (forall k | 0 <= k < n :: Supported(init[k].ptype));
      } else {
        assert !Supported(ps[n].ptype);
      }
    }
  }

  /** Unsupported parameters add nothing: the translation is that of the
      supported parameters alone. */
  lemma {:induction false} TranslatedSkipsUnsupported(ps: seq<FEBioParam>, p: FEBioParam)
    requires AllConvertible(ps) && Convertible(p) && !Supported(p.ptype)
    ensures AllConvertible(ps + [p])
    ensures Translated(ps + [p]) == Translated(ps)
  {
    assert (ps + [p])[..|ps|] == ps;
    TranslateParamKinds(p);
  }

  // ---------------------------------------------------------------------
  // The model component
  // ---------------------------------------------------------------------

  /** The part of `FEModelComponent` written here. */
  class FSModelComponent {
    var typeString: string
    var params: seq<FSParam>

    constructor ()
      ensures typeString == "" && params == []
    {
      typeString, params := "", [];
    }

    /** `AddIntParam`, `AddBoolParam`, `AddDoubleParam` and `AddVecParam`:
        the new parameter goes last. */
    method AddParam(p: FSParam)
      modifies this
      ensures params == old(params) + [p] && typeString == old(typeString)
    {
      params := params + [p];
    }

    /** `MakeVariable(true)` on the parameter just added. */
    method MakeLastVariable()
      requires params != []
      modifies this
      ensures params == old(params)[|old(params)| - 1 := old(params)[|old(params)| - 1].(variable := true)]
      ensures typeString == old(typeString)
    {
      params := params[|params| - 1 := params[|params| - 1].(variable := true)];
    }
  }

  /** The body of the translation loop: the `switch` on the parameter's
      type code, adding the parameter it makes; `handled` is false in the
      default branch, which adds nothing. */
  method AddTranslatedParam(param: FEBioParam, po: FSModelComponent)
    returns (handled: bool)
    requires Convertible(param)
    modifies po
    ensures handled <==> Supported(param.ptype)
    ensures handled <==> TranslateParam(param).Some?
    ensures var q := TranslateParam(param);
      po.params == old(po.params) + (if q.Some? then [q.value] else [])
    ensures po.typeString == old(po.typeString)
  {
    var v := param.val;
    var ptype := param.ptype;
    var szname := param.name;
    handled := true;
    match CaseOf(ptype) {
      case CaseInt => po.AddParam(FSParam(szname, IntValue(v.toInt), false));
      case CaseBool => po.AddParam(FSParam(szname, BoolValue(v.toBool), false));
      case CaseDouble => po.AddParam(FSParam(szname, DoubleValue(v.toDouble), false));
      case CaseVec3d => po.AddParam(FSParam(szname, VecValue(QVariantToVec3(v)), false));
      case CaseDoubleMapped =>
        po.AddParam(FSParam(szname, DoubleValue(v.toDouble), false));
        po.MakeLastVariable();
      case CaseVec3dMapped => po.AddParam(FSParam(szname, VecValue(QVariantToVec3(v)), false));
      case CaseDefault => handled := false;
    }
  }

  /** `CreateFSObject`, given what `CreateFEBioClass(classId)` returned. A
      null class leaves the component alone. Otherwise the component takes
      the class's type string and, in index order, one parameter per
      parameter of a supported type; the other parameters add nothing.
      `asserted` tells whether the `assert(false)` of the default branch was
      reached, which is when fewer parameters are added than the class has
      (see `TranslatedLength`). */
  method CreateFSObject(feb: Option<FEBioClass>, po: FSModelComponent)
    returns (asserted: bool)
    requires feb.Some? ==> AllConvertible(feb.value.params)
    modifies po
    ensures feb.None? ==> po.typeString == old(po.typeString) && po.params == old(po.params)
    ensures feb.Some? ==> po.typeString == feb.value.typeString
    ensures feb.Some? ==> po.params == old(po.params) + Translated(feb.value.params)
    ensures asserted <==> feb.Some? && |Translated(feb.value.params)| < |feb.value.params|
  {
    asserted := false;
    if feb.None? {
      return;
    }
    var c := feb.value;
    po.typeString := c.typeString;
    var i := 0;
    while i < |c.params|
      invariant 0 <= i <= |c.params|
      invariant po.typeString == c.typeString
      invariant po.params == old(po.params) + Translated(c.params[..i])
      invariant |Translated(c.params[..i])| <= i
      invariant asserted <==> |Translated(c.params[..i])| < i
    {
      var handled := AddTranslatedParam(c.params[i], po);
      if !handled {
        asserted := true;
      }
      TranslatedStep(c.params, i);
      i := i + 1;
    }
    assert c.params[..i] == c.params;
  }
}
