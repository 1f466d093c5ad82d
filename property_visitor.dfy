/**
 * The class processor's walk over an interface and its super-interfaces
 * (classprocessor/PropertyVisitor.java). Each super-interface the filter accepts
 * is visited first, one level deeper; then, at level 0 only, the type's qualified
 * name is split into package and class name; then the type's enclosed elements
 * are scanned: methods become properties (merged with an earlier property of the
 * same name and type) or plain methods, fields become fields, and member types
 * are walked at the same level.
 *
 * The functions below state the walk on snapshots; the class PropertyVisitor at
 * the end performs it on the definition objects and is proved to agree with them.
 */
module PropertyVisitor {
  import opened Wrappers
  import opened Strings
  import opened LangModel
  import opened Lookup
  import opened ClassFields
  import opened ClassProperties
  import opened ClassDefinitions

  /** The position of the last '.', or -1 when there is none. */
  function LastDot(s: string): (k: int)
    ensures -1 <= k < |s|
    ensures k >= 0 ==> s[k] == '.' && forall j | k < j < |s| :: s[j] != '.'
    ensures k < 0 ==> forall j | 0 <= j < |s| :: s[j] != '.'
  {
    if |s| == 0 then -1
    else if s[|s| - 1] == '.' then |s| - 1
    else LastDot(s[..|s| - 1])
  }

  /** splitPackageName: null for a null or empty name, otherwise (package, simple name). */
  function SplitPackageName(value: Option<string>): (r: Option<(string, string)>)
    ensures r.None? <==> value.None? || value.value == ""
    ensures r.Some? && '.' !in value.value ==> r.value == ("", value.value)
    ensures r.Some? && '.' in value.value ==> r.value.0 + "." + r.value.1 == value.value && '.' !in r.value.1
  {
    match value
    case None => None
    case Some(v) =>
      if v == "" then None
      else
        var k := LastDot(v);
        if k < 0 then Some(("", v))
        else
          assert v == v[..k] + "." + v[k + 1..];
          Some((v[..k], v[k + 1..]))
  }

  /** The property a method describes, before any @Property values are applied. */
  function AccessorCandidate(ee: ExecutableElement, defined: bool): Option<PropertyView>
  {
    var n := ee.name;
    if StartsWith(n, "get") then
      Some(InitialPropertyView(Uncapitalize(n[3..]), ee.returnType, defined, Some(ee), None))
    else if StartsWith(n, "set") then
      if |ee.parameters| == 1 then Some(InitialPropertyView(Uncapitalize(n[3..]), ee.parameters[0], defined, None, Some(ee)))
      else None
    else if StartsWith(n, "is") then
      if ee.returnType == BooleanType || ee.returnType == BoxedBoolean then
        Some(InitialPropertyView(Uncapitalize(n[2..]), ee.returnType, defined, Some(ee), None))
      else None
    else None
  }

  /** buildPropertyFromExecutableElement, on snapshots: null is None. */
  function BuildPropertyView(ee: ExecutableElement, level: int): (r: Option<PropertyView>)
    ensures r.Some? ==> ee.kind == MethodKind && Coupled(r.value) && (r.value.readable <==> !r.value.writable)
    ensures r.Some? ==> r.value.defined == (level == 0) && !r.value.fieldDefined
    ensures ee.kind == MethodKind && StartsWith(ee.name, "get") ==>
              r.Some? && r.value.reader == Some(ee) && r.value.writer.None? &&
              r.value.name == Uncapitalize(ee.name[3..]) && r.value.typ == ee.returnType
    ensures ee.kind == MethodKind && !StartsWith(ee.name, "get") && StartsWith(ee.name, "set") ==>
              (r.Some? <==> |ee.parameters| == 1) &&
              (r.Some? ==> r.value.writer == Some(ee) && r.value.reader.None? &&
                           r.value.name == Uncapitalize(ee.name[3..]) && r.value.typ == ee.parameters[0])
    ensures ee.kind == MethodKind && !StartsWith(ee.name, "get") && !StartsWith(ee.name, "set") && StartsWith(ee.name, "is") ==>
              (r.Some? <==> ee.returnType == BooleanType || ee.returnType == BoxedBoolean) &&
              (r.Some? ==> r.value.reader == Some(ee) && r.value.writer.None? &&
                           r.value.name == Uncapitalize(ee.name[2..]) && r.value.typ == ee.returnType)
    ensures !StartsWith(ee.name, "get") && !StartsWith(ee.name, "set") && !StartsWith(ee.name, "is") ==> r.None?
    ensures r.Some? && ee.property.Some? ==>
              r.value.retainType == ee.property.value.retainType &&
              r.value.realType == Some(ee.property.value.realType) &&
              r.value.ignore == ee.property.value.ignore
    ensures r.Some? && ee.property.None? ==> r.value.retainType == "HOLD" && r.value.realType.None? && !r.value.ignore
  {
    if ee.kind != MethodKind then None
    else
      match AccessorCandidate(ee, level == 0)
      case None => None
      case Some(v) =>
        match ee.property
        case None => Some(v)
        case Some(a) => Some(v.(retainType := a.retainType, realType := Some(a.realType), ignore := a.ignore))
  }

  /** buildFieldFromVariableElement, on snapshots: only FIELD variables become fields. */
  function BuildFieldView(ve: VariableElement): (r: Option<FieldView>)
    ensures r.Some? <==> ve.kind == FieldKind
    ensures r.Some? ==> r.value.name == ve.name && r.value.typ == ve.typ && !r.value.propertyDefined
    ensures r.Some? && ve.field.Some? ==>
              var a := ve.field.value;
              r.value.retainType == a.retainType && r.value.realType == Some(a.realType) &&
              r.value.ignore == a.ignore && r.value.readOnly == a.readOnly && r.value.methodModifier == a.methodModifier
    ensures r.Some? && ve.field.None? ==> r.value == InitialFieldView(ve.name, ve.typ)
  {
    if ve.kind != FieldKind then None
    else
      var v := InitialFieldView(ve.name, ve.typ);
      match ve.field
      case None => Some(v)
      case Some(a) =>
        Some(v.(retainType := a.retainType, realType := Some(a.realType), ignore := a.ignore,
                readOnly := a.readOnly, methodModifier := a.methodModifier))
  }

  /**
   * An @Field annotation left at its defaults changes nothing but realType, which
   * becomes Void rather than staying null.
   */
  lemma DefaultFieldAnnotationSetsVoidRealType(ve: VariableElement)
    requires ve.kind == FieldKind && ve.field == Some(FieldAnnotationDefaults)
    ensures BuildFieldView(ve) == Some(InitialFieldView(ve.name, ve.typ).(realType := Some(VoidClass)))
  {
  }

  /** mergeProperty: the candidate's reader and writer are copied only when it has them. */
  function MergeView(p1: PropertyView, p2: PropertyView): (r: PropertyView)
    ensures r.(reader := p1.reader, readable := p1.readable, writer := p1.writer, writable := p1.writable) == p1
    ensures p2.readable ==> r.reader == p2.reader && r.readable == p2.reader.Some?
    ensures !p2.readable ==> r.reader == p1.reader && r.readable == p1.readable
    ensures p2.writable ==> r.writer == p2.writer && r.writable == p2.writer.Some?
    ensures !p2.writable ==> r.writer == p1.writer && r.writable == p1.writable
  {
    var withReader := if p2.readable then WithReader(p1, p2.reader) else p1;
    if p2.writable then WithWriter(withReader, p2.writer) else withReader
  }

  /** A merge never loses an accessor the earlier property had, when the candidate's flags are coupled. */
  lemma MergeKeepsAccessors(p1: PropertyView, p2: PropertyView)
    requires Coupled(p1) && Coupled(p2)
    ensures Coupled(MergeView(p1, p2))
    ensures p1.readable || p2.readable <==> MergeView(p1, p2).readable
    ensures p1.writable || p2.writable <==> MergeView(p1, p2).writable
  {
  }

  /** visitExecutable, on snapshots. */
  function VisitExecutableSpec(s: DefinitionState, ee: ExecutableElement, level: int): (t: DefinitionState)
  {
    if ee.kind != MethodKind then s
    else
      match BuildPropertyView(ee, level)
      case None => s.(methods := s.methods + [ee])
      case Some(p) => RecordPropertySpec(s, p)
  }

  /** The part of visitExecutable after a property was built: merged into the first property with its key, or added. */
  function RecordPropertySpec(s: DefinitionState, p: PropertyView): DefinitionState
  {
    var k := FirstMatch(PropertyViewKeys(s.properties), Key(p.name, p.typ));
    if k >= 0 then s.(properties := s.properties[k := MergeView(s.properties[k], p)])
    else AddPropertyToState(s, p)
  }

  /** visitVariable, on snapshots. */
  function VisitVariableSpec(s: DefinitionState, ve: VariableElement): DefinitionState
  {
    match BuildFieldView(ve)
    case None => s
    case Some(f) => AddFieldToState(s, f)
  }

  /** The IllegalStateException thrown for an empty qualified name at level 0. */
  datatype WalkError = EmptyQualifiedName

  predicate Below(lat: Lattice, ids: seq<TypeId>, owner: TypeId)
  {
    forall j | 0 <= j < |ids| :: ids[j] in lat && ids[j] < owner
  }

  predicate MembersBelow(lat: Lattice, ms: seq<Member>, owner: TypeId)
  {
    forall j | 0 <= j < |ms| && ms[j].TypeMember? :: ms[j].id in lat && ms[j].id < owner
  }

  /** visitType, on snapshots. */
  function VisitTypeSpec(lat: Lattice, canHandle: TypeId -> bool, id: TypeId, level: int, s: DefinitionState)
    : Result<DefinitionState, WalkError>
    requires WellFounded(lat) && id in lat
    decreases id, 2, 0
  {
    var t := lat[id];
    if t.kind == InterfaceType || t.kind == ClassType then
      match HeaderSpec(lat, canHandle, id, level, s)
      case Failure(e) => Failure(e)
      case Success(s3) => MembersSpec(lat, canHandle, id, t.members, level, s3)
    else MembersSpec(lat, canHandle, id, t.members, level, s)
  }

  /**
   * The part of visitType before the scan of an interface or a class: the element
   * type, the super-interfaces one level deeper, and at level 0 the naming.
   */
  function HeaderSpec(lat: Lattice, canHandle: TypeId -> bool, id: TypeId, level: int, s: DefinitionState)
    : Result<DefinitionState, WalkError>
    requires WellFounded(lat) && id in lat
    decreases id, 1, |lat[id].interfaces| + 1
  {
    var t := lat[id];
    var s1 := s.(elementType := Some(if t.kind == InterfaceType then Interface else Class));
    match SupersSpec(lat, canHandle, id, t.interfaces, level, s1)
    case Failure(e) => Failure(e)
    case Success(s2) =>
      if level == 0 then
        match SplitPackageName(Some(t.qualifiedName))
        case None => Failure(EmptyQualifiedName)
        case Some(parts) =>
          Success(s2.(pkg := Some(parts.0), className := Some(parts.1),
                      typeParameters := s2.typeParameters + t.typeParameters))
      else Success(s2)
  }

  /** The super-interface loop of visitType: each accepted super-interface is walked one level deeper. */
  function SupersSpec(lat: Lattice, canHandle: TypeId -> bool, owner: TypeId, supers: seq<TypeId>,
                      level: int, s: DefinitionState): Result<DefinitionState, WalkError>
    requires WellFounded(lat) && owner in lat && Below(lat, supers, owner)
    decreases owner, 1, |supers|
  {
    if |supers| == 0 then Success(s)
    else
      match SupersSpec(lat, canHandle, owner, supers[..|supers| - 1], level, s)
      case Failure(e) => Failure(e)
      case Success(s1) => SuperSpec(lat, canHandle, owner, supers[|supers| - 1], level, s1)
  }

  /** One super-interface, walked one level deeper when the predicate accepts it and skipped otherwise. */
  function SuperSpec(lat: Lattice, canHandle: TypeId -> bool, owner: TypeId, sup: TypeId,
                     level: int, s: DefinitionState): Result<DefinitionState, WalkError>
    requires WellFounded(lat) && owner in lat && sup in lat && sup < owner
    decreases owner, 1, 0
  {
    if canHandle(sup) then VisitTypeSpec(lat, canHandle, sup, level + 1, s) else Success(s)
  }

  /** The scan of a type's enclosed elements, in declaration order. */
  function MembersSpec(lat: Lattice, canHandle: TypeId -> bool, owner: TypeId, ms: seq<Member>,
                       level: int, s: DefinitionState): Result<DefinitionState, WalkError>
    requires WellFounded(lat) && owner in lat && MembersBelow(lat, ms, owner)
    decreases owner, 1, |ms|
  {
    if |ms| == 0 then Success(s)
    else
      match MembersSpec(lat, canHandle, owner, ms[..|ms| - 1], level, s)
      case Failure(e) => Failure(e)
      case Success(s1) => MemberSpec(lat, canHandle, owner, ms[|ms| - 1], level, s1)
  }

  /** One enclosed element: a method, a variable, or a member type, which is walked at the same level. */
  function MemberSpec(lat: Lattice, canHandle: TypeId -> bool, owner: TypeId, m: Member,
                      level: int, s: DefinitionState): Result<DefinitionState, WalkError>
    requires WellFounded(lat) && owner in lat && (m.TypeMember? ==> m.id in lat && m.id < owner)
    decreases owner, 1, 0
  {
    match m
    case MethodMember(ee) => Success(VisitExecutableSpec(s, ee, level))
    case VariableMember(ve) => Success(VisitVariableSpec(s, ve))
    case TypeMember(nid) => VisitTypeSpec(lat, canHandle, nid, level, s)
  }

  /** A field snapshot changed at most by being marked as paired. */
  predicate FieldGrows(a: FieldView, b: FieldView)
  {
    b == a.(propertyDefined := b.propertyDefined) && (a.propertyDefined ==> b.propertyDefined)
  }

  /** A property snapshot that keeps its identity and attributes and loses no accessor and no pairing. */
  predicate PropertyGrows(a: PropertyView, b: PropertyView)
  {
    a.name == b.name && a.typ == b.typ && a.defined == b.defined &&
    a.retainType == b.retainType && a.realType == b.realType && a.ignore == b.ignore &&
    (a.fieldDefined ==> b.fieldDefined) && (a.readable ==> b.readable) && (a.writable ==> b.writable)
  }

  /** t only extends s: every list only grows at its end, and the entries already there only grow. */
  predicate Extends(s: DefinitionState, t: DefinitionState)
  {
    |s.fields| <= |t.fields| && |s.properties| <= |t.properties| &&
    s.methods <= t.methods && s.typeParameters <= t.typeParameters &&
    (forall i | 0 <= i < |s.fields| :: FieldGrows(s.fields[i], t.fields[i])) &&
    (forall i | 0 <= i < |s.properties| :: PropertyGrows(s.properties[i], t.properties[i]))
  }

  lemma ExtendsTransitive(s: DefinitionState, t: DefinitionState, u: DefinitionState)
    requires Extends(s, t) && Extends(t, u)
    ensures Extends(s, u)
  {
    assert forall i | 0 <= i < |s.properties| :: PropertyGrows(t.properties[i], u.properties[i]);
    assert forall i | 0 <= i < |s.fields| :: FieldGrows(t.fields[i], u.fields[i]);
  }

  /** One method: merged into the first property with its key, appended as a property, or kept as a plain method. */
  lemma VisitExecutableExtends(s: DefinitionState, ee: ExecutableElement, level: int)
    ensures Extends(s, VisitExecutableSpec(s, ee, level))
  {
    var t := VisitExecutableSpec(s, ee, level);
    if ee.kind == MethodKind && BuildPropertyView(ee, level).Some? {
      var p := BuildPropertyView(ee, level).value;
      var k := FirstMatch(PropertyViewKeys(s.properties), Key(p.name, p.typ));
      if k < 0 {
        var t := AddPropertyToState(s, p);
        assert forall i | 0 <= i < |s.fields| :: t.fields[i].name == s.fields[i].name;
      }
    }
  }

  lemma VisitVariableExtends(s: DefinitionState, ve: VariableElement)
    ensures Extends(s, VisitVariableSpec(s, ve))
  {
    if BuildFieldView(ve).Some? {
      var f := BuildFieldView(ve).value;
      var k := FirstMatch(PropertyViewKeys(s.properties), Key(f.name, f.typ));
      var t := AddFieldToState(s, f);
      if k >= 0 {
        assert forall i | 0 <= i < |s.fields| :: t.fields[i] == s.fields[i];
      } else {
        assert t.fields == s.fields + [f];
      }
    }
  }

  /** A change of the header alone (element type, names, more type parameters) extends the definition. */
  lemma HeaderExtends(s: DefinitionState, t: DefinitionState)
    requires t.fields == s.fields && t.properties == s.properties && t.methods == s.methods
    requires s.typeParameters <= t.typeParameters
    ensures Extends(s, t)
  {
  }

  /** A walk only extends the definition: nothing it has recorded is ever removed, replaced or cleared. */
  lemma {:induction false} VisitTypeExtends(lat: Lattice, canHandle: TypeId -> bool, id: TypeId, level: int, s: DefinitionState)
    requires WellFounded(lat) && id in lat
    requires VisitTypeSpec(lat, canHandle, id, level, s).Success?
    ensures Extends(s, VisitTypeSpec(lat, canHandle, id, level, s).value)
    decreases id, 2, 0
  {
    var t := lat[id];
    var r := VisitTypeSpec(lat, canHandle, id, level, s).value;
    if t.kind == InterfaceType || t.kind == ClassType {
      var s1 := s.(elementType := Some(if t.kind == InterfaceType then Interface else Class));
      HeaderExtends(s, s1);
      assert SupersSpec(lat, canHandle, id, t.interfaces, level, s1).Success?;
      SupersExtends(lat, canHandle, id, t.interfaces, level, s1);
      var s2 := SupersSpec(lat, canHandle, id, t.interfaces, level, s1).value;
      ExtendsTransitive(s, s1, s2);
      var s3 := s2;
      if level == 0 {
        var parts := SplitPackageName(Some(t.qualifiedName)).value;
        s3 := s2.(pkg := Some(parts.0), className := Some(parts.1), typeParameters := s2.typeParameters + t.typeParameters);
        HeaderExtends(s2, s3);
        ExtendsTransitive(s, s2, s3);
      }
      assert r == MembersSpec(lat, canHandle, id, t.members, level, s3).value;
      MembersExtends(lat, canHandle, id, t.members, level, s3);
      ExtendsTransitive(s, s3, r);
    } else {
      MembersExtends(lat, canHandle, id, t.members, level, s);
    }
  }

  lemma {:induction false} SupersExtends(lat: Lattice, canHandle: TypeId -> bool, owner: TypeId, supers: seq<TypeId>,
                                         level: int, s: DefinitionState)
    requires WellFounded(lat) && owner in lat && Below(lat, supers, owner)
    requires SupersSpec(lat, canHandle, owner, supers, level, s).Success?
    ensures Extends(s, SupersSpec(lat, canHandle, owner, supers, level, s).value)
    decreases owner, 1, |supers|
  {
    if |supers| > 0 {
      var init := supers[..|supers| - 1];
      SupersExtends(lat, canHandle, owner, init, level, s);
      var s1 := SupersSpec(lat, canHandle, owner, init, level, s).value;
      var sup := supers[|supers| - 1];
      if canHandle(sup) {
        VisitTypeExtends(lat, canHandle, sup, level + 1, s1);
        ExtendsTransitive(s, s1, VisitTypeSpec(lat, canHandle, sup, level + 1, s1).value);
      }
    }
  }

  lemma {:induction false} MembersExtends(lat: Lattice, canHandle: TypeId -> bool, owner: TypeId, ms: seq<Member>,
                                          level: int, s: DefinitionState)
    requires WellFounded(lat) && owner in lat && MembersBelow(lat, ms, owner)
    requires MembersSpec(lat, canHandle, owner, ms, level, s).Success?
    ensures Extends(s, MembersSpec(lat, canHandle, owner, ms, level, s).value)
    decreases owner, 1, |ms|
  {
    if |ms| > 0 {
      var init := ms[..|ms| - 1];
      MembersExtends(lat, canHandle, owner, init, level, s);
      var s1 := MembersSpec(lat, canHandle, owner, init, level, s).value;
      var r := MembersSpec(lat, canHandle, owner, ms, level, s).value;
      match ms[|ms| - 1]
      case MethodMember(ee) =>
        VisitExecutableExtends(s1, ee, level);
        ExtendsTransitive(s, s1, r);
      case VariableMember(ve) =>
        VisitVariableExtends(s1, ve);
        ExtendsTransitive(s, s1, r);
      case TypeMember(nid) =>
        VisitTypeExtends(lat, canHandle, nid, level, s1);
        ExtendsTransitive(s, s1, r);
    }
  }

  /** At a level above 0 (deeper than the root) a walk cannot fail and never touches the package, the class name or the type parameters. */
  lemma {:induction false} DeepVisitKeepsNames(lat: Lattice, canHandle: TypeId -> bool, id: TypeId, level: int, s: DefinitionState)
    requires WellFounded(lat) && id in lat && level > 0
    ensures VisitTypeSpec(lat, canHandle, id, level, s).Success?
    ensures var r := VisitTypeSpec(lat, canHandle, id, level, s).value;
              r.pkg == s.pkg && r.className == s.className && r.typeParameters == s.typeParameters
    decreases id, 2, 0
  {
    var t := lat[id];
    if t.kind == InterfaceType || t.kind == ClassType {
      var s1 := s.(elementType := Some(if t.kind == InterfaceType then Interface else Class));
      DeepSupersKeepNames(lat, canHandle, id, t.interfaces, level, s1);
      var s2 := SupersSpec(lat, canHandle, id, t.interfaces, level, s1).value;
      DeepMembersKeepNames(lat, canHandle, id, t.members, level, s2);
    } else {
      DeepMembersKeepNames(lat, canHandle, id, t.members, level, s);
    }
  }

  lemma {:induction false} DeepSupersKeepNames(lat: Lattice, canHandle: TypeId -> bool, owner: TypeId, supers: seq<TypeId>,
                                               level: int, s: DefinitionState)
    requires WellFounded(lat) && owner in lat && Below(lat, supers, owner) && level >= 0
    ensures SupersSpec(lat, canHandle, owner, supers, level, s).Success?
    ensures var r := SupersSpec(lat, canHandle, owner, supers, level, s).value;
              r.pkg == s.pkg && r.className == s.className && r.typeParameters == s.typeParameters
    decreases owner, 1, |supers|
  {
    if |supers| > 0 {
      var init := supers[..|supers| - 1];
      DeepSupersKeepNames(lat, canHandle, owner, init, level, s);
      var s1 := SupersSpec(lat, canHandle, owner, init, level, s).value;
      var sup := supers[|supers| - 1];
      if canHandle(sup) {
        DeepVisitKeepsNames(lat, canHandle, sup, level + 1, s1);
      }
    }
  }

  lemma {:induction false} DeepMembersKeepNames(lat: Lattice, canHandle: TypeId -> bool, owner: TypeId, ms: seq<Member>,
                                                level: int, s: DefinitionState)
    requires WellFounded(lat) && owner in lat && MembersBelow(lat, ms, owner) && level > 0
    ensures MembersSpec(lat, canHandle, owner, ms, level, s).Success?
    ensures var r := MembersSpec(lat, canHandle, owner, ms, level, s).value;
              r.pkg == s.pkg && r.className == s.className && r.typeParameters == s.typeParameters
    decreases owner, 1, |ms|
  {
    if |ms| > 0 {
      var init := ms[..|ms| - 1];
      DeepMembersKeepNames(lat, canHandle, owner, init, level, s);
      var s1 := MembersSpec(lat, canHandle, owner, init, level, s).value;
      match ms[|ms| - 1]
      case MethodMember(ee) =>
        assert VisitExecutableSpec(s1, ee, level).(properties := s1.properties, methods := s1.methods, fields := s1.fields) == s1;
      case VariableMember(ve) =>
      case TypeMember(nid) =>
        DeepVisitKeepsNames(lat, canHandle, nid, level, s1);
    }
  }

  /** A root type whose qualified name is empty makes the walk throw. */
  lemma EmptyRootNameFails(lat: Lattice, canHandle: TypeId -> bool, id: TypeId, s: DefinitionState)
    requires WellFounded(lat) && id in lat
    requires lat[id].kind == InterfaceType || lat[id].kind == ClassType
    requires lat[id].qualifiedName == ""
    ensures VisitTypeSpec(lat, canHandle, id, 0, s) == Failure(EmptyQualifiedName)
  {
    var t := lat[id];
    var s1 := s.(elementType := Some(if t.kind == InterfaceType then Interface else Class));
    DeepSupersKeepNames(lat, canHandle, id, t.interfaces, 0, s1);
  }

  /** Super-interfaces the filter rejects contribute nothing, although the level is still raised and lowered for them. */
  lemma {:induction false} RejectedSupersContributeNothing(lat: Lattice, canHandle: TypeId -> bool, owner: TypeId,
                                                           supers: seq<TypeId>, level: int, s: DefinitionState)
    requires WellFounded(lat) && owner in lat && Below(lat, supers, owner)
    requires forall j | 0 <= j < |supers| :: !canHandle(supers[j])
    ensures SupersSpec(lat, canHandle, owner, supers, level, s) == Success(s)
    decreases |supers|
  {
    if |supers| > 0 {
      RejectedSupersContributeNothing(lat, canHandle, owner, supers[..|supers| - 1], level, s);
    }
  }

  /** Every property the entries from position |s.properties| on hold was discovered at a level d: its defined flag is d == 0. */
  predicate NewPropertiesDefined(s: DefinitionState, t: DefinitionState, defined: bool)
  {
    |s.properties| <= |t.properties| &&
    forall i | |s.properties| <= i < |t.properties| :: t.properties[i].defined == defined
  }

  lemma NewPropertiesDefinedTransitive(s: DefinitionState, t: DefinitionState, u: DefinitionState, defined: bool)
    requires NewPropertiesDefined(s, t, defined) && NewPropertiesDefined(t, u, defined) && Extends(t, u)
    ensures NewPropertiesDefined(s, u, defined)
  {
    assert forall i | |s.properties| <= i < |t.properties| :: PropertyGrows(t.properties[i], u.properties[i]);
  }

  /**
   * With a filter that rejects every super-interface the level never changes,
   * so every property a walk discovers is marked defined exactly when the walk
   * starts at level 0.
   */
  lemma {:induction false} RejectAllDefinesByStartLevel(lat: Lattice, canHandle: TypeId -> bool, id: TypeId, level: int, s: DefinitionState)
    requires WellFounded(lat) && id in lat
    requires forall x :: !canHandle(x)
    requires VisitTypeSpec(lat, canHandle, id, level, s).Success?
    ensures NewPropertiesDefined(s, VisitTypeSpec(lat, canHandle, id, level, s).value, level == 0)
    decreases id, 2, 0
  {
    var t := lat[id];
    if t.kind == InterfaceType || t.kind == ClassType {
      var s1 := s.(elementType := Some(if t.kind == InterfaceType then Interface else Class));
      RejectedSupersContributeNothing(lat, canHandle, id, t.interfaces, level, s1);
      if level == 0 {
        var parts := SplitPackageName(Some(t.qualifiedName)).value;
        var s3 := s1.(pkg := Some(parts.0), className := Some(parts.1), typeParameters := s1.typeParameters + t.typeParameters);
        RejectAllMembersDefine(lat, canHandle, id, t.members, level, s3);
      } else {
        RejectAllMembersDefine(lat, canHandle, id, t.members, level, s1);
      }
    } else {
      RejectAllMembersDefine(lat, canHandle, id, t.members, level, s);
    }
  }

  lemma {:induction false} RejectAllMembersDefine(lat: Lattice, canHandle: TypeId -> bool, owner: TypeId, ms: seq<Member>,
                                                  level: int, s: DefinitionState)
    requires WellFounded(lat) && owner in lat && MembersBelow(lat, ms, owner)
    requires forall x :: !canHandle(x)
    requires MembersSpec(lat, canHandle, owner, ms, level, s).Success?
    ensures NewPropertiesDefined(s, MembersSpec(lat, canHandle, owner, ms, level, s).value, level == 0)
    decreases owner, 1, |ms|
  {
    if |ms| > 0 {
      var init := ms[..|ms| - 1];
      RejectAllMembersDefine(lat, canHandle, owner, init, level, s);
      var s1 := MembersSpec(lat, canHandle, owner, init, level, s).value;
      var r := MembersSpec(lat, canHandle, owner, ms, level, s).value;
      RejectAllMemberDefines(lat, canHandle, owner, ms[|ms| - 1], level, s1);
      NewPropertiesDefinedTransitive(s, s1, r, level == 0);
    }
  }

  lemma {:induction false} RejectAllMemberDefines(lat: Lattice, canHandle: TypeId -> bool, owner: TypeId, m: Member,
                                                  level: int, s: DefinitionState)
    requires WellFounded(lat) && owner in lat && (m.TypeMember? ==> m.id in lat && m.id < owner)
    requires forall x :: !canHandle(x)
    requires MemberSpec(lat, canHandle, owner, m, level, s).Success?
    ensures NewPropertiesDefined(s, MemberSpec(lat, canHandle, owner, m, level, s).value, level == 0)
    ensures Extends(s, MemberSpec(lat, canHandle, owner, m, level, s).value)
    decreases owner, 1, 0
  {
    match m
    case MethodMember(ee) => VisitExecutableExtends(s, ee, level);
    case VariableMember(ve) => VisitVariableExtends(s, ve);
    case TypeMember(nid) =>
      RejectAllDefinesByStartLevel(lat, canHandle, nid, level, s);
      VisitTypeExtends(lat, canHandle, nid, level, s);
  }

  /** The plain methods a list of enclosed elements contributes when scanned at a level, in order. */
  function PlainMethods(ms: seq<Member>, level: int): seq<ExecutableElement>
  {
    if |ms| == 0 then []
    else
      PlainMethods(ms[..|ms| - 1], level) +
      match ms[|ms| - 1]
      case MethodMember(ee) => if ee.kind == MethodKind && BuildPropertyView(ee, level).None? then [ee] else []
      case _ => []
  }

  predicate HasMemberTypes(ms: seq<Member>)
  {
    exists j | 0 <= j < |ms| :: ms[j].TypeMember?
  }

  lemma {:induction false} MembersWithoutTypes(lat: Lattice, canHandle: TypeId -> bool, owner: TypeId, ms: seq<Member>,
                                               level: int, s: DefinitionState)
    requires WellFounded(lat) && owner in lat && MembersBelow(lat, ms, owner) && !HasMemberTypes(ms)
    ensures MembersSpec(lat, canHandle, owner, ms, level, s).Success?
    ensures var r := MembersSpec(lat, canHandle, owner, ms, level, s).value;
              r.methods == s.methods + PlainMethods(ms, level) &&
              r.pkg == s.pkg && r.className == s.className && r.typeParameters == s.typeParameters
    decreases |ms|
  {
    if |ms| > 0 {
      var init := ms[..|ms| - 1];
      assert !HasMemberTypes(init) by {
        assert forall j | 0 <= j < |init| :: init[j] == ms[j];
      }
      MembersWithoutTypes(lat, canHandle, owner, init, level, s);
      assert !ms[|ms| - 1].TypeMember?;
    }
  }

  /**
   * For a root type without member types, the walk names the definition after
   * the root, and the plain methods it declares come after every plain method
   * found in its super-interfaces: the methods are exactly those of the walk
   * over the super-interfaces, followed by the root's own plain methods.
   */
  lemma RootNamingAndOrder(lat: Lattice, canHandle: TypeId -> bool, id: TypeId, s: DefinitionState)
    requires WellFounded(lat) && id in lat
    requires lat[id].kind == InterfaceType || lat[id].kind == ClassType
    requires lat[id].qualifiedName != "" && !HasMemberTypes(lat[id].members)
    ensures VisitTypeSpec(lat, canHandle, id, 0, s).Success?
    ensures var r := VisitTypeSpec(lat, canHandle, id, 0, s).value;
            var parts := SplitPackageName(Some(lat[id].qualifiedName)).value;
              r.pkg == Some(parts.0) && r.className == Some(parts.1) &&
              exists inherited :: s.methods <= inherited && r.methods == inherited + PlainMethods(lat[id].members, 0)
    ensures var s1 := s.(elementType := Some(if lat[id].kind == InterfaceType then Interface else Class));
            var supers := SupersSpec(lat, canHandle, id, lat[id].interfaces, 0, s1);
              supers.Success? &&
              VisitTypeSpec(lat, canHandle, id, 0, s).value.methods == supers.value.methods + PlainMethods(lat[id].members, 0)
  {
    var t := lat[id];
    var s1 := s.(elementType := Some(if t.kind == InterfaceType then Interface else Class));
    DeepSupersKeepNames(lat, canHandle, id, t.interfaces, 0, s1);
    SupersExtends(lat, canHandle, id, t.interfaces, 0, s1);
    var s2 := SupersSpec(lat, canHandle, id, t.interfaces, 0, s1).value;
    var parts := SplitPackageName(Some(t.qualifiedName)).value;
    var s3 := s2.(pkg := Some(parts.0), className := Some(parts.1), typeParameters := s2.typeParameters + t.typeParameters);
    MembersWithoutTypes(lat, canHandle, id, t.members, 0, s3);
    assert s.methods <= s3.methods;
  }

  /** Once the scan of a prefix of the enclosed elements has thrown, the whole scan throws the same. */
  lemma {:induction false} MembersFailurePersists(lat: Lattice, canHandle: TypeId -> bool, owner: TypeId, ms: seq<Member>,
                                                  i: nat, level: int, s: DefinitionState)
    requires WellFounded(lat) && owner in lat && MembersBelow(lat, ms, owner) && i <= |ms|
    requires MembersSpec(lat, canHandle, owner, ms[..i], level, s).Failure?
    ensures MembersSpec(lat, canHandle, owner, ms, level, s) == MembersSpec(lat, canHandle, owner, ms[..i], level, s)
    decreases |ms| - i
  {
    if i < |ms| {
      assert ms[..i + 1][..i] == ms[..i];
      MembersFailurePersists(lat, canHandle, owner, ms, i + 1, level, s);
    } else {
      assert ms[..i] == ms;
    }
  }

  lemma {:induction false} SupersFailurePersists(lat: Lattice, canHandle: TypeId -> bool, owner: TypeId, supers: seq<TypeId>,
                                                 i: nat, level: int, s: DefinitionState)
    requires WellFounded(lat) && owner in lat && Below(lat, supers, owner) && i <= |supers|
    requires SupersSpec(lat, canHandle, owner, supers[..i], level, s).Failure?
    ensures SupersSpec(lat, canHandle, owner, supers, level, s) == SupersSpec(lat, canHandle, owner, supers[..i], level, s)
    decreases |supers| - i
  {
    if i < |supers| {
      assert supers[..i + 1][..i] == supers[..i];
      SupersFailurePersists(lat, canHandle, owner, supers, i + 1, level, s);
    } else {
      assert supers[..i] == supers;
    }
  }

  /** The visitor's environment: the current depth and the definition being filled. */
  class Environment {
    var level: int
    const definition: ClassDefinition

    constructor (definition: ClassDefinition)
      ensures this.definition == definition && level == 0
    {
      this.definition := definition;
      level := 0;
    }

    method SetLevel(l: int)
      modifies this`level
      ensures level == l
    {
      level := l;
    }
  }

  /** The walk itself, over the definition objects; its filter decides which super-interfaces are entered. */
  class PropertyVisitor {
    const canHandle: TypeId -> bool

    constructor (canHandle: TypeId -> bool)
      ensures this.canHandle == canHandle
    {
      this.canHandle := canHandle;
    }

    /** buildPropertyFromExecutableElement: a new property object, or null. */
    method BuildProperty(ee: ExecutableElement, env: Environment) returns (property: Property?)
      ensures property == null <==> BuildPropertyView(ee, env.level).None?
      ensures property != null ==> fresh(property) && property.View() == BuildPropertyView(ee, env.level).value
    {
      property := null;
      if ee.kind == MethodKind {
        var level := env.level;
        var name := ee.name;
        var isDefined := level == 0;
        if StartsWith(name, "get") || StartsWith(name, "set") || StartsWith(name, "is") {
          if StartsWith(name, "get") {
            property := new Property(Uncapitalize(name[3..]), ee.returnType, isDefined, Some(ee), None);
          } else if StartsWith(name, "set") {
            if |ee.parameters| == 1 {
              property := new Property(Uncapitalize(name[3..]), ee.parameters[0], isDefined, None, Some(ee));
            }
          } else if StartsWith(name, "is") {
            if ee.returnType == BooleanType || ee.returnType == BoxedBoolean {
              property := new Property(Uncapitalize(name[2..]), ee.returnType, isDefined, Some(ee), None);
            }
          }
          if property != null && ee.property.Some? {
            var a := ee.property.value;
            property.SetRetainType(a.retainType);
            property.SetRealType(Some(a.realType));
            property.SetIgnored(a.ignore);
          }
        }
      }
    }

    /** buildFieldFromVariableElement: a new field object for a FIELD variable, or null. */
    method BuildField(ve: VariableElement) returns (field: Field?)
      ensures field == null <==> BuildFieldView(ve).None?
      ensures field != null ==> fresh(field) && field.View() == BuildFieldView(ve).value
    {
      field := null;
      if ve.kind == FieldKind {
        field := new Field(ve.name, ve.typ);
        if ve.field.Some? {
          var a := ve.field.value;
          field.SetRetainType(a.retainType);
          field.SetRealType(Some(a.realType));
          field.SetIgnored(a.ignore);
          field.SetReadOnly(a.readOnly);
          field.SetMethodModifier(a.methodModifier);
        }
      }
    }

    /** mergeProperty: the earlier property takes over the candidate's reader and writer, when it has them. */
    method MergeProperty(p1: Property, p2: Property)
      modifies p1
      ensures p1.View() == MergeView(old(p1.View()), old(p2.View()))
    {
      if p2.readable {
        p1.SetReader(p2.reader);
      }
      if p2.writable {
        p1.SetWriter(p2.writer);
      }
    }

    /** visitVariable: a FIELD variable is added to the definition as a field. */
    method VisitVariable(ve: VariableElement, env: Environment)
      requires env.definition.Unaliased()
      modifies env.definition`fields, env.definition.fields, env.definition.properties
      ensures env.definition.Unaliased()
      ensures env.definition.State() == VisitVariableSpec(old(env.definition.State()), ve)
      ensures old(env.definition.fields) <= env.definition.fields && env.definition.properties == old(env.definition.properties)
      ensures fresh(set g | g in env.definition.fields && g !in old(env.definition.fields))
    {
      var d := env.definition;
      var field := BuildField(ve);
      if field != null {
        AddNewField(d, field);
      }
    }

    /** visitExecutable: a method becomes a property (new or merged into an earlier one) or a plain method. */
    method VisitExecutable(ee: ExecutableElement, env: Environment)
      requires env.definition.Unaliased()
      modifies env.definition`properties, env.definition`methods, env.definition.fields, env.definition.properties
      ensures env.definition.Unaliased()
      ensures env.definition.State() == VisitExecutableSpec(old(env.definition.State()), ee, old(env.level))
      ensures env.definition.fields == old(env.definition.fields) && old(env.definition.properties) <= env.definition.properties
      ensures fresh(set p | p in env.definition.properties && p !in old(env.definition.properties))
    {
      if ee.kind != MethodKind {
        return;
      }
      var d := env.definition;
      ghost var s0 := d.State();
      ghost var level := env.level;
      var property := BuildProperty(ee, env);
      if property != null {
        ghost var pv := property.View();
        assert VisitExecutableSpec(s0, ee, level) == RecordPropertySpec(s0, pv);
        RecordProperty(d, property);
      } else {
        assert VisitExecutableSpec(s0, ee, level) == s0.(methods := s0.methods + [ee]);
        AddPlainMethod(d, ee);
      }
    }

    /** The new-property branch of visitExecutable: addProperties with the one property. */
    method AddNewProperty(d: ClassDefinition, property: Property)
      requires d.Unaliased() && property !in d.properties && !property.fieldDefined
      modifies d`properties, d.fields, property
      ensures d.Unaliased()
      ensures d.State() == AddPropertyToState(old(d.State()), old(property.View()))
      ensures d.fields == old(d.fields) && d.properties == old(d.properties) + [property]
    {
      ghost var s0 := d.State();
      ghost var pv := property.View();
      d.AddProperties(Some([property]));
      forall j | 0 <= j < |d.fields|
        ensures d.State().fields[j] ==
                  s0.fields[j].(propertyDefined := s0.fields[j].propertyDefined || PairedByProperties(d.fields, [property], d.fields[j]))
      {
        assert d.fields[j] in d.fields;
      }
      forall j | 0 <= j < |d.properties|
        ensures d.State().properties[j] == (s0.properties + [pv.(fieldDefined := PropertyKey(property) in FieldKeys(d.fields))])[j]
      {
        if j < |s0.properties| {
          assert d.properties[j] == old(d.properties)[j];
        }
      }
      AddedOneProperty(s0, d.fields, property, pv, d.State());
    }

    /** The merge branch of visitExecutable: the property found at position k takes over the new one's accessors. */
    method MergeIntoPrevious(d: ClassDefinition, prev: Property, property: Property, ghost k: nat)
      requires d.Unaliased() && k < |d.properties| && d.properties[k] == prev
      modifies prev
      ensures d.State() == old(d.State()).(properties := old(d.State()).properties[k := MergeView(old(prev.View()), old(property.View()))])
    {
      ghost var s0 := d.State();
      ghost var pv := property.View();
      MergeProperty(prev, property);
      forall j | 0 <= j < |d.properties|
        ensures d.State().properties[j] == s0.properties[k := MergeView(s0.properties[k], pv)][j]
      {
        if j != k {
          assert d.properties[j] != prev;
        }
      }
      forall j | 0 <= j < |d.fields|
        ensures d.State().fields[j] == s0.fields[j]
      {
      }
    }

    /**
     * visitType: for an interface or a class, the element type is recorded, the
     * accepted super-interfaces are walked one level deeper, and at level 0 the
     * definition is named after the type; then the enclosed elements are scanned.
     * The IllegalStateException for an empty name is the error result; it leaves
     * the level as it was at the throw.
     */
    method VisitType(lat: Lattice, id: TypeId, env: Environment) returns (err: Option<WalkError>)
      requires WellFounded(lat) && id in lat && env.definition.Unaliased()
      modifies env`level, env.definition, env.definition.fields, env.definition.properties
      ensures env.definition.Unaliased()
      ensures old(env.definition.fields) <= env.definition.fields && old(env.definition.properties) <= env.definition.properties
      ensures fresh(set g | g in env.definition.fields && g !in old(env.definition.fields))
      ensures fresh(set p | p in env.definition.properties && p !in old(env.definition.properties))
      ensures var r := VisitTypeSpec(lat, canHandle, id, old(env.level), old(env.definition.State()));
                (err.None? <==> r.Success?) &&
                (r.Success? ==> env.definition.State() == r.value && env.level == old(env.level)) &&
                (r.Failure? ==> err == Some(r.error))
      decreases id, 2
    {
      var t := lat[id];
      if t.kind == InterfaceType || t.kind == ClassType {
        err := VisitHeader(lat, id, env);
        if err.None? {
          err := VisitMembers(lat, id, t.members, env);
        }
      } else {
        err := VisitMembers(lat, id, t.members, env);
      }
    }

    /** The steps of visitType before the scan of an interface or a class. */
    method VisitHeader(lat: Lattice, id: TypeId, env: Environment) returns (err: Option<WalkError>)
      requires WellFounded(lat) && id in lat && env.definition.Unaliased()
      modifies env`level, env.definition, env.definition.fields, env.definition.properties
      ensures env.definition.Unaliased()
      ensures old(env.definition.fields) <= env.definition.fields && old(env.definition.properties) <= env.definition.properties
      ensures fresh(set g | g in env.definition.fields && g !in old(env.definition.fields))
      ensures fresh(set p | p in env.definition.properties && p !in old(env.definition.properties))
      ensures var r := HeaderSpec(lat, canHandle, id, old(env.level), old(env.definition.State()));
                (err.None? <==> r.Success?) &&
                (r.Success? ==> env.definition.State() == r.value && env.level == old(env.level)) &&
                (r.Failure? ==> err == Some(r.error))
      decreases id, 1, 1
    {
      var t := lat[id];
      var d := env.definition;
      d.SetElementType(Some(if t.kind == InterfaceType then Interface else Class));
      err := VisitSupers(lat, id, t.interfaces, env);
      if err.None? && env.level == 0 {
        err := NameDefinition(d, t.qualifiedName, t.typeParameters);
      }
    }

    /** The super-interface loop of visitType: the level is raised around every super-interface, accepted or not. */
    method VisitSupers(lat: Lattice, id: TypeId, supers: seq<TypeId>, env: Environment) returns (err: Option<WalkError>)
      requires WellFounded(lat) && id in lat && Below(lat, supers, id) && env.definition.Unaliased()
      modifies env`level, env.definition, env.definition.fields, env.definition.properties
      ensures env.definition.Unaliased()
      ensures old(env.definition.fields) <= env.definition.fields && old(env.definition.properties) <= env.definition.properties
      ensures fresh(set g | g in env.definition.fields && g !in old(env.definition.fields))
      ensures fresh(set p | p in env.definition.properties && p !in old(env.definition.properties))
      ensures var r := SupersSpec(lat, canHandle, id, supers, old(env.level), old(env.definition.State()));
                (err.None? <==> r.Success?) &&
                (r.Success? ==> env.definition.State() == r.value && env.level == old(env.level)) &&
                (r.Failure? ==> err == Some(r.error))
      decreases id, 1, 0
    {
      var i := 0;
      while i < |supers|
        invariant 0 <= i <= |supers|
        invariant env.definition.Unaliased() && env.level == old(env.level)
        invariant old(env.definition.fields) <= env.definition.fields && old(env.definition.properties) <= env.definition.properties
        invariant fresh(set g | g in env.definition.fields && g !in old(env.definition.fields))
        invariant fresh(set p | p in env.definition.properties && p !in old(env.definition.properties))
        invariant SupersSpec(lat, canHandle, id, supers[..i], old(env.level), old(env.definition.State())) == Success(env.definition.State())
      {
        assert supers[..i + 1][..i] == supers[..i];
        err := VisitSuper(lat, id, supers[i], env);
        if err.Some? {
          SupersFailurePersists(lat, canHandle, id, supers, i + 1, old(env.level), old(env.definition.State()));
          return;
        }
        i := i + 1;
      }
      assert supers[..i] == supers;
      return None;
    }

    /** One super-interface of visitType: the level is raised around it, whether it is accepted or not. */
    method VisitSuper(lat: Lattice, id: TypeId, sup: TypeId, env: Environment) returns (err: Option<WalkError>)
      requires WellFounded(lat) && id in lat && sup in lat && sup < id && env.definition.Unaliased()
      modifies env`level, env.definition, env.definition.fields, env.definition.properties
      ensures env.definition.Unaliased()
      ensures old(env.definition.fields) <= env.definition.fields && old(env.definition.properties) <= env.definition.properties
      ensures fresh(set g | g in env.definition.fields && g !in old(env.definition.fields))
      ensures fresh(set p | p in env.definition.properties && p !in old(env.definition.properties))
      ensures var r := SuperSpec(lat, canHandle, id, sup, old(env.level), old(env.definition.State()));
                (err.None? <==> r.Success?) &&
                (r.Success? ==> env.definition.State() == r.value && env.level == old(env.level)) &&
                (r.Failure? ==> err == Some(r.error))
      decreases id, 0
    {
      env.SetLevel(env.level + 1);
      err := None;
      if canHandle(sup) {
        err := VisitType(lat, sup, env);
        if err.Some? {
          return;
        }
      }
      env.SetLevel(env.level - 1);
    }

    /** The scan of the enclosed elements (ElementScanner6.visitType), in declaration order. */
    method VisitMembers(lat: Lattice, id: TypeId, ms: seq<Member>, env: Environment) returns (err: Option<WalkError>)
      requires WellFounded(lat) && id in lat && MembersBelow(lat, ms, id) && env.definition.Unaliased()
      modifies env`level, env.definition, env.definition.fields, env.definition.properties
      ensures env.definition.Unaliased()
      ensures old(env.definition.fields) <= env.definition.fields && old(env.definition.properties) <= env.definition.properties
      ensures fresh(set g | g in env.definition.fields && g !in old(env.definition.fields))
      ensures fresh(set p | p in env.definition.properties && p !in old(env.definition.properties))
      ensures var r := MembersSpec(lat, canHandle, id, ms, old(env.level), old(env.definition.State()));
                (err.None? <==> r.Success?) &&
                (r.Success? ==> env.definition.State() == r.value && env.level == old(env.level)) &&
                (r.Failure? ==> err == Some(r.error))
      decreases id, 1, 0
    {
      var i := 0;
      while i < |ms|
        invariant 0 <= i <= |ms|
        invariant env.definition.Unaliased() && env.level == old(env.level)
        invariant old(env.definition.fields) <= env.definition.fields && old(env.definition.properties) <= env.definition.properties
        invariant fresh(set g | g in env.definition.fields && g !in old(env.definition.fields))
        invariant fresh(set p | p in env.definition.properties && p !in old(env.definition.properties))
        invariant MembersSpec(lat, canHandle, id, ms[..i], old(env.level), old(env.definition.State())) == Success(env.definition.State())
      {
        assert ms[..i + 1][..i] == ms[..i];
        err := VisitMember(lat, id, ms[i], env);
        if err.Some? {
          MembersFailurePersists(lat, canHandle, id, ms, i + 1, old(env.level), old(env.definition.State()));
          return;
        }
        i := i + 1;
      }
      assert ms[..i] == ms;
      return None;
    }

    /**
     * The naming step of visitType at level 0: package, class name and the type's
     * own type parameters, or the error for an empty qualified name.
     */
    method NameDefinition(d: ClassDefinition, qualifiedName: string, typeParameters: seq<string>) returns (err: Option<WalkError>)
      modifies d`pkg, d`className, d`typeParameters
      ensures err.Some? <==> SplitPackageName(Some(qualifiedName)).None?
      ensures err.Some? ==> err == Some(EmptyQualifiedName) && d.State() == old(d.State())
      ensures err.None? ==>
                var parts := SplitPackageName(Some(qualifiedName)).value;
                d.State() == old(d.State()).(pkg := Some(parts.0), className := Some(parts.1),
                                             typeParameters := old(d.typeParameters) + typeParameters)
    {
      var splited := SplitPackageName(Some(qualifiedName));
      if splited.None? {
        return Some(EmptyQualifiedName);
      }
      d.SetPackage(Some(splited.value.0));
      d.SetClassName(Some(splited.value.1));
      d.AddTypeParameters(Some(typeParameters));
      return None;
    }

    /** The body of visitVariable once a field was built: addFields with the one field. */
    method AddNewField(d: ClassDefinition, field: Field)
      requires d.Unaliased() && field !in d.fields && !field.propertyDefined
      modifies d`fields, d.properties, field
      ensures d.Unaliased()
      ensures d.State() == AddFieldToState(old(d.State()), old(field.View()))
      ensures d.properties == old(d.properties) && d.fields == old(d.fields) + [field]
    {
      ghost var s0 := d.State();
      ghost var fv := field.View();
      d.AddFields(Some([field]));
      forall j | 0 <= j < |d.properties|
        ensures d.State().properties[j] ==
                  s0.properties[j].(fieldDefined := s0.properties[j].fieldDefined || PairedByFields(d.properties, [field], d.properties[j]))
      {
        assert d.properties[j] in d.properties;
      }
      forall j | 0 <= j < |d.fields|
        ensures d.State().fields[j] == (s0.fields + [fv.(propertyDefined := FieldKey(field) in PropertyKeys(d.properties))])[j]
      {
        if j < |s0.fields| {
          assert d.fields[j] == old(d.fields)[j];
        }
      }
      AddedOneField(s0, d.properties, field, fv, d.State());
    }

    /** The visit of one enclosed element. */
    method VisitMember(lat: Lattice, id: TypeId, m: Member, env: Environment) returns (err: Option<WalkError>)
      requires WellFounded(lat) && id in lat && (m.TypeMember? ==> m.id in lat && m.id < id) && env.definition.Unaliased()
      modifies env`level, env.definition, env.definition.fields, env.definition.properties
      ensures env.definition.Unaliased()
      ensures old(env.definition.fields) <= env.definition.fields && old(env.definition.properties) <= env.definition.properties
      ensures fresh(set g | g in env.definition.fields && g !in old(env.definition.fields))
      ensures fresh(set p | p in env.definition.properties && p !in old(env.definition.properties))
      ensures var r := MemberSpec(lat, canHandle, id, m, old(env.level), old(env.definition.State()));
                (err.None? <==> r.Success?) &&
                (r.Success? ==> env.definition.State() == r.value && env.level == old(env.level)) &&
                (r.Failure? ==> err == Some(r.error))
      decreases id, 0
    {
      match m
      case MethodMember(ee) =>
        VisitExecutable(ee, env);
        err := None;
      case VariableMember(ve) =>
        VisitVariable(ve, env);
        err := None;
      case TypeMember(nid) =>
        err := VisitType(lat, nid, env);
    }

    /** The plain-method branch of visitExecutable: addMethods with the one method. */
    method AddPlainMethod(d: ClassDefinition, ee: ExecutableElement)
      modifies d`methods
      ensures d.State() == old(d.State()).(methods := old(d.methods) + [ee])
    {
      ghost var s0 := d.State();
      d.AddMethods(Some([ee]));
      forall j | 0 <= j < |d.fields|
        ensures d.State().fields[j] == s0.fields[j]
      {
      }
      forall j | 0 <= j < |d.properties|
        ensures d.State().properties[j] == s0.properties[j]
      {
      }
    }

    /** The property branch of visitExecutable: findProperty, then mergeProperty or addProperties. */
    method RecordProperty(d: ClassDefinition, property: Property)
      requires d.Unaliased() && property !in d.properties && !property.fieldDefined
      modifies d`properties, d.fields, d.properties, property
      ensures d.Unaliased()
      ensures d.State() == RecordPropertySpec(old(d.State()), old(property.View()))
      ensures d.fields == old(d.fields) && old(d.properties) <= d.properties
      ensures d.properties == old(d.properties) || d.properties == old(d.properties) + [property]
    {
      ghost var s0 := d.State();
      assert PropertyViewKeys(s0.properties) == PropertyKeys(d.properties);
      var prev := d.FindProperty(property.name, property.typ);
      if prev != null {
        ghost var k := FirstMatch(PropertyKeys(d.properties), PropertyKey(property));
        MergeIntoPrevious(d, prev, property, k);
      } else {
        AddNewProperty(d, property);
      }
    }
  }
}
