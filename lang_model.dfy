/**
 * The part of the compiler's element and type model (javax.lang.model) that the
 * processors read, as plain values. Types are compared by equality, which stands
 * for the compiler's same-type test.
 */
module LangModel {
  import opened Wrappers

  datatype PrimitiveKind = Boolean | Byte | Short | Int | Long | Char | Float | Double | Void

  /** A primitive type, or any other type by its source text (a class, interface, array or type variable). */
  datatype JType = Primitive(kind: PrimitiveKind) | Declared(name: string)

  const BooleanType: JType := Primitive(Boolean)
  const BoxedBoolean: JType := Declared("java.lang.Boolean")
  /** The type an annotation's `realType` member names when it is left at `Void.class`. */
  const VoidClass: JType := Declared("java.lang.Void")

  function KindKeyword(k: PrimitiveKind): string
  {
    match k
    case Boolean => "boolean"
    case Byte => "byte"
    case Short => "short"
    case Int => "int"
    case Long => "long"
    case Char => "char"
    case Float => "float"
    case Double => "double"
    case Void => "void"
  }

  /** The type as it is written into generated source. */
  function TypeText(t: JType): string
  {
    match t
    case Primitive(k) => KindKeyword(k)
    case Declared(n) => n
  }

  /** The values an element's @Property annotation carries, defaults included. */
  datatype PropertyAnnotation = PropertyAnnotation(retainType: string, realType: JType, ignore: bool)

  /** The values a field's @Field annotation carries, defaults included. */
  datatype FieldAnnotation =
    FieldAnnotation(retainType: string, realType: JType, ignore: bool, readOnly: bool, methodModifier: string)

  /** The declared defaults of @Field: HOLD, Void.class, false, false, PUBLIC. */
  const FieldAnnotationDefaults: FieldAnnotation := FieldAnnotation("HOLD", VoidClass, false, false, "PUBLIC")

  datatype ExecutableKind = MethodKind | ConstructorKind | StaticInitKind | InstanceInitKind

  datatype ExecutableElement = ExecutableElement(
    kind: ExecutableKind,
    name: string,
    returnType: JType,
    parameters: seq<JType>,
    property: Option<PropertyAnnotation>)

  datatype VariableKind = FieldKind | EnumConstantKind | ParameterKind

  datatype VariableElement = VariableElement(kind: VariableKind, name: string, typ: JType, field: Option<FieldAnnotation>)

  type TypeId = nat

  datatype TypeKind = InterfaceType | ClassType | EnumType | AnnotationType

  /** An enclosed element of a type: a method, a variable, or a member type named by its id. */
  datatype Member = MethodMember(e: ExecutableElement) | VariableMember(v: VariableElement) | TypeMember(id: TypeId)

  datatype TypeElement = TypeElement(
    kind: TypeKind,
    qualifiedName: string,
    interfaces: seq<TypeId>,
    members: seq<Member>,
    typeParameters: seq<string>)

  /** The types the compiler knows, by id. */
  type Lattice = map<TypeId, TypeElement>

  /**
   * Every super-interface and every member type of a type is known and has a
   * smaller id, which makes the type graph acyclic.
   */
  ghost predicate WellFounded(lat: Lattice)
  {
    forall id | id in lat ::
      (forall j | 0 <= j < |lat[id].interfaces| :: lat[id].interfaces[j] in lat && lat[id].interfaces[j] < id) &&
      (forall j | 0 <= j < |lat[id].members| && lat[id].members[j].TypeMember? ::
        lat[id].members[j].id in lat && lat[id].members[j].id < id)
  }
}
