/**
 * The text the interface processor (interfaceprocessor/InterfaceProcessor.java)
 * writes for an annotated interface, as a list of lines: each line stands for
 * the characters written up to a "\n", and the file ends with a closing "}"
 * that has no newline after it. Every section is a function of the
 * @GenerateClass values, the definition snapshot and the indent level it is
 * written at; the lemmas state the choices the generator makes.
 */
module ProcessorText {
  import opened Wrappers
  import opened Strings
  import opened ReservedWords
  import opened LangModel
  import opened FieldModifiers
  import opened InterfaceProperties
  import opened InterfaceDefinitions

  /** The value of @javax.annotation.Generated: the processor's class name. */
  const ProcessorName: string := "com.shelfmap.interfaceprocessor.InterfaceProcessor"

  /** The values of @GenerateClass the generator reads, defaults included. superClass is "" when it names Void. */
  datatype GenerateClassValues = GenerateClassValues(
    autoGenerate: bool,
    className: string,
    packageName: string,
    packageNameRelative: bool,
    threadSafe: bool,
    cloneable: bool,
    serializable: bool,
    serialVersion: int,
    superClass: string,
    fieldModifier: FieldModifier)

  /**
   * Everything a section depends on besides the definition: the annotation values,
   * whether the interface extends PropertyChangeEventAware, and the retain
   * strategy, RetainType.codeFor, applied to the safe name and the property.
   */
  datatype Options = Options(
    values: GenerateClassValues,
    propertyChangeAware: bool,
    codeFor: (string, PropertyView) -> string)

  // ---------------------------------------------------------------------------
  // Names, types and indentation

  /** toSafeName: a reserved word gets a leading underscore. */
  function ToSafeName(w: string): string
  {
    if IsPreserved(w) then "_" + w else w
  }

  /**
   * Escaping is not one-to-one: a reserved word and the same word already written with a
   * leading underscore get the same safe name.
   */
  lemma SafeNameCollision(w: string)
    requires IsPreserved(w)
    ensures w != "_" + w && ToSafeName(w) == ToSafeName("_" + w)
  {
    if IsPreserved("_" + w) {
      InitialIsLowerCase("_" + w);
    }
    assert (("_" + w)[0] == '_');
  }

  /** The safe name is never reserved, and it differs from the word exactly when the word is reserved. */
  lemma SafeNameIsNotReserved(w: string)
    ensures !IsPreserved(ToSafeName(w))
    ensures ToSafeName(w) == "_" + w <==> IsPreserved(w)
    ensures ToSafeName(w) == w <==> !IsPreserved(w)
  {
    if IsPreserved(w) {
      NoWordStartsWithUnderscore("_" + w);
    }
  }

  /** isPrimitive: the eight primitive kinds and void. */
  predicate IsPrimitive(t: JType)
  {
    t.Primitive?
  }

  /** isBoolean: the primitive boolean, or the same type as its boxed class. */
  predicate IsBoolean(t: JType)
  {
    t == BooleanType || t == BoxedBoolean
  }

  /** retain: the expression that reads (with prefix "this.") or stores a property's value. */
  function Retain(o: Options, p: PropertyView, prefix: string): (r: string)
    ensures IsPrimitive(p.typ) ==> r == prefix + ToSafeName(p.name)
  {
    var safeName := prefix + ToSafeName(p.name);
    if IsPrimitive(p.typ) then safeName else o.codeFor(safeName, p)
  }

  /** The level of a method's statements: one deeper than its signature, two inside the lock's try block. */
  function BodyShift(threadSafe: bool, shift: int): int
  {
    shift + (if threadSafe then 2 else 1)
  }

  /** indent: four spaces per level, nothing for a level of zero or less. */
  function Indent(n: int): (r: string)
    ensures |r| == if n <= 0 then 0 else 4 * n
    ensures forall i | 0 <= i < |r| :: r[i] == ' '
    decreases if n <= 0 then 0 else n
  {
    if n <= 0 then "" else Indent(n - 1) + "    "
  }

  /** The getter's name: `is` for boolean and Boolean properties, `get` otherwise, then the capitalized name. */
  function GetterName(p: PropertyView): string
  {
    (if IsBoolean(p.typ) then "is" else "get") + Capitalize(p.name)
  }

  function SetterName(p: PropertyView): string
  {
    "set" + Capitalize(p.name)
  }

  /** Java's Long.toString for the serial version. */
  function DecimalText(n: int): (r: string)
    ensures |r| > 0
  {
    if n < 0 then "-" + Digits(-n) else Digits(n)
  }

  function Digits(n: nat): (r: string)
    ensures |r| > 0 && forall i | 0 <= i < |r| :: '0' <= r[i] <= '9'
  {
    if n < 10 then [DigitChar(n)] else Digits(n / 10) + [DigitChar(n % 10)]
  }

  function DigitChar(d: nat): (c: char)
    requires d < 10
    ensures '0' <= c <= '9' && (c as int) - ('0' as int) == d
  {
    (('0' as int) + d) as char
  }

  /** The inverse reading of a decimal numeral, as Long.parseLong reads it. */
  function ParseDecimal(s: string): int
  {
    if |s| > 0 && s[0] == '-' then -ParseDigits(s[1..]) else ParseDigits(s)
  }

  function ParseDigits(s: string): int
  {
    if |s| == 0 then 0 else 10 * ParseDigits(s[..|s| - 1]) + ((s[|s| - 1] as int) - ('0' as int))
  }

  // ---------------------------------------------------------------------------
  // The choices the generator reads off the definition

  /** The properties the generator writes code for, in order: the ones not ignored. */
  function NonIgnored(ps: seq<PropertyView>): (r: seq<PropertyView>)
    ensures |r| <= |ps|
  {
    if |ps| == 0 then []
    else NonIgnored(ps[..|ps| - 1]) + (if ps[|ps| - 1].ignore then [] else [ps[|ps| - 1]])
  }

  /** NonIgnored keeps exactly the properties that are not ignored. */
  lemma {:induction false} NonIgnoredMembers(ps: seq<PropertyView>)
    ensures forall p :: p in NonIgnored(ps) <==> p in ps && !p.ignore
  {
    if |ps| > 0 {
      var init := ps[..|ps| - 1];
      NonIgnoredMembers(init);
      assert ps == init + [ps[|ps| - 1]];
    }
  }

  /** The properties the read-only constructor takes: readable and not writable. */
  function ReadOnly(ms: seq<PropertyView>): (r: seq<PropertyView>)
    ensures |r| <= |ms|
  {
    if |ms| == 0 then []
    else
      var p := ms[|ms| - 1];
      ReadOnly(ms[..|ms| - 1]) + (if !p.writable && p.readable then [p] else [])
  }

  /** ReadOnly keeps exactly the readable properties that are not writable. */
  lemma {:induction false} ReadOnlyMembers(ms: seq<PropertyView>)
    ensures forall p :: p in ReadOnly(ms) <==> p in ms && p.readable && !p.writable
  {
    if |ms| > 0 {
      var init := ms[..|ms| - 1];
      ReadOnlyMembers(init);
      assert ms == init + [ms[|ms| - 1]];
    }
  }

  function NumReadable(ms: seq<PropertyView>): (n: nat)
    ensures n <= |ms|
  {
    if |ms| == 0 then 0 else NumReadable(ms[..|ms| - 1]) + (if ms[|ms| - 1].readable then 1 else 0)
  }

  function NumWritable(ms: seq<PropertyView>): (n: nat)
    ensures n <= |ms|
  {
    if |ms| == 0 then 0 else NumWritable(ms[..|ms| - 1]) + (if ms[|ms| - 1].writable then 1 else 0)
  }

  /**
   * isAbstract: true when the definition has no plain method and no ignored
   * property, which is when the generated class is concrete.
   */
  predicate IsAbstract(d: DefinitionView)
  {
    d.methods == [] && !HasIgnored(d.properties)
  }

  /** resolvePackageName: the annotation's package, made relative to the interface's package or defaulted to its `impl` sub-package. */
  function ResolvePackageName(v: GenerateClassValues, interfacePackage: Option<string>): string
  {
    if v.packageName == "" then StringOf(interfacePackage) + ".impl"
    else if v.packageNameRelative then StringOf(interfacePackage) + "." + v.packageName
    else v.packageName
  }

  /** resolveImplementationClassName: the annotation's class name, or a prefix and the capitalized interface name. */
  function ResolveImplementationClassName(v: GenerateClassValues, d: DefinitionView): string
  {
    if v.className == "" then
      if IsAbstract(d) then "Default" + StringOf(CapitalizeOrNull(d.interfaceName)) + ""
      else "Abstract" + StringOf(CapitalizeOrNull(d.interfaceName)) + ""
    else v.className
  }

  /** Joins the parts with the separator between them, none before the first. */
  function Join(sep: string, parts: seq<string>): string
  {
    if |parts| == 0 then ""
    else if |parts| == 1 then parts[0]
    else Join(sep, parts[..|parts| - 1]) + sep + parts[|parts| - 1]
  }

  /** The text written before every part but the first, in a list built with an isFirst flag. */
  function Separator(first: bool): string
  {
    if first then "" else ", "
  }

  // ---------------------------------------------------------------------------
  // generateClassDefinition

  /** The class's modifier: `abstract ` unless isAbstract holds. */
  function ClassModifier(d: DefinitionView): string
  {
    if IsAbstract(d) then "" else "abstract "
  }

  /** The declaration after `class `: the name, the superclass, the interface and Serializable. */
  function DeclarationTail(v: GenerateClassValues, d: DefinitionView, className: string): string
  {
    className +
    (if v.superClass != "" then " extends " + v.superClass else "") +
    " implements " + StringOf(d.pkg) + "." + StringOf(d.interfaceName) +
    (if v.serializable then ", java.io.Serializable" else "") + " {"
  }

  function ClassDeclaration(v: GenerateClassValues, d: DefinitionView, className: string): string
  {
    "public " + ClassModifier(d) + "class " + DeclarationTail(v, d, className)
  }

  function HeaderLines(v: GenerateClassValues, d: DefinitionView, className: string, generationTime: string): seq<string>
  {
    ["package " + ResolvePackageName(v, d.pkg) + ";",
     "",
     "@javax.annotation.Generated(value = \"" + ProcessorName + "\", date = \"" + generationTime + "\")",
     ClassDeclaration(v, d, className)] +
    (if v.serializable then [Indent(1) + "private static final long serialVersionUID = " + DecimalText(v.serialVersion) + "L;"] else [])
  }

  // ---------------------------------------------------------------------------
  // generateFields

  function FieldLine(m: FieldModifier, p: PropertyView, shift: int): string
  {
    Indent(shift) + Keyword(m) + (if m == Default then "" else " ") + TypeText(p.typ) + " " + ToSafeName(p.name) + ";"
  }

  /** One declaration per property that is not ignored, in order. */
  function FieldLines(m: FieldModifier, ps: seq<PropertyView>, shift: int): (r: seq<string>)
    ensures |r| == |NonIgnored(ps)|
    ensures forall k | 0 <= k < |r| :: r[k] == FieldLine(m, NonIgnored(ps)[k], shift)
  {
    if |ps| == 0 then []
    else
      var p := ps[|ps| - 1];
      FieldLines(m, ps[..|ps| - 1], shift) + (if p.ignore then [] else [FieldLine(m, p, shift)])
  }

  const SupportFieldText: string := "protected final java.beans.PropertyChangeSupport propertySupport;"
  const LockFieldText: string :=
    "protected final java.util.concurrent.locks.ReadWriteLock instanceLock = new java.util.concurrent.locks.ReentrantReadWriteLock();"

  function FieldsSection(o: Options, ps: seq<PropertyView>, shift: int): seq<string>
  {
    FieldLines(o.values.fieldModifier, ps, shift) +
    (if o.propertyChangeAware then ["", Indent(shift) + SupportFieldText] else []) +
    (if o.values.threadSafe then ["", Indent(shift) + LockFieldText] else []) +
    [""]
  }

  // ---------------------------------------------------------------------------
  // generateConstructors

  function Parameter(p: PropertyView): string
  {
    TypeText(p.typ) + " " + ToSafeName(p.name)
  }

  /** The parameter list as written with the isFirst flag: each parameter after its separator. */
  function ParameterText(ms: seq<PropertyView>): (r: string)
  {
    if |ms| == 0 then ""
    else ParameterText(ms[..|ms| - 1]) + Separator(|ms| == 1) + Parameter(ms[|ms| - 1])
  }

  function Parameters(ms: seq<PropertyView>): (r: seq<string>)
    ensures |r| == |ms| && forall k | 0 <= k < |ms| :: r[k] == Parameter(ms[k])
  {
    if |ms| == 0 then []
    else
      var init := ms[..|ms| - 1];
      assert forall k | 0 <= k < |init| :: init[k] == ms[k];
      Parameters(init) + [Parameter(ms[|ms| - 1])]
  }

  function Initializers(o: Options, ms: seq<PropertyView>, shift: int): (r: seq<string>)
    ensures |r| == |ms|
    ensures forall k | 0 <= k < |ms| ::
              r[k] == Indent(shift) + "this." + ToSafeName(ms[k].name) + " = " + Retain(o, ms[k], "") + ";"
  {
    if |ms| == 0 then []
    else
      var init, p := ms[..|ms| - 1], ms[|ms| - 1];
      assert forall k | 0 <= k < |init| :: init[k] == ms[k];
      Initializers(o, init, shift) + [Indent(shift) + "this." + ToSafeName(p.name) + " = " + Retain(o, p, "") + ";"]
  }

  const SupportInitText: string := "this.propertySupport = new java.beans.PropertyChangeSupport(this);"

  /** A constructor taking the given properties, in order. */
  function ConstructorLines(o: Options, ms: seq<PropertyView>, className: string, shift: int): seq<string>
  {
    [Indent(shift) + "public " + className + "(" + ParameterText(ms) + ") {",
     Indent(shift + 1) + "super();"] +
    Initializers(o, ms, shift + 1) +
    (if o.propertyChangeAware then [Indent(shift + 1) + SupportInitText] else []) +
    [Indent(shift) + "}", ""]
  }

  /** The test of generateConstructors that decides on the second constructor, with its counters. */
  predicate WritesReadOnlyConstructor(ps: seq<PropertyView>)
  {
    var ms := NonIgnored(ps);
    NumReadable(ms) - NumWritable(ms) != |ms|
  }

  function ConstructorsSection(o: Options, ps: seq<PropertyView>, className: string, shift: int): seq<string>
  {
    var ms := NonIgnored(ps);
    ConstructorLines(o, ms, className, shift) +
    (if WritesReadOnlyConstructor(ps) then ConstructorLines(o, ReadOnly(ms), className, shift) else [])
  }

  // ---------------------------------------------------------------------------
  // generatePropertyAccessors

  function GetterLines(o: Options, p: PropertyView, shift: int): seq<string>
  {
    var threadSafe := o.values.threadSafe;
    [Indent(shift) + "@Override",
     Indent(shift) + "public " + TypeText(p.typ) + " " + GetterName(p) + "() {"] +
    (if threadSafe then [Indent(shift + 1) + "instanceLock.readLock().lock();", Indent(shift + 1) + "try {"] else []) +
    [Indent(BodyShift(threadSafe, shift)) + "return " + Retain(o, p, "this.") + ";"] +
    (if threadSafe then
       [Indent(shift + 1) + "} finally {", Indent(shift + 2) + "instanceLock.readLock().unlock();", Indent(shift + 1) + "}"]
     else []) +
    [Indent(shift) + "}", ""]
  }

  /** The change test of a setter: reference types are also compared with equals. */
  function ChangeTest(p: PropertyView): string
  {
    "isPropertyChanged = (oldValue != newValue" +
    (if IsPrimitive(p.typ) then "" else " && (oldValue != null && !oldValue.equals(newValue))") + ");"
  }

  function UnlockLine(shift: int): string
  {
    Indent(shift + 2) + "instanceLock.writeLock().unlock();"
  }

  function FireLine(p: PropertyView, shift: int): string
  {
    Indent(shift + 2) + "this.propertySupport.firePropertyChange(\"" + p.name + "\", oldValue, newValue);"
  }

  /** The setter's signature, the locals of the change event and the write lock. */
  function SetterHead(o: Options, p: PropertyView, shift: int): seq<string>
  {
    var valueType := TypeText(p.typ);
    [Indent(shift) + "@Override",
     Indent(shift) + "public void " + SetterName(p) + "(" + valueType + " " + ToSafeName(p.name) + ") {"] +
    (if o.propertyChangeAware then
       [Indent(shift + 1) + valueType + " newValue" + (if IsPrimitive(p.typ) then "" else " = null") + ";",
        Indent(shift + 1) + valueType + " oldValue" + (if IsPrimitive(p.typ) then "" else " = null") + ";",
        Indent(shift + 1) + "boolean isPropertyChanged = false;"]
     else []) +
    (if o.values.threadSafe then [Indent(shift + 1) + "instanceLock.writeLock().lock();", Indent(shift + 1) + "try {"] else [])
  }

  /** The store of the retained value, through newValue and oldValue when the change is reported. */
  function SetterStore(o: Options, p: PropertyView, inner: int): seq<string>
  {
    var fieldName := ToSafeName(p.name);
    if o.propertyChangeAware then
      [Indent(inner) + "newValue = " + Retain(o, p, "") + ";",
       Indent(inner) + "oldValue = this." + fieldName + ";",
       Indent(inner) + "this." + fieldName + " = newValue;",
       Indent(inner) + ChangeTest(p)]
    else [Indent(inner) + "this." + fieldName + " = " + Retain(o, p, "") + ";"]
  }

  /** The release of the write lock in the finally block. */
  function SetterUnlock(threadSafe: bool, shift: int): seq<string>
  {
    if threadSafe then [Indent(shift + 1) + "} finally {", UnlockLine(shift), Indent(shift + 1) + "}"] else []
  }

  /** The change event, fired when the store changed the value. */
  function SetterFire(aware: bool, p: PropertyView, shift: int): seq<string>
  {
    if aware then [Indent(shift + 1) + "if (isPropertyChanged) {", FireLine(p, shift), Indent(shift + 1) + "}"] else []
  }

  /** The release of the write lock, then the change event, then the closing brace. */
  function SetterTail(o: Options, p: PropertyView, shift: int): seq<string>
  {
    SetterUnlock(o.values.threadSafe, shift) + SetterFire(o.propertyChangeAware, p, shift) + [Indent(shift) + "}", ""]
  }

  /** The setter's body: the locked store, then the release, then the change event. */
  function SetterLines(o: Options, p: PropertyView, shift: int): seq<string>
  {
    SetterHead(o, p, shift) + SetterStore(o, p, BodyShift(o.values.threadSafe, shift)) + SetterTail(o, p, shift)
  }

  /** A getter for a readable and a setter for a writable property; nothing for an ignored one. */
  function PropertyAccessorLines(o: Options, p: PropertyView, shift: int): seq<string>
  {
    if p.ignore then []
    else (if p.readable then GetterLines(o, p, shift) else []) + (if p.writable then SetterLines(o, p, shift) else [])
  }

  function AccessorsSection(o: Options, ps: seq<PropertyView>, shift: int): seq<string>
  {
    if |ps| == 0 then []
    else AccessorsSection(o, ps[..|ps| - 1], shift) + PropertyAccessorLines(o, ps[|ps| - 1], shift)
  }

  // ---------------------------------------------------------------------------
  // generateHashCode

  function HashExpression(p: PropertyView): string
  {
    var f := ToSafeName(p.name);
    match p.typ
    case Primitive(k) =>
      (match k
       case Float => "Float.floatToIntBits(this." + f + ")"
       case Double => "(int) (Double.doubleToLongBits(this." + f + ") ^ (Double.doubleToLongBits(this." + f + ") >>> 32))"
       case Boolean => "(this." + f + " ? 1 : 0)"
       case Long => "(int) (this." + f + " ^ (this." + f + " >>> 32))"
       case _ => "this." + f)
    case Declared(_) => "(this." + f + " != null ? this." + f + ".hashCode() : 0)"
  }

  function HashLine(expression: string, shift: int): string
  {
    Indent(shift) + "result = 31 * result + " + expression + ";"
  }

  function HashLines(ps: seq<PropertyView>, shift: int): (r: seq<string>)
    ensures |r| == |NonIgnored(ps)|
  {
    if |ps| == 0 then []
    else
      var p := ps[|ps| - 1];
      HashLines(ps[..|ps| - 1], shift) + (if p.ignore then [] else [HashLine(HashExpression(p), shift)])
  }

  function LockLines(threadSafe: bool, shift: int): seq<string>
  {
    if threadSafe then [Indent(shift) + "instanceLock.readLock().lock();", Indent(shift) + "try {"] else []
  }

  function UnlockLines(threadSafe: bool, shift: int): seq<string>
  {
    if threadSafe then [Indent(shift) + "} finally {", Indent(shift + 1) + "instanceLock.readLock().unlock();", Indent(shift) + "}"]
    else []
  }

  /** The lines of hashCode before the per-property lines: the seed of 17 and the read lock. */
  function HashCodeHead(threadSafe: bool, shift: int): seq<string>
  {
    [Indent(shift) + "@Override", Indent(shift) + "public int hashCode() {", Indent(shift + 1) + "int result = 17;"] +
    LockLines(threadSafe, shift + 1)
  }

  function HashCodeTail(threadSafe: bool, shift: int): seq<string>
  {
    UnlockLines(threadSafe, shift + 1) + [Indent(shift + 1) + "return result;", Indent(shift) + "}", ""]
  }

  function HashCodeSection(o: Options, ps: seq<PropertyView>, hasSuperClass: bool, shift: int): seq<string>
  {
    var threadSafe := o.values.threadSafe;
    var inner := BodyShift(threadSafe, shift);
    HashCodeHead(threadSafe, shift) +
    HashLines(ps, inner) +
    (if hasSuperClass then [HashLine("super.hashCode()", inner)] else []) +
    HashCodeTail(threadSafe, shift)
  }

  // ---------------------------------------------------------------------------
  // generateEquals

  /** The test that makes equals return false for one property. */
  function InequalityTest(p: PropertyView): string
  {
    var f := ToSafeName(p.name);
    match p.typ
    case Primitive(k) =>
      (match k
       case Float => "Float.floatToIntBits(this." + f + ") != Float.floatToIntBits(other." + f + ")"
       case Double => "Double.doubleToLongBits(this." + f + ") != Double.doubleToLongBits(other." + f + ")"
       case _ => "this." + f + " != other." + f)
    case Declared(_) =>
      "this." + f + " != other." + f + " && (this." + f + " == null || !this." + f + ".equals(other." + f + "))"
  }

  function ReturnFalseIf(test: string, shift: int): seq<string>
  {
    [Indent(shift) + "if (" + test + ") {", Indent(shift + 1) + "return false;", Indent(shift) + "}"]
  }

  function EqualLines(ps: seq<PropertyView>, shift: int): (r: seq<string>)
    ensures |r| == 3 * |NonIgnored(ps)|
  {
    if |ps| == 0 then []
    else
      var p := ps[|ps| - 1];
      EqualLines(ps[..|ps| - 1], shift) + (if p.ignore then [] else ReturnFalseIf(InequalityTest(p), shift))
  }

  /** The lines of equals before the per-property tests: null, type and cast, and the read lock. */
  function EqualsHead(threadSafe: bool, className: string, shift: int): seq<string>
  {
    [Indent(shift) + "@Override", Indent(shift) + "public boolean equals(Object obj) {"] +
    ReturnFalseIf("obj == null", shift + 1) + [""] +
    ReturnFalseIf("!(obj instanceof " + className + ")", shift + 1) + [""] +
    [Indent(shift + 1) + "final " + className + " other = (" + className + ") obj;"] +
    LockLines(threadSafe, shift + 1)
  }

  function EqualsTail(threadSafe: bool, shift: int): seq<string>
  {
    UnlockLines(threadSafe, shift + 1) + [Indent(shift + 1) + "return true;", Indent(shift) + "}", ""]
  }

  function EqualsSection(o: Options, ps: seq<PropertyView>, className: string, hasSuperClass: bool, shift: int): seq<string>
  {
    var threadSafe := o.values.threadSafe;
    var inner := BodyShift(threadSafe, shift);
    EqualsHead(threadSafe, className, shift) +
    EqualLines(ps, inner) +
    (if hasSuperClass then ReturnFalseIf("!super.equals(obj)", inner) else []) +
    EqualsTail(threadSafe, shift)
  }

  // ---------------------------------------------------------------------------
  // generateToString

  function MemberLine(p: PropertyView, first: bool, shift: int): string
  {
    var safeName := ToSafeName(p.name);
    Indent(shift) + " + \"" + Separator(first) + safeName + "=\" + " + safeName
  }

  /** The members of toString: every line after its separator but the first. */
  function MemberLines(ms: seq<PropertyView>, shift: int): (r: seq<string>)
    ensures |r| == |ms|
  {
    if |ms| == 0 then []
    else MemberLines(ms[..|ms| - 1], shift) + [MemberLine(ms[|ms| - 1], |ms| == 1, shift)]
  }

  function SuperClassMemberLine(first: bool, shift: int): string
  {
    Indent(shift) + " + \"" + Separator(first) + "superClass=\" + super.toString()"
  }

  /** The lines of toString before the members: the read lock and the class name with its brace. */
  function ToStringHead(threadSafe: bool, className: string, shift: int): seq<string>
  {
    var inner := BodyShift(threadSafe, shift);
    [Indent(shift) + "@Override", Indent(shift) + "public String toString() {"] +
    LockLines(threadSafe, shift + 1) +
    [Indent(inner) + "return \"" + className + "{\""]
  }

  /** The superclass's string, when there is a superclass, and the closing brace. */
  function ToStringClose(hasSuperClass: bool, first: bool, inner: int): seq<string>
  {
    (if hasSuperClass then [SuperClassMemberLine(first, inner + 1)] else []) + [Indent(inner + 1) + " + '}';"]
  }

  function ToStringTail(threadSafe: bool, shift: int): seq<string>
  {
    UnlockLines(threadSafe, shift + 1) + [Indent(shift) + "}", ""]
  }

  function ToStringSection(o: Options, ps: seq<PropertyView>, className: string, hasSuperClass: bool, shift: int): seq<string>
  {
    var threadSafe := o.values.threadSafe;
    var inner := BodyShift(threadSafe, shift);
    var ms := NonIgnored(ps);
    ToStringHead(threadSafe, className, shift) +
    MemberLines(ms, inner + 1) +
    ToStringClose(hasSuperClass, |ms| == 0, inner) +
    ToStringTail(threadSafe, shift)
  }

  // ---------------------------------------------------------------------------
  // generateClone and generatePropertyListenerAccessors: fixed text

  function CloneSection(className: string, shift: int): seq<string>
  {
    [Indent(shift) + "@Override",
     Indent(shift) + "public " + className + " clone() {",
     Indent(shift + 1) + "try {",
     Indent(shift + 2) + "return (" + className + ") super.clone();",
     Indent(shift + 1) + "} catch(CloneNotSupportedException ex) {",
     Indent(shift + 2) + "throw new IllegalStateException(ex);",
     Indent(shift + 1) + "}",
     Indent(shift) + "}",
     ""]
  }

  /** The fixed lines of the listener methods. */
  const AddListenersSignature: string := "public void addPropertyChangeListener(java.beans.PropertyChangeListener... listeners) {"
  const AddNamedListenersSignature: string := "public void addPropertyChangeListener(String propertyName, java.beans.PropertyChangeListener... listeners) {"
  const GetListenersSignature: string := "public java.util.Collection<java.beans.PropertyChangeListener> getPropertyChangeListeners() {"
  const GetNamedListenersSignature: string := "public java.util.Collection<java.beans.PropertyChangeListener> getPropertyChangeListeners(String propertyName) {"
  const HasListenersSignature: string := "public boolean hasListeners(String propertyName) {"
  const RemoveListenersSignature: string := "public void removePropertyChangeListener(java.beans.PropertyChangeListener... listeners) {"
  const RemoveNamedListenersSignature: string := "public void removePropertyChangeListener(String propertyName, java.beans.PropertyChangeListener... listeners) {"
  const GetListenersReturn: string := "return java.util.Arrays.asList(this.propertySupport.getPropertyChangeListeners());"
  const GetNamedListenersReturn: string := "return java.util.Arrays.asList(this.propertySupport.getPropertyChangeListeners(propertyName));"
  const HasListenersReturn: string := "return this.propertySupport.hasListeners(propertyName);"
  const ForEachListenerHeader: string := "for (java.beans.PropertyChangeListener listener : listeners) {"
  const ListenersArgumentCheck: string := "if(listeners == null) throw new IllegalArgumentException(\"the argument 'listeners' should not be null.\");"
  const NameArgumentCheck: string := "if(propertyName == null) throw new IllegalArgumentException(\"the argument 'propertyName' should not be null.\");"

  /** A listener method: its signature with the opening brace, its body one level deeper, and the closing brace. */
  function ListenerMethod(signature: string, body: seq<string>, shift: int): seq<string>
  {
    [Indent(shift) + "@Override", Indent(shift) + signature] + body + [Indent(shift) + "}", ""]
  }

  function ForEachListener(call: string, shift: int): seq<string>
  {
    [Indent(shift) + ForEachListenerHeader,
     Indent(shift + 1) + "this.propertySupport." + call + ";",
     Indent(shift) + "}"]
  }

  function AddListenersMethod(shift: int): seq<string>
  {
    ListenerMethod(AddListenersSignature,
      [Indent(shift + 1) + ListenersArgumentCheck] + ForEachListener("addPropertyChangeListener(listener)", shift + 1), shift)
  }

  function AddNamedListenersMethod(shift: int): seq<string>
  {
    ListenerMethod(AddNamedListenersSignature,
      [Indent(shift + 1) + NameArgumentCheck, Indent(shift + 1) + ListenersArgumentCheck] +
      ForEachListener("addPropertyChangeListener(propertyName, listener)", shift + 1), shift)
  }

  function GetListenersMethod(shift: int): seq<string>
  {
    ListenerMethod(GetListenersSignature,
      [Indent(shift + 1) + GetListenersReturn], shift)
  }

  function GetNamedListenersMethod(shift: int): seq<string>
  {
    ListenerMethod(GetNamedListenersSignature,
      [Indent(shift + 1) + NameArgumentCheck,
       Indent(shift + 1) + GetNamedListenersReturn], shift)
  }

  function HasListenersMethod(shift: int): seq<string>
  {
    ListenerMethod(HasListenersSignature,
      [Indent(shift + 1) + NameArgumentCheck, Indent(shift + 1) + HasListenersReturn], shift)
  }

  function RemoveListenersMethod(shift: int): seq<string>
  {
    ListenerMethod(RemoveListenersSignature,
      [Indent(shift + 1) + ListenersArgumentCheck] + ForEachListener("removePropertyChangeListener(listener)", shift + 1), shift)
  }

  function RemoveNamedListenersMethod(shift: int): seq<string>
  {
    ListenerMethod(RemoveNamedListenersSignature,
      [Indent(shift + 1) + NameArgumentCheck, Indent(shift + 1) + ListenersArgumentCheck] +
      ForEachListener("removePropertyChangeListener(propertyName, listener)", shift + 1), shift)
  }

  /** The seven listener methods of a change-aware class, in the order they are written. */
  function ListenersSection(shift: int): seq<string>
  {
    AddListenersMethod(shift) + AddNamedListenersMethod(shift) + GetListenersMethod(shift) + GetNamedListenersMethod(shift) +
    HasListenersMethod(shift) + RemoveListenersMethod(shift) + RemoveNamedListenersMethod(shift)
  }

  // ---------------------------------------------------------------------------
  // process: the sections in their fixed order

  /** The generated file: its qualified class name and its text. */
  datatype GeneratedFile = GeneratedFile(qualifiedName: string, text: string)

  /** The characters of the lines, each followed by its newline. */
  function Render(lines: seq<string>): string
  {
    if |lines| == 0 then "" else Render(lines[..|lines| - 1]) + lines[|lines| - 1] + "\n"
  }

  /** The state of the class: its fields, its constructors and its accessors. */
  function StateSections(o: Options, ps: seq<PropertyView>, className: string, shift: int): seq<string>
  {
    FieldsSection(o, ps, shift) + ConstructorsSection(o, ps, className, shift) + AccessorsSection(o, ps, shift)
  }

  /** The methods of Object the class overrides: hashCode, equals and toString. */
  function ObjectSections(o: Options, ps: seq<PropertyView>, className: string, hasSuperClass: bool, shift: int): seq<string>
  {
    HashCodeSection(o, ps, hasSuperClass, shift) + EqualsSection(o, ps, className, hasSuperClass, shift) +
    ToStringSection(o, ps, className, hasSuperClass, shift)
  }

  /** clone for a cloneable class, then the listener methods for a change-aware interface. */
  function OptionalSections(o: Options, className: string, shift: int): seq<string>
  {
    (if o.values.cloneable then CloneSection(className, shift) else []) +
    (if o.propertyChangeAware then ListenersSection(shift) else [])
  }

  /** Every section from the fields to the listener methods, as written at indent level 1. */
  function BodyLines(o: Options, d: DefinitionView, className: string): seq<string>
  {
    StateSections(o, d.properties, className, 1) +
    ObjectSections(o, d.properties, className, o.values.superClass != "", 1) +
    OptionalSections(o, className, 1)
  }

  function SourceLines(o: Options, d: DefinitionView, className: string, generationTime: string): seq<string>
  {
    HeaderLines(o.values, d, className, generationTime) + BodyLines(o, d, className)
  }

  /** process for one interface: nothing when autoGenerate is off, otherwise the file for the resolved names. */
  function ProcessSpec(o: Options, d: DefinitionView, generationTime: string): Option<GeneratedFile>
  {
    if !o.values.autoGenerate then None
    else
      var className := ResolveImplementationClassName(o.values, d);
      Some(GeneratedFile(ResolvePackageName(o.values, d.pkg) + "." + className,
                         Render(SourceLines(o, d, className, generationTime)) + "}"))
  }

  // ---------------------------------------------------------------------------
  // Properties of the generated text

  /** The header says `abstract` exactly when isAbstract is false: isAbstract holds for the concrete case. */
  lemma ConcreteHeaderIff(v: GenerateClassValues, d: DefinitionView, className: string)
    ensures StartsWith(ClassDeclaration(v, d, className), "public abstract class ") <==> !IsAbstract(d)
    ensures StartsWith(ClassDeclaration(v, d, className), "public class ") <==> IsAbstract(d)
  {
    var decl := ClassDeclaration(v, d, className);
    var tail := DeclarationTail(v, d, className);
    if IsAbstract(d) {
      assert decl == "public class " + tail;
      PrefixOfConcat("public class ", tail);
      NotPrefixAt(decl, "public abstract class ", 7);
    } else {
      assert decl == "public abstract class " + tail;
      PrefixOfConcat("public abstract class ", tail);
      NotPrefixAt(decl, "public class ", 7);
    }
  }

  /** The separating space after the modifier is written exactly when the modifier's keyword is not empty. */
  lemma FieldDeclarationSpacing(m: FieldModifier, p: PropertyView, shift: int)
    ensures FieldLine(m, p, shift) ==
              Indent(shift) + (if Keyword(m) == "" then "" else Keyword(m) + " ") + TypeText(p.typ) + " " + ToSafeName(p.name) + ";"
  {
  }

  lemma {:induction false} ReadOnlyPrefix(ms: seq<PropertyView>)
    ensures ReadOnly(ms) == ms <==> (NumReadable(ms) == |ms| && NumWritable(ms) == 0)
  {
    if |ms| > 0 {
      var init, p := ms[..|ms| - 1], ms[|ms| - 1];
      ReadOnlyPrefix(init);
      if ReadOnly(ms) == ms && !p.writable && p.readable {
        assert ReadOnly(init) == ReadOnly(ms)[..|init|] == init;
      }
      if NumReadable(ms) == |ms| && NumWritable(ms) == 0 {
        assert NumReadable(init) == |init| && p.readable && !p.writable;
        assert ReadOnly(ms) == init + [p];
        assert ms == init + [p];
      }
    }
  }

  /**
   * generateConstructors writes the second, read-only constructor exactly when
   * its parameter list would differ from the full one: the counters' test fails
   * only when every written property is readable and not writable.
   */
  lemma SecondConstructorIff(ps: seq<PropertyView>)
    ensures WritesReadOnlyConstructor(ps) <==> ReadOnly(NonIgnored(ps)) != NonIgnored(ps)
    ensures WritesReadOnlyConstructor(ps) ==> |ReadOnly(NonIgnored(ps))| < |NonIgnored(ps)|
  {
    var ms := NonIgnored(ps);
    ReadOnlyPrefix(ms);
    if ReadOnly(ms) != ms {
      ReadOnlyLength(ms);
    }
  }

  /** A read-only list as long as its input is its input. */
  lemma {:induction false} ReadOnlyLength(ms: seq<PropertyView>)
    ensures |ReadOnly(ms)| == |ms| ==> ReadOnly(ms) == ms
  {
    if |ms| > 0 {
      var init, p := ms[..|ms| - 1], ms[|ms| - 1];
      ReadOnlyLength(init);
      assert ms == init + [p];
    }
  }

  /** The isFirst loop writes the parameters joined by ", ", with no leading separator. */
  lemma {:induction false} ParameterTextIsJoin(ms: seq<PropertyView>)
    ensures ParameterText(ms) == Join(", ", Parameters(ms))
  {
    if |ms| > 1 {
      var init := ms[..|ms| - 1];
      ParameterTextIsJoin(init);
      assert Parameters(ms)[..|ms| - 1] == Parameters(init);
    }
  }

  /** The getter and setter names lead back to the property's name, the way the walker derives it. */
  lemma AccessorNamesRoundTrip(p: PropertyView)
    requires |p.name| == 0 || !IsUpperAscii(p.name[0])
    ensures IsBoolean(p.typ) ==> StartsWith(GetterName(p), "is") && Uncapitalize(GetterName(p)[2..]) == p.name
    ensures !IsBoolean(p.typ) ==> StartsWith(GetterName(p), "get") && Uncapitalize(GetterName(p)[3..]) == p.name
    ensures StartsWith(SetterName(p), "set") && Uncapitalize(SetterName(p)[3..]) == p.name
  {
    UncapitalizeCapitalize(p.name);
    if IsBoolean(p.typ) {
      assert GetterName(p)[2..] == Capitalize(p.name);
    } else {
      assert GetterName(p)[3..] == Capitalize(p.name);
    }
    assert SetterName(p)[3..] == Capitalize(p.name);
  }

  /**
   * In a thread-safe, change-aware setter the write lock is released before the change event is fired:
   * the release is line 12, the event line 15, and no line up to the release fires the event.
   */
  lemma UnlockBeforeFire(o: Options, p: PropertyView, shift: int)
    requires o.values.threadSafe && o.propertyChangeAware
    ensures var lines := SetterLines(o, p, shift);
            exists i, j :: 0 <= i < j < |lines| && lines[i] == UnlockLine(shift) && lines[j] == FireLine(p, shift)
    ensures var lines := SetterLines(o, p, shift);
            |lines| == 19 && lines[12] == UnlockLine(shift) && lines[15] == FireLine(p, shift) &&
            forall j | 0 <= j <= 12 :: lines[j] != FireLine(p, shift)
  {
    HeadFireDistinct(o, p, shift);
    StoreFireDistinct(o, p, shift);
    TailLayout(o, p, shift);
    SetterFireOrder(SetterLines(o, p, shift), SetterHead(o, p, shift), SetterStore(o, p, shift + 2),
                    SetterTail(o, p, shift), p, shift);
  }

  /**
   * The order of a setter made of a seven-line head, a four-line store and an eight-line tail whose
   * second line releases the lock and whose fifth fires the event.
   */
  lemma SetterFireOrder(lines: seq<string>, head: seq<string>, store: seq<string>, tail: seq<string>,
                        p: PropertyView, shift: int)
    requires lines == head + store + tail && |head| == 7 && |store| == 4 && |tail| == 8
    requires forall k | 0 <= k < 7 :: FireDistinct(head[k], shift)
    requires forall k | 0 <= k < 4 :: FireDistinct(store[k], shift)
    requires FireDistinct(tail[0], shift) && FireDistinct(tail[1], shift)
    ensures |lines| == 19 && lines[12] == tail[1] && lines[15] == tail[4]
    ensures forall j | 0 <= j <= 12 :: lines[j] != FireLine(p, shift)
  {
    forall j | 0 <= j <= 12
      ensures FireDistinct(lines[j], shift)
    {
      if j < 7 {
        HeadLineAt(lines, head, store, tail, [], j);
      } else if j < 11 {
        MembersLineAt(lines, head, store, tail, [], j - 7);
      } else {
        CloseLineAt(lines, head, store, tail, [], j - 11);
      }
    }
    CloseLineAt(lines, head, store, tail, [], 1);
    CloseLineAt(lines, head, store, tail, [], 4);
    NoFireUpTo(lines, p, shift, 12);
  }

  /**
   * A line that cannot be the change event's line: at the event's depth it does not start with "t",
   * or it does not end as the event's line does, with "e);".
   */
  predicate FireDistinct(line: string, shift: int)
  {
    (|Indent(shift + 2)| < |line| && line[|Indent(shift + 2)|] != 't') ||
    (|line| >= 3 && (line[|line| - 1] != ';' || line[|line| - 2] != ')' || line[|line| - 3] != 'e'))
  }

  lemma NotFireLine(line: string, p: PropertyView, shift: int)
    requires FireDistinct(line, shift)
    ensures line != FireLine(p, shift)
  {
    var fire := FireLine(p, shift);
    var lead := Indent(shift + 2) + "this.propertySupport.firePropertyChange(\"";
    assert fire == lead + p.name + "\", oldValue, newValue);";
    assert lead[|Indent(shift + 2)|] == 't';
    assert fire[|fire| - 1] == ';' && fire[|fire| - 2] == ')' && fire[|fire| - 3] == 'e';
  }

  /** No line up to index n is the change event's line. */
  lemma NoFireUpTo(lines: seq<string>, p: PropertyView, shift: int, n: int)
    requires n < |lines| && forall j | 0 <= j <= n :: FireDistinct(lines[j], shift)
    ensures forall j | 0 <= j <= n :: lines[j] != FireLine(p, shift)
  {
    forall j | 0 <= j <= n
      ensures lines[j] != FireLine(p, shift)
    {
      NotFireLine(lines[j], p, shift);
    }
  }

  /** The seven head lines of a thread-safe, change-aware setter; none of them fires the event. */
  lemma HeadFireDistinct(o: Options, p: PropertyView, shift: int)
    requires o.values.threadSafe && o.propertyChangeAware
    ensures var head := SetterHead(o, p, shift);
            |head| == 7 && forall k | 0 <= k < 7 :: FireDistinct(head[k], shift)
  {
    var head := SetterHead(o, p, shift);
    assert |head| == 7;
    assert head[0][|head[0]| - 1] == 'e';
    assert head[1][|head[1]| - 1] == '{';
    assert head[2][|head[2]| - 2] == (if IsPrimitive(p.typ) then 'e' else 'l');
    assert head[3][|head[3]| - 2] == (if IsPrimitive(p.typ) then 'e' else 'l');
    assert head[4][|head[4]| - 2] == 'e';
    assert head[5][|head[5]| - 3] == '(';
    assert head[6][|head[6]| - 1] == '{';
  }

  /** The four store lines of a thread-safe, change-aware setter; none of them fires the event. */
  lemma StoreFireDistinct(o: Options, p: PropertyView, shift: int)
    requires o.propertyChangeAware
    ensures var store := SetterStore(o, p, shift + 2);
            |store| == 4 && forall k | 0 <= k < 4 :: FireDistinct(store[k], shift)
  {
    var store := SetterStore(o, p, shift + 2);
    var ind := Indent(shift + 2);
    var newLead, oldLead := ind + "newValue = ", ind + "oldValue = this.";
    assert store[0] == newLead + Retain(o, p, "") + ";" && newLead[|ind|] == 'n';
    assert store[1] == oldLead + ToSafeName(p.name) + ";" && oldLead[|ind|] == 'o';
    assert store[2][|store[2]| - 2] == 'e';
    assert store[3] == ind + ChangeTest(p) && ChangeTest(p)[0] == 'i';
  }

  /** The tail of a thread-safe, change-aware setter: the finally block, then the change event. */
  lemma TailLayout(o: Options, p: PropertyView, shift: int)
    requires o.values.threadSafe && o.propertyChangeAware
    ensures var tail := SetterTail(o, p, shift);
            |tail| == 8 && tail[1] == UnlockLine(shift) && tail[4] == FireLine(p, shift) &&
            FireDistinct(tail[0], shift) && FireDistinct(tail[1], shift)
  {
    var tail := SetterTail(o, p, shift);
    assert tail[0][|tail[0]| - 1] == '{';
    assert tail[1][|Indent(shift + 2)|] == 'i';
  }

  /**
   * A line indented at most one level deeper than the setter, whose text does not start with "i",
   * is neither the lock, nor the release, nor the change event of that setter.
   */
  lemma NotLockOrEvent(line: string, a: int, p: PropertyView, shift: int)
    requires 0 <= shift && 0 <= a <= shift + 1
    requires |Indent(a)| < |line| && line[|Indent(a)|] != ' ' && line[|Indent(a)|] != 'i'
    ensures line != Indent(shift + 1) + "instanceLock.writeLock().lock();"
    ensures line != UnlockLine(shift)
    ensures line != FireLine(p, shift)
  {
    var k := |Indent(a)|;
    var lock := Indent(shift + 1) + "instanceLock.writeLock().lock();";
    assert lock[k] == (if a < shift + 1 then ' ' else 'i');
    assert UnlockLine(shift)[k] == ' ';
    assert FireLine(p, shift)[k] == ' ';
  }

  /**
   * Without the PropertyChangeEventAware interface and without thread safety a setter takes no lock,
   * releases none and fires no event: its one statement stores the retained value.
   */
  lemma PlainSetterHasNoLockOrEvent(o: Options, p: PropertyView, shift: int)
    requires !o.propertyChangeAware && !o.values.threadSafe
    requires shift >= 0
    ensures var lines := SetterLines(o, p, shift);
            |lines| == 5 &&
            lines[2] == Indent(shift + 1) + "this." + ToSafeName(p.name) + " = " + Retain(o, p, "") + ";" &&
            forall i | 0 <= i < |lines| ::
              lines[i] != Indent(shift + 1) + "instanceLock.writeLock().lock();" &&
              lines[i] != UnlockLine(shift) &&
              lines[i] != FireLine(p, shift)
  {
    PlainSetterStarts(o, p, shift);
    NoLockOrEventIn(SetterLines(o, p, shift), p, shift);
  }

  /** Five lines indented as a plain setter's, none of whose text starts with a blank or "i". */
  lemma NoLockOrEventIn(lines: seq<string>, p: PropertyView, shift: int)
    requires shift >= 0 && |lines| == 5 && lines[4] == ""
    requires |Indent(shift)| < |lines[0]| && lines[0][|Indent(shift)|] == '@'
    requires |Indent(shift)| < |lines[1]| && lines[1][|Indent(shift)|] == 'p'
    requires |Indent(shift + 1)| < |lines[2]| && lines[2][|Indent(shift + 1)|] == 't'
    requires |Indent(shift)| < |lines[3]| && lines[3][|Indent(shift)|] == '}'
    ensures forall i | 0 <= i < |lines| ::
              lines[i] != Indent(shift + 1) + "instanceLock.writeLock().lock();" &&
              lines[i] != UnlockLine(shift) &&
              lines[i] != FireLine(p, shift)
  {
    NotLockOrEvent(lines[0], shift, p, shift);
    NotLockOrEvent(lines[1], shift, p, shift);
    NotLockOrEvent(lines[2], shift + 1, p, shift);
    NotLockOrEvent(lines[3], shift, p, shift);
  }

  /** The first character after the indentation of each line of a plain setter. */
  lemma PlainSetterStarts(o: Options, p: PropertyView, shift: int)
    requires !o.propertyChangeAware && !o.values.threadSafe
    ensures var lines := SetterLines(o, p, shift);
            |lines| == 5 && lines[4] == "" &&
            lines[2] == Indent(shift + 1) + "this." + ToSafeName(p.name) + " = " + Retain(o, p, "") + ";" &&
            |Indent(shift)| < |lines[0]| && lines[0][|Indent(shift)|] == '@' &&
            |Indent(shift)| < |lines[1]| && lines[1][|Indent(shift)|] == 'p' &&
            |Indent(shift + 1)| < |lines[2]| && lines[2][|Indent(shift + 1)|] == 't' &&
            |Indent(shift)| < |lines[3]| && lines[3][|Indent(shift)|] == '}'
  {
    var lines := SetterLines(o, p, shift);
    var head, store, tail := SetterHead(o, p, shift), SetterStore(o, p, shift + 1), SetterTail(o, p, shift);
    assert |head| == 2 && |store| == 1 && |tail| == 2;
    HeadLineAt(lines, head, store, tail, [], 0);
    HeadLineAt(lines, head, store, tail, [], 1);
    CloseLineAt(lines, head, store, tail, [], 0);
    CloseLineAt(lines, head, store, tail, [], 1);
    assert lines[2] == store[0];
  }

  /** Ignored properties contribute no accessor. */
  lemma {:induction false} AccessorsSkipIgnored(o: Options, ps: seq<PropertyView>, shift: int)
    ensures AccessorsSection(o, ps, shift) == AccessorsSection(o, NonIgnored(ps), shift)
  {
    if |ps| > 0 {
      var init, p := ps[..|ps| - 1], ps[|ps| - 1];
      AccessorsSkipIgnored(o, init, shift);
      var before := AccessorsSection(o, init, shift);
      if p.ignore {
        assert NonIgnored(ps) == NonIgnored(init);
        assert PropertyAccessorLines(o, p, shift) == [];
        assert AccessorsSection(o, ps, shift) == before + [];
      } else {
        var ms := NonIgnored(init) + [p];
        assert NonIgnored(ps) == ms;
        assert ms[..|ms| - 1] == NonIgnored(init);
        assert AccessorsSection(o, ms, shift) == AccessorsSection(o, NonIgnored(init), shift) + PropertyAccessorLines(o, p, shift);
      }
    }
  }

  /** One hash line per written property, in the order of the properties. */
  lemma {:induction false} HashLinesLayout(ps: seq<PropertyView>, shift: int)
    ensures forall k | 0 <= k < |NonIgnored(ps)| :: HashLines(ps, shift)[k] == HashLine(HashExpression(NonIgnored(ps)[k]), shift)
  {
    if |ps| > 0 {
      var init, p := ps[..|ps| - 1], ps[|ps| - 1];
      HashLinesLayout(init, shift);
      if p.ignore {
        assert NonIgnored(ps) == NonIgnored(init);
        assert HashLines(ps, shift) == HashLines(init, shift) + [];
      } else {
        assert NonIgnored(ps) == NonIgnored(init) + [p];
      }
    }
  }

  /** Every member line of toString but the first starts with its separator. */
  lemma {:induction false} MemberLinesLayout(ms: seq<PropertyView>, shift: int)
    ensures forall k | 0 <= k < |ms| :: MemberLines(ms, shift)[k] == MemberLine(ms[k], k == 0, shift)
  {
    if |ms| > 0 {
      var init := ms[..|ms| - 1];
      MemberLinesLayout(init, shift);
      assert forall k | 0 <= k < |init| :: init[k] == ms[k];
    }
  }

  /** Every third line of the property tests opens the test of the next written property. */
  lemma {:induction false} EqualLinesLayout(ps: seq<PropertyView>, shift: int)
    ensures var ms := NonIgnored(ps);
            forall k | 0 <= k < |ms| :: EqualLines(ps, shift)[3 * k] == Indent(shift) + "if (" + InequalityTest(ms[k]) + ") {"
  {
    if |ps| > 0 {
      var init, p := ps[..|ps| - 1], ps[|ps| - 1];
      EqualLinesLayout(init, shift);
      var before := EqualLines(init, shift);
      var block := if p.ignore then [] else ReturnFalseIf(InequalityTest(p), shift);
      AppendIndex(EqualLines(ps, shift), before, block);
      var ms := NonIgnored(ps);
      forall k | 0 <= k < |ms|
        ensures EqualLines(ps, shift)[3 * k] == Indent(shift) + "if (" + InequalityTest(ms[k]) + ") {"
      {
        if k < |NonIgnored(init)| {
          assert ms[k] == NonIgnored(init)[k];
        } else {
          assert 3 * k == |before| + 0;
        }
      }
    }
  }

  /** The two halves of a concatenation, whatever their elements are. */
  lemma AppendIndex<T>(s: seq<T>, a: seq<T>, b: seq<T>)
    requires s == a + b
    ensures |s| == |a| + |b|
    ensures forall k | 0 <= k < |a| :: s[k] == a[k]
    ensures forall k | 0 <= k < |b| :: s[|a| + k] == b[k]
  {
  }

  /**
   * toString returns the class name and its brace; after the member lines comes the superclass's string,
   * after ", " exactly when a member came before it, and then '}'.
   */
  lemma ToStringLayout(o: Options, ps: seq<PropertyView>, className: string, hasSuperClass: bool, shift: int)
    ensures var lines := ToStringSection(o, ps, className, hasSuperClass, shift);
            var inner := BodyShift(o.values.threadSafe, shift);
            var ms := NonIgnored(ps);
            var h := |ToStringHead(o.values.threadSafe, className, shift)|;
            var c := h + |ms| + (if hasSuperClass then 1 else 0);
            0 < h && c < |lines| &&
            lines[h - 1] == Indent(inner) + "return \"" + className + "{\"" &&
            (hasSuperClass ==>
               lines[h + |ms|] == Indent(inner + 1) + " + \"" + (if |ms| > 0 then ", " else "") + "superClass=\" + super.toString()") &&
            lines[c] == Indent(inner + 1) + " + '}';"
  {
    ToStringReturnAt(o, ps, className, hasSuperClass, shift);
    ToStringCloseAt(o, ps, className, hasSuperClass, shift);
  }

  /** The line before the members returns the class name and its brace. */
  lemma ToStringReturnAt(o: Options, ps: seq<PropertyView>, className: string, hasSuperClass: bool, shift: int)
    ensures var lines := ToStringSection(o, ps, className, hasSuperClass, shift);
            var h := |ToStringHead(o.values.threadSafe, className, shift)|;
            0 < h <= |lines| &&
            lines[h - 1] == Indent(BodyShift(o.values.threadSafe, shift)) + "return \"" + className + "{\""
  {
    var threadSafe := o.values.threadSafe;
    var inner := BodyShift(threadSafe, shift);
    var ms := NonIgnored(ps);
    var head := ToStringHead(threadSafe, className, shift);
    HeadLineAt(ToStringSection(o, ps, className, hasSuperClass, shift), head, MemberLines(ms, inner + 1),
               ToStringClose(hasSuperClass, |ms| == 0, inner), ToStringTail(threadSafe, shift), |head| - 1);
    assert head[|head| - 1] == Indent(inner) + "return \"" + className + "{\"";
  }

  /** After the members comes the superclass's string, after ", " exactly when a member came before it, then '}'. */
  lemma ToStringCloseAt(o: Options, ps: seq<PropertyView>, className: string, hasSuperClass: bool, shift: int)
    ensures var lines := ToStringSection(o, ps, className, hasSuperClass, shift);
            var inner := BodyShift(o.values.threadSafe, shift);
            var ms := NonIgnored(ps);
            var h := |ToStringHead(o.values.threadSafe, className, shift)|;
            var c := h + |ms| + (if hasSuperClass then 1 else 0);
            c < |lines| &&
            (hasSuperClass ==>
               lines[h + |ms|] == Indent(inner + 1) + " + \"" + (if |ms| > 0 then ", " else "") + "superClass=\" + super.toString()") &&
            lines[c] == Indent(inner + 1) + " + '}';"
  {
    var threadSafe := o.values.threadSafe;
    var inner := BodyShift(threadSafe, shift);
    var ms := NonIgnored(ps);
    var head := ToStringHead(threadSafe, className, shift);
    var members := MemberLines(ms, inner + 1);
    var close := ToStringClose(hasSuperClass, |ms| == 0, inner);
    var lines := ToStringSection(o, ps, className, hasSuperClass, shift);
    var tail := ToStringTail(threadSafe, shift);
    assert |members| == |ms|;
    if hasSuperClass {
      CloseLineAt(lines, head, members, close, tail, 0);
      CloseLineAt(lines, head, members, close, tail, 1);
      assert close[0] == SuperClassMemberLine(|ms| == 0, inner + 1);
      assert close[1] == Indent(inner + 1) + " + '}';";
    } else {
      CloseLineAt(lines, head, members, close, tail, 0);
      assert close[0] == Indent(inner + 1) + " + '}';";
    }
  }

  /** A line of the head of a section made of a head, a run of members, a close and a tail. */
  lemma HeadLineAt<T>(s: seq<T>, head: seq<T>, members: seq<T>, close: seq<T>, tail: seq<T>, k: int)
    requires s == head + members + close + tail && 0 <= k < |head|
    ensures |s| == |head| + |members| + |close| + |tail| && s[k] == head[k]
  {
  }

  /** A line of the members of a section made of a head, a run of members, a close and a tail. */
  lemma MembersLineAt<T>(s: seq<T>, head: seq<T>, members: seq<T>, close: seq<T>, tail: seq<T>, k: int)
    requires s == head + members + close + tail && 0 <= k < |members|
    ensures |s| == |head| + |members| + |close| + |tail| && s[|head| + k] == members[k]
  {
  }

  /** A line of the close of a section made of a head, a run of members, a close and a tail. */
  lemma CloseLineAt<T>(s: seq<T>, head: seq<T>, members: seq<T>, close: seq<T>, tail: seq<T>, k: int)
    requires s == head + members + close + tail && 0 <= k < |close|
    ensures |s| == |head| + |members| + |close| + |tail| && s[|head| + |members| + k] == close[k]
  {
  }

  /** An explicit class name always wins; otherwise the prefix agrees with the header. */
  lemma ClassNameAgreesWithHeader(v: GenerateClassValues, d: DefinitionView)
    ensures v.className != "" ==> ResolveImplementationClassName(v, d) == v.className
    ensures v.className == "" ==>
              var className := ResolveImplementationClassName(v, d);
              (StartsWith(className, "Abstract") <==> StartsWith(ClassDeclaration(v, d, className), "public abstract class ")) &&
              (StartsWith(className, "Default") <==> IsAbstract(d))
  {
    var className := ResolveImplementationClassName(v, d);
    ConcreteHeaderIff(v, d, className);
    if v.className == "" {
      assert className[0] == (if IsAbstract(d) then 'D' else 'A');
    }
  }

  /** Without an absolute package name the class goes into a sub-package of the interface's package. */
  lemma DerivedPackageIsSubPackage(v: GenerateClassValues, interfacePackage: Option<string>)
    ensures v.packageName != "" && !v.packageNameRelative ==> ResolvePackageName(v, interfacePackage) == v.packageName
    ensures v.packageName == "" ==> ResolvePackageName(v, interfacePackage) == StringOf(interfacePackage) + ".impl"
    ensures v.packageName != "" && v.packageNameRelative ==>
              ResolvePackageName(v, interfacePackage) == StringOf(interfacePackage) + "." + v.packageName
    ensures v.packageName == "" || v.packageNameRelative ==>
              var r := ResolvePackageName(v, interfacePackage);
              StartsWith(r, StringOf(interfacePackage) + ".") && |r| > |StringOf(interfacePackage)| + 1
  {
    var r := ResolvePackageName(v, interfacePackage);
    var base := StringOf(interfacePackage) + ".";
    if v.packageName == "" {
      assert r == base + "impl";
      assert r[..|base|] == base;
    } else if v.packageNameRelative {
      assert r == base + v.packageName;
      assert r[..|base|] == base;
    }
  }

  lemma {:induction false} ParseDigitsOfDigits(n: nat)
    ensures ParseDigits(Digits(n)) == n
  {
    if n >= 10 {
      ParseDigitsOfDigits(n / 10);
      var s := Digits(n);
      assert s[..|s| - 1] == Digits(n / 10);
    }
  }

  /** The serial version is written in decimal, and reads back as the same number. */
  lemma DecimalRoundTrip(n: int)
    ensures ParseDecimal(DecimalText(n)) == n
  {
    if n < 0 {
      ParseDigitsOfDigits(-n);
      assert DecimalText(n)[1..] == Digits(-n);
    } else {
      ParseDigitsOfDigits(n);
      assert Digits(n)[0] != '-';
    }
  }

  /** Writing two runs of lines one after the other writes their characters one after the other. */
  lemma {:induction false} RenderAppend(a: seq<string>, b: seq<string>)
    ensures Render(a + b) == Render(a) + Render(b)
    decreases |b|
  {
    if |b| > 0 {
      var init, last := b[..|b| - 1], b[|b| - 1];
      RenderAppend(a, init);
      assert (a + b)[..|a + b| - 1] == a + init;
      calc {
        Render(a + b);
        Render(a + init) + last + "\n";
        Render(a) + Render(init) + last + "\n";
        Render(a) + (Render(init) + last + "\n");
        Render(a) + Render(b);
      }
    } else {
      assert a + b == a;
    }
  }

  /** Three runs of lines are written as the characters of each run in turn. */
  lemma RenderThree(a: seq<string>, b: seq<string>, c: seq<string>)
    ensures Render(a + b + c) == Render(a) + Render(b) + Render(c)
  {
    RenderAppend(a + b, c);
    RenderAppend(a, b);
  }

  /** A file made of a header and three runs of lines, closed by a brace. */
  lemma FileText(header: seq<string>, a: seq<string>, b: seq<string>, c: seq<string>)
    ensures Render(header + (a + b + c)) + "}" == Render(header) + Render(a) + Render(b) + Render(c) + "}"
  {
    RenderAppend(header, a + b + c);
    RenderThree(a, b, c);
  }

  /** A file made of a header, a body and a closing brace starts with the header and ends with the brace. */
  lemma RenderedFile(header: seq<string>, body: seq<string>)
    ensures StartsWith(Render(header + body) + "}", Render(header))
    ensures var text := Render(header + body) + "}"; text[|text| - 1] == '}'
  {
    RenderAppend(header, body);
    assert Render(header + body) + "}" == Render(header) + (Render(body) + "}");
    PrefixOfConcat(Render(header), Render(body) + "}");
  }

  /** process writes nothing when autoGenerate is off; otherwise the file starts with the header and ends with "}". */
  lemma ProcessLayout(o: Options, d: DefinitionView, generationTime: string)
    ensures ProcessSpec(o, d, generationTime).None? <==> !o.values.autoGenerate
    ensures ProcessSpec(o, d, generationTime).Some? ==>
              ProcessSpec(o, d, generationTime).value.qualifiedName ==
                ResolvePackageName(o.values, d.pkg) + "." + ResolveImplementationClassName(o.values, d)
    ensures ProcessSpec(o, d, generationTime).Some? ==>
              var text := ProcessSpec(o, d, generationTime).value.text;
              StartsWith(text, Render(HeaderLines(o.values, d, ResolveImplementationClassName(o.values, d), generationTime))) &&
              text[|text| - 1] == '}'
  {
    RenderedFile(HeaderLines(o.values, d, ResolveImplementationClassName(o.values, d), generationTime),
                 BodyLines(o, d, ResolveImplementationClassName(o.values, d)));
  }

  /**
   * The file process writes is the header, then the state, then the methods of Object, then the
   * optional methods, each written in full and in that order, then "}".
   */
  lemma ProcessSectionOrder(o: Options, d: DefinitionView, generationTime: string)
    ensures ProcessSpec(o, d, generationTime).Some? ==>
              var cn := ResolveImplementationClassName(o.values, d);
              ProcessSpec(o, d, generationTime).value.text ==
                Render(HeaderLines(o.values, d, cn, generationTime)) +
                Render(StateSections(o, d.properties, cn, 1)) +
                Render(ObjectSections(o, d.properties, cn, o.values.superClass != "", 1)) +
                Render(OptionalSections(o, cn, 1)) + "}"
  {
    var cn := ResolveImplementationClassName(o.values, d);
    FileText(HeaderLines(o.values, d, cn, generationTime), StateSections(o, d.properties, cn, 1),
             ObjectSections(o, d.properties, cn, o.values.superClass != "", 1), OptionalSections(o, cn, 1));
  }
}
