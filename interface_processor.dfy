/**
 * The generate methods of interfaceprocessor/InterfaceProcessor.java. The
 * Writer they append to is modelled as the lines written so far: each method
 * takes them, appends its section line by line while it threads the indent
 * counter up and down as the source does, and returns the lines together with
 * the counter, which is back at the level it was given. Every method is proved
 * to append exactly the lines of the matching section function of ProcessorText.
 */
module InterfaceProcessor {
  import opened Wrappers
  import opened Strings
  import opened LangModel
  import opened FieldModifiers
  import opened InterfaceProperties
  import opened InterfaceDefinitions
  import opened ProcessorText

  /** indent: one block of four spaces per loop turn, nothing for a level of zero or less. */
  method IndentText(n: int) returns (r: string)
    ensures r == Indent(n)
  {
    if n <= 0 {
      return "";
    }
    r := "";
    var i := 0;
    while i < n
      invariant 0 <= i <= n
      invariant r == Indent(i)
    {
      r := r + "    ";
      i := i + 1;
    }
  }

  // ---------------------------------------------------------------------------
  // generateGetter and generateSetter

  /** Regrouping the parts a section is written in; generic, so the lines themselves stay out of the proof. */
  lemma Regroup<T>(l: seq<T>, a: seq<T>, b: seq<T>, c: seq<T>)
    ensures l + a + b + c == l + (a + b + c)
  {
  }

  lemma Regroup4<T>(l: seq<T>, a: seq<T>, b: seq<T>, c: seq<T>, d: seq<T>)
    ensures l + a + b + c + d == l + (a + b + c + d)
  {
  }

  lemma Assoc<T>(a: seq<T>, b: seq<T>, c: seq<T>)
    ensures a + b + c == a + (b + c)
  {
  }

  // ---------------------------------------------------------------------------
  // One step of the loops over the properties

  lemma NonIgnoredStep(ps: seq<PropertyView>, i: int)
    requires 0 <= i < |ps|
    ensures ps[i].ignore ==> NonIgnored(ps[..i + 1]) == NonIgnored(ps[..i])
    ensures !ps[i].ignore ==> NonIgnored(ps[..i + 1]) == NonIgnored(ps[..i]) + [ps[i]]
  {
    assert ps[..i + 1][..i] == ps[..i];
    if ps[i].ignore {
      assert NonIgnored(ps[..i + 1]) == NonIgnored(ps[..i]) + [];
    }
  }

  lemma FieldLinesStep(m: FieldModifier, ps: seq<PropertyView>, i: int, shift: int)
    requires 0 <= i < |ps|
    ensures ps[i].ignore ==> FieldLines(m, ps[..i + 1], shift) == FieldLines(m, ps[..i], shift)
    ensures !ps[i].ignore ==> FieldLines(m, ps[..i + 1], shift) == FieldLines(m, ps[..i], shift) + [FieldLine(m, ps[i], shift)]
  {
    assert ps[..i + 1][..i] == ps[..i];
    if ps[i].ignore {
      assert FieldLines(m, ps[..i + 1], shift) == FieldLines(m, ps[..i], shift) + [];
    }
  }

  lemma ReadOnlyStep(ms: seq<PropertyView>, p: PropertyView)
    ensures !p.writable && p.readable ==> ReadOnly(ms + [p]) == ReadOnly(ms) + [p]
    ensures !(!p.writable && p.readable) ==> ReadOnly(ms + [p]) == ReadOnly(ms)
  {
    assert (ms + [p])[..|ms|] == ms;
    if !(!p.writable && p.readable) {
      assert ReadOnly(ms + [p]) == ReadOnly(ms) + [];
    }
  }

  lemma CountStep(ms: seq<PropertyView>, p: PropertyView)
    ensures NumReadable(ms + [p]) == NumReadable(ms) + (if p.readable then 1 else 0)
    ensures NumWritable(ms + [p]) == NumWritable(ms) + (if p.writable then 1 else 0)
  {
    assert (ms + [p])[..|ms|] == ms;
  }

  lemma ParameterTextStep(ms: seq<PropertyView>, p: PropertyView)
    ensures ParameterText(ms + [p]) == ParameterText(ms) + Separator(|ms| == 0) + Parameter(p)
  {
    assert (ms + [p])[..|ms|] == ms;
  }

  lemma InitializersStep(o: Options, ms: seq<PropertyView>, p: PropertyView, shift: int)
    ensures Initializers(o, ms + [p], shift) == Initializers(o, ms, shift) + Initializers(o, [p], shift)
  {
    assert (ms + [p])[..|ms|] == ms;
    assert [p][..0] == [];
  }

  lemma MemberLinesStep(ms: seq<PropertyView>, p: PropertyView, shift: int)
    ensures MemberLines(ms + [p], shift) == MemberLines(ms, shift) + [MemberLine(p, |ms| == 0, shift)]
  {
    assert (ms + [p])[..|ms|] == ms;
  }

  // ---------------------------------------------------------------------------
  // The read lock around the body of hashCode, equals and toString

  /** Takes the read lock and opens the try block, one level deeper, when the class is thread-safe. */
  method GenerateReadLock(out: seq<string>, threadSafe: bool, shift: int) returns (written: seq<string>, s: int)
    ensures written == out + LockLines(threadSafe, shift)
    ensures s == shift + (if threadSafe then 1 else 0)
  {
    written := out;
    s := shift;
    if threadSafe {
      written := written + [Indent(s) + "instanceLock.readLock().lock();"];
      written := written + [Indent(s) + "try {"];
      s := s + 1;
    }
  }

  /** Releases the read lock in a finally block, back at the level of the try. */
  method GenerateReadUnlock(out: seq<string>, threadSafe: bool, inner: int) returns (written: seq<string>, s: int)
    ensures s == inner - (if threadSafe then 1 else 0)
    ensures written == out + UnlockLines(threadSafe, s)
  {
    written := out;
    s := inner;
    if threadSafe {
      s := s - 1;
      written := written + [Indent(s) + "} finally {"];
      s := s + 1;
      written := written + [Indent(s) + "instanceLock.readLock().unlock();"];
      s := s - 1;
      written := written + [Indent(s) + "}"];
    }
  }

  /** An if block that returns false when the test holds. */
  method GenerateReturnFalseIf(out: seq<string>, shift: int, test: string) returns (written: seq<string>, r: int)
    ensures written == out + ReturnFalseIf(test, shift)
    ensures r == shift
  {
    var s := shift;
    written := out + [Indent(s) + "if (" + test + ") {"];
    s := s + 1;
    written := written + [Indent(s) + "return false;"];
    s := s - 1;
    written := written + [Indent(s) + "}"];
    r := s;
  }

  // ---------------------------------------------------------------------------
  // generateClassDefinition

  method GenerateClassDefinition(out: seq<string>, v: GenerateClassValues, d: DefinitionView, className: string,
                                 generationTime: string) returns (written: seq<string>)
    ensures written == out + HeaderLines(v, d, className, generationTime)
  {
    var packageName := ResolvePackageName(v, d.pkg);
    written := out + ["package " + packageName + ";"];
    written := written + [""];
    written := written + ["@javax.annotation.Generated(value = \"" + ProcessorName + "\", date = \"" + generationTime + "\")"];
    var tail := className;
    if v.superClass != "" {
      tail := tail + (" extends " + v.superClass);
    } else {
      assert tail + "" == tail;
    }
    tail := tail + " implements " + StringOf(d.pkg) + "." + StringOf(d.interfaceName);
    if v.serializable {
      tail := tail + ", java.io.Serializable";
    } else {
      assert tail + "" == tail;
    }
    tail := tail + " {";
    written := written + ["public " + (if IsAbstract(d) then "" else "abstract ") + "class " + tail];
    if v.serializable {
      written := written + [Indent(1) + "private static final long serialVersionUID = " + DecimalText(v.serialVersion) + "L;"];
    }
  }

  // ---------------------------------------------------------------------------
  // generateFields

  method GenerateField(out: seq<string>, p: PropertyView, shift: int, m: FieldModifier) returns (written: seq<string>, r: int)
    ensures written == out + [FieldLine(m, p, shift)]
    ensures r == shift
  {
    written := out + [Indent(shift) + Keyword(m) + (if m == Default then "" else " ") + TypeText(p.typ) + " " + ToSafeName(p.name) + ";"];
    r := shift;
  }

  /** The loop of generateFields: one declaration for each property that is not ignored. */
  method GenerateFieldDeclarations(out: seq<string>, shift: int, m: FieldModifier, ps: seq<PropertyView>)
    returns (written: seq<string>, r: int)
    ensures written == out + FieldLines(m, ps, shift)
    ensures r == shift
  {
    r := shift;
    written := out;
    for i := 0 to |ps|
      invariant r == shift
      invariant written == out + FieldLines(m, ps[..i], r)
    {
      FieldLinesStep(m, ps, i, r);
      if !ps[i].ignore {
        written, r := GenerateField(written, ps[i], r, m);
        Assoc(out, FieldLines(m, ps[..i], r), [FieldLine(m, ps[i], r)]);
      }
    }
    assert ps[..|ps|] == ps;
  }

  method GenerateFields(out: seq<string>, shift: int, o: Options, ps: seq<PropertyView>) returns (written: seq<string>, r: int)
    ensures written == out + FieldsSection(o, ps, shift)
    ensures r == shift
  {
    var s;
    written, s := GenerateFieldDeclarations(out, shift, o.values.fieldModifier, ps);
    ghost var fields := written;
    if o.propertyChangeAware {
      written := written + [""];
      written := written + [Indent(s) + SupportFieldText];
    }
    assert written == fields + (if o.propertyChangeAware then ["", Indent(shift) + SupportFieldText] else []);
    ghost var support := written;
    if o.values.threadSafe {
      written := written + [""];
      written := written + [Indent(s) + LockFieldText];
    }
    assert written == support + (if o.values.threadSafe then ["", Indent(shift) + LockFieldText] else []);
    written := written + [""];
    Regroup4(out, FieldLines(o.values.fieldModifier, ps, shift),
             (if o.propertyChangeAware then ["", Indent(shift) + SupportFieldText] else []),
             (if o.values.threadSafe then ["", Indent(shift) + LockFieldText] else []),
             [""]);
    r := s;
  }

  // ---------------------------------------------------------------------------
  // generateConstructors

  /** The parameter loop of generateFullArgConstructor: every property not ignored, after ", " unless it is the first. */
  method FullArgParameters(ps: seq<PropertyView>) returns (text: string)
    ensures text == ParameterText(NonIgnored(ps))
  {
    text := "";
    var isFirst := true;
    for i := 0 to |ps|
      invariant text == ParameterText(NonIgnored(ps[..i]))
      invariant isFirst <==> |NonIgnored(ps[..i])| == 0
    {
      NonIgnoredStep(ps, i);
      var p := ps[i];
      if !p.ignore {
        ParameterTextStep(NonIgnored(ps[..i]), p);
        if !isFirst {
          text := text + ", ";
        } else {
          assert text + "" == text;
          isFirst := false;
        }
        text := text + Parameter(p);
      }
    }
    assert ps[..|ps|] == ps;
  }

  /** The parameter loop of generateReadOnlyFieldConstructor: the same rule over the readable, not writable properties. */
  method ReadOnlyParameters(ps: seq<PropertyView>) returns (text: string)
    ensures text == ParameterText(ReadOnly(NonIgnored(ps)))
  {
    text := "";
    var isFirst := true;
    ghost var taken: seq<PropertyView> := [];
    for i := 0 to |ps|
      invariant taken == ReadOnly(NonIgnored(ps[..i]))
      invariant text == ParameterText(taken)
      invariant isFirst <==> |taken| == 0
    {
      NonIgnoredStep(ps, i);
      var p := ps[i];
      ghost var after := ReadOnly(NonIgnored(ps[..i + 1]));
      if !p.ignore {
        ReadOnlyStep(NonIgnored(ps[..i]), p);
        if !p.writable && p.readable {
          assert after == taken + [p];
          ParameterTextStep(taken, p);
          if !isFirst {
            text := text + ", ";
          } else {
            assert text + "" == text;
            isFirst := false;
          }
          text := text + Parameter(p);
        } else {
          assert after == taken;
        }
      } else {
        assert after == taken;
      }
      taken := after;
    }
    assert ps[..|ps|] == ps;
  }

  /** generatePropertyFieldInitializer: stores the retained parameter in its field. */
  method GeneratePropertyFieldInitializer(out: seq<string>, shift: int, o: Options, p: PropertyView)
    returns (written: seq<string>, r: int)
    ensures written == out + Initializers(o, [p], shift)
    ensures r == shift
  {
    written := out + [Indent(shift) + "this." + ToSafeName(p.name) + " = " + Retain(o, p, "") + ";"];
    assert [p][..0] == [];
    r := shift;
  }

  /** The initializer loop of a constructor, over the given properties in order. */
  method GenerateInitializers(out: seq<string>, shift: int, o: Options, ms: seq<PropertyView>)
    returns (written: seq<string>, r: int)
    ensures written == out + Initializers(o, ms, shift)
    ensures r == shift
  {
    written := out;
    r := shift;
    for i := 0 to |ms|
      invariant r == shift
      invariant written == out + Initializers(o, ms[..i], r)
    {
      assert ms[..i + 1] == ms[..i] + [ms[i]];
      InitializersStep(o, ms[..i], ms[i], r);
      ghost var before := written;
      written, r := GeneratePropertyFieldInitializer(written, r, o, ms[i]);
      Assoc(out, Initializers(o, ms[..i], r), Initializers(o, [ms[i]], r));
    }
    assert ms[..|ms|] == ms;
  }

  /** A constructor for the given properties: its signature, super(), the initializers and the property support. */
  method GenerateConstructor(out: seq<string>, shift: int, o: Options, className: string, params: string, ms: seq<PropertyView>)
    returns (written: seq<string>, r: int)
    requires params == ParameterText(ms)
    ensures written == out + ConstructorLines(o, ms, className, shift)
    ensures r == shift
  {
    var s := shift;
    written := out + [Indent(s) + "public " + className + "(" + params + ") {"];
    s := s + 1;
    written := written + [Indent(s) + "super();"];
    ghost var signature := [Indent(shift) + "public " + className + "(" + ParameterText(ms) + ") {", Indent(shift + 1) + "super();"];
    assert written == out + signature;
    ghost var head := written;
    written, s := GenerateInitializers(written, s, o, ms);
    ghost var body := written;
    if o.propertyChangeAware {
      written := written + [Indent(s) + SupportInitText];
    }
    ghost var support: seq<string> := if o.propertyChangeAware then [Indent(shift + 1) + SupportInitText] else [];
    assert written == body + support;
    ghost var supported := written;
    s := s - 1;
    written := written + [Indent(s) + "}"];
    written := written + [""];
    assert written == supported + [Indent(shift) + "}", ""];
    Regroup4(out, signature, Initializers(o, ms, shift + 1), support, [Indent(shift) + "}", ""]);
    r := s;
  }

  method GenerateFullArgConstructor(out: seq<string>, shift: int, o: Options, className: string, ps: seq<PropertyView>)
    returns (written: seq<string>, r: int)
    ensures written == out + ConstructorLines(o, NonIgnored(ps), className, shift)
    ensures r == shift
  {
    var params := FullArgParameters(ps);
    written, r := GenerateConstructor(out, shift, o, className, params, NonIgnored(ps));
  }

  method GenerateReadOnlyFieldConstructor(out: seq<string>, shift: int, o: Options, className: string, ps: seq<PropertyView>)
    returns (written: seq<string>, r: int)
    ensures written == out + ConstructorLines(o, ReadOnly(NonIgnored(ps)), className, shift)
    ensures r == shift
  {
    var params := ReadOnlyParameters(ps);
    written, r := GenerateConstructor(out, shift, o, className, params, ReadOnly(NonIgnored(ps)));
  }

  /** The counting loop of generateConstructors over the properties not ignored. */
  method CountProperties(ps: seq<PropertyView>) returns (propertyCount: int, readableCount: int, writableCount: int)
    ensures propertyCount == |NonIgnored(ps)|
    ensures readableCount == NumReadable(NonIgnored(ps))
    ensures writableCount == NumWritable(NonIgnored(ps))
  {
    propertyCount, readableCount, writableCount := 0, 0, 0;
    for i := 0 to |ps|
      invariant propertyCount == |NonIgnored(ps[..i])|
      invariant readableCount == NumReadable(NonIgnored(ps[..i]))
      invariant writableCount == NumWritable(NonIgnored(ps[..i]))
    {
      NonIgnoredStep(ps, i);
      var p := ps[i];
      ghost var before := NonIgnored(ps[..i]);
      ghost var after := NonIgnored(ps[..i + 1]);
      if !p.ignore {
        CountStep(before, p);
        assert after == before + [p];
        assert NumReadable(after) == NumReadable(before) + (if p.readable then 1 else 0);
        if p.readable {
          readableCount := readableCount + 1;
        }
        if p.writable {
          writableCount := writableCount + 1;
        }
        propertyCount := propertyCount + 1;
      } else {
        assert after == before;
      }
      assert readableCount == NumReadable(after);
    }
    assert ps[..|ps|] == ps;
  }

  /** generateConstructors: the full-argument constructor, then the read-only one unless the counts say it would repeat it. */
  method GenerateConstructors(out: seq<string>, shift: int, o: Options, className: string, ps: seq<PropertyView>)
    returns (written: seq<string>, r: int)
    ensures written == out + ConstructorsSection(o, ps, className, shift)
    ensures r == shift
  {
    written, r := GenerateFullArgConstructor(out, shift, o, className, ps);
    var propertyCount, readableCount, writableCount := CountProperties(ps);
    var readOnlyCount := readableCount - writableCount;
    ghost var full := written;
    if readOnlyCount != propertyCount {
      written, r := GenerateReadOnlyFieldConstructor(written, r, o, className, ps);
    }
    Assoc(out, ConstructorLines(o, NonIgnored(ps), className, shift),
          if WritesReadOnlyConstructor(ps) then ConstructorLines(o, ReadOnly(NonIgnored(ps)), className, shift) else []);
  }

  method GenerateGetter(out: seq<string>, shift: int, o: Options, p: PropertyView) returns (written: seq<string>, r: int)
    ensures written == out + GetterLines(o, p, shift)
    ensures r == shift
  {
    var threadSafe := o.values.threadSafe;
    var s := shift;
    written := out + [Indent(s) + "@Override"];
    written := written + [Indent(s) + "public " + TypeText(p.typ) + " " + GetterName(p) + "() {"];
    if threadSafe {
      s := s + 1;
      written := written + [Indent(s) + "instanceLock.readLock().lock();"];
      written := written + [Indent(s) + "try {"];
    }
    s := s + 1;
    written := written + [Indent(s) + "return " + Retain(o, p, "this.") + ";"];
    assert s == BodyShift(threadSafe, shift);
    if threadSafe {
      s := s - 1;
      written := written + [Indent(s) + "} finally {"];
      s := s + 1;
      written := written + [Indent(s) + "instanceLock.readLock().unlock();"];
      s := s - 1;
      written := written + [Indent(s) + "}"];
    }
    s := s - 1;
    written := written + [Indent(s) + "}"];
    written := written + [""];
    r := s;
  }

  /** generateSetter: the signature, the store and the tail, each written at the level the previous part left. */
  method GenerateSetter(out: seq<string>, shift: int, o: Options, p: PropertyView) returns (written: seq<string>, r: int)
    ensures written == out + SetterLines(o, p, shift)
    ensures r == shift
  {
    var s;
    written, s := GenerateSetterHead(out, shift, o, p);
    written := GenerateSetterStore(written, s, o, p);
    written, r := GenerateSetterTail(written, s, o, p);
    Regroup(out, SetterHead(o, p, shift), SetterStore(o, p, s), SetterTail(o, p, shift));
  }

  /** The signature, the locals of the change event and the write lock; the level ends inside the try block. */
  method GenerateSetterHead(out: seq<string>, shift: int, o: Options, p: PropertyView) returns (written: seq<string>, s: int)
    ensures written == out + SetterHead(o, p, shift)
    ensures s == BodyShift(o.values.threadSafe, shift)
  {
    var fieldName := ToSafeName(p.name);
    var propertyType := TypeText(p.typ);
    s := shift;
    written := out + [Indent(s) + "@Override"];
    written := written + [Indent(s) + "public void " + SetterName(p) + "(" + propertyType + " " + fieldName + ") {"];
    s := s + 1;
    var isPrimitive := IsPrimitive(p.typ);
    var valueType := TypeText(p.typ);
    if o.propertyChangeAware {
      written := written + [Indent(s) + valueType + " newValue" + (if isPrimitive then "" else " = null") + ";"];
      written := written + [Indent(s) + valueType + " oldValue" + (if isPrimitive then "" else " = null") + ";"];
      written := written + [Indent(s) + "boolean isPropertyChanged = false;"];
    }
    if o.values.threadSafe {
      written := written + [Indent(s) + "instanceLock.writeLock().lock();"];
      written := written + [Indent(s) + "try {"];
      s := s + 1;
    }
  }

  /** The store of the retained value and, for a change-aware interface, the change test. */
  method GenerateSetterStore(out: seq<string>, s: int, o: Options, p: PropertyView) returns (written: seq<string>)
    ensures written == out + SetterStore(o, p, s)
  {
    var fieldName := ToSafeName(p.name);
    if o.propertyChangeAware {
      written := out + [Indent(s) + "newValue = " + Retain(o, p, "") + ";"];
      written := written + [Indent(s) + "oldValue = this." + fieldName + ";"];
      written := written + [Indent(s) + "this." + fieldName + " = newValue;"];
    } else {
      written := out + [Indent(s) + "this." + fieldName + " = " + Retain(o, p, "") + ";"];
    }
    if o.propertyChangeAware {
      var test := "isPropertyChanged = (oldValue != newValue";
      if !IsPrimitive(p.typ) {
        test := test + " && (oldValue != null && !oldValue.equals(newValue))";
      } else {
        assert test + "" == test;
      }
      written := written + [Indent(s) + (test + ");")];
    }
  }

  /** The release of the write lock, the change event and the closing brace; the level returns to the signature's. */
  method GenerateSetterTail(out: seq<string>, inner: int, o: Options, p: PropertyView) returns (written: seq<string>, r: int)
    ensures r == inner - (if o.values.threadSafe then 2 else 1)
    ensures written == out + SetterTail(o, p, r)
  {
    var s := inner;
    written := out;
    if o.values.threadSafe {
      s := s - 1;
      written := written + [Indent(s) + "} finally {"];
      s := s + 1;
      written := written + [Indent(s) + "instanceLock.writeLock().unlock();"];
      s := s - 1;
      written := written + [Indent(s) + "}"];
    }
    if o.propertyChangeAware {
      written := written + [Indent(s) + "if (isPropertyChanged) {"];
      s := s + 1;
      written := written + [Indent(s) + "this.propertySupport.firePropertyChange(\"" + p.name + "\", oldValue, newValue);"];
      s := s - 1;
      written := written + [Indent(s) + "}"];
    }
    s := s - 1;
    written := written + [Indent(s) + "}"];
    written := written + [""];
    r := s;
  }

  /** One turn of the loop of generatePropertyAccessors: the getter of a readable, then the setter of a writable property. */
  method GeneratePropertyAccessor(out: seq<string>, shift: int, o: Options, p: PropertyView) returns (written: seq<string>, r: int)
    ensures written == out + PropertyAccessorLines(o, p, shift)
    ensures r == shift
  {
    written, r := out, shift;
    if !p.ignore {
      if p.readable {
        written, r := GenerateGetter(written, r, o, p);
      }
      ghost var getter: seq<string> := if p.readable then GetterLines(o, p, shift) else [];
      assert written == out + getter;
      ghost var read := written;
      if p.writable {
        written, r := GenerateSetter(written, r, o, p);
      }
      ghost var setter: seq<string> := if p.writable then SetterLines(o, p, shift) else [];
      assert written == read + setter;
      Assoc(out, getter, setter);
    } else {
      assert written == out + [];
    }
  }

  /** generatePropertyAccessors: the accessors of every property in order. */
  method GeneratePropertyAccessors(out: seq<string>, shift: int, o: Options, ps: seq<PropertyView>) returns (written: seq<string>, r: int)
    ensures written == out + AccessorsSection(o, ps, shift)
    ensures r == shift
  {
    written, r := out, shift;
    for i := 0 to |ps|
      invariant r == shift
      invariant written == out + AccessorsSection(o, ps[..i], shift)
    {
      assert ps[..i + 1][..i] == ps[..i];
      written, r := GeneratePropertyAccessor(written, r, o, ps[i]);
      Assoc(out, AccessorsSection(o, ps[..i], shift), PropertyAccessorLines(o, ps[i], shift));
    }
    assert ps[..|ps|] == ps;
  }

  // ---------------------------------------------------------------------------
  // generateHashCode

  lemma HashLinesStep(ps: seq<PropertyView>, i: int, shift: int)
    requires 0 <= i < |ps|
    ensures ps[i].ignore ==> HashLines(ps[..i + 1], shift) == HashLines(ps[..i], shift)
    ensures !ps[i].ignore ==> HashLines(ps[..i + 1], shift) == HashLines(ps[..i], shift) + [HashLine(HashExpression(ps[i]), shift)]
  {
    assert ps[..i + 1][..i] == ps[..i];
    if ps[i].ignore {
      assert HashLines(ps[..i + 1], shift) == HashLines(ps[..i], shift) + [];
    }
  }

  /** generateHashCodeForOneProperty: mixes the field into the result by the rule of its type. */
  method GenerateHashCodeForOneProperty(p: PropertyView, out: seq<string>, shift: int) returns (written: seq<string>)
    ensures written == out + [HashLine(HashExpression(p), shift)]
  {
    var fieldName := ToSafeName(p.name);
    var expression: string;
    if IsPrimitive(p.typ) {
      match p.typ.kind
      case Float =>
        expression := "Float.floatToIntBits(this." + fieldName + ")";
      case Double =>
        expression := "(int) (Double.doubleToLongBits(this." + fieldName + ") ^ (Double.doubleToLongBits(this." + fieldName + ") >>> 32))";
      case Boolean =>
        expression := "(this." + fieldName + " ? 1 : 0)";
      case Long =>
        expression := "(int) (this." + fieldName + " ^ (this." + fieldName + " >>> 32))";
      case _ =>
        expression := "this." + fieldName;
    } else {
      expression := "(this." + fieldName + " != null ? this." + fieldName + ".hashCode() : 0)";
    }
    written := out + [Indent(shift) + "result = 31 * result + " + expression + ";"];
  }

  /** The property loop of generateHashCode, skipping the ignored properties. */
  method GenerateHashLines(out: seq<string>, shift: int, ps: seq<PropertyView>) returns (written: seq<string>)
    ensures written == out + HashLines(ps, shift)
  {
    written := out;
    for i := 0 to |ps|
      invariant written == out + HashLines(ps[..i], shift)
    {
      HashLinesStep(ps, i, shift);
      if !ps[i].ignore {
        written := GenerateHashCodeForOneProperty(ps[i], written, shift);
        Assoc(out, HashLines(ps[..i], shift), [HashLine(HashExpression(ps[i]), shift)]);
      }
    }
    assert ps[..|ps|] == ps;
  }

  /** The start of generateHashCode: the signature, the seed and the read lock; the level ends at the property lines'. */
  method GenerateHashCodeHead(out: seq<string>, shift: int, threadSafe: bool) returns (written: seq<string>, s: int)
    ensures written == out + HashCodeHead(threadSafe, shift)
    ensures s == BodyShift(threadSafe, shift)
  {
    s := shift;
    written := out + [Indent(s) + "@Override"];
    written := written + [Indent(s) + "public int hashCode() {"];
    s := s + 1;
    written := written + [Indent(s) + "int result = 17;"];
    ghost var opening := written;
    written, s := GenerateReadLock(written, threadSafe, s);
    assert written == opening + LockLines(threadSafe, shift + 1);
  }

  /** The end of generateHashCode: the release of the lock and the result; the level returns to the signature's. */
  method GenerateHashCodeTail(out: seq<string>, inner: int, threadSafe: bool) returns (written: seq<string>, r: int)
    ensures r == inner - (if threadSafe then 2 else 1)
    ensures written == out + HashCodeTail(threadSafe, r)
  {
    var s;
    written, s := GenerateReadUnlock(out, threadSafe, inner);
    ghost var unlocked := written;
    written := written + [Indent(s) + "return result;"];
    s := s - 1;
    written := written + [Indent(s) + "}"];
    written := written + [""];
    assert written == unlocked + [Indent(s + 1) + "return result;", Indent(s) + "}", ""];
    r := s;
  }

  /** generateHashCode: the seed, the read lock, one line per property, the superclass's hash, and the result. */
  method GenerateHashCode(out: seq<string>, shift: int, o: Options, ps: seq<PropertyView>, hasSuperClass: bool)
    returns (written: seq<string>, r: int)
    ensures written == out + HashCodeSection(o, ps, hasSuperClass, shift)
    ensures r == shift
  {
    var threadSafe := o.values.threadSafe;
    var s;
    written, s := GenerateHashCodeHead(out, shift, threadSafe);
    ghost var inner := BodyShift(threadSafe, shift);
    written := GenerateHashLines(written, s, ps);
    ghost var lines := written;
    if hasSuperClass {
      written := written + [Indent(s) + "result = 31 * result + " + "super.hashCode()" + ";"];
    }
    ghost var superLine: seq<string> := if hasSuperClass then [HashLine("super.hashCode()", inner)] else [];
    assert written == lines + superLine;
    written, r := GenerateHashCodeTail(written, s, threadSafe);
    assert r == shift;
    HashCodeSectionParts(o, ps, hasSuperClass, shift);
    Regroup4(out, HashCodeHead(threadSafe, shift), HashLines(ps, inner), superLine, HashCodeTail(threadSafe, shift));
  }

  lemma HashCodeSectionParts(o: Options, ps: seq<PropertyView>, hasSuperClass: bool, shift: int)
    ensures HashCodeSection(o, ps, hasSuperClass, shift) ==
            HashCodeHead(o.values.threadSafe, shift) +
            HashLines(ps, BodyShift(o.values.threadSafe, shift)) +
            (if hasSuperClass then [HashLine("super.hashCode()", BodyShift(o.values.threadSafe, shift))] else []) +
            HashCodeTail(o.values.threadSafe, shift)
  {
  }

  // ---------------------------------------------------------------------------
  // generateEquals

  lemma EqualLinesStep(ps: seq<PropertyView>, i: int, shift: int)
    requires 0 <= i < |ps|
    ensures ps[i].ignore ==> EqualLines(ps[..i + 1], shift) == EqualLines(ps[..i], shift)
    ensures !ps[i].ignore ==> EqualLines(ps[..i + 1], shift) == EqualLines(ps[..i], shift) + ReturnFalseIf(InequalityTest(ps[i]), shift)
  {
    assert ps[..i + 1][..i] == ps[..i];
    if ps[i].ignore {
      assert EqualLines(ps[..i + 1], shift) == EqualLines(ps[..i], shift) + [];
    }
  }

  /** generateEqualForOneProperty: returns false when the field differs by the rule of its type. */
  method GenerateEqualForOneProperty(p: PropertyView, out: seq<string>, shift: int) returns (written: seq<string>, r: int)
    ensures written == out + ReturnFalseIf(InequalityTest(p), shift)
    ensures r == shift
  {
    var fieldName := ToSafeName(p.name);
    var test: string;
    if IsPrimitive(p.typ) {
      match p.typ.kind
      case Float =>
        test := "Float.floatToIntBits(this." + fieldName + ") != Float.floatToIntBits(other." + fieldName + ")";
      case Double =>
        test := "Double.doubleToLongBits(this." + fieldName + ") != Double.doubleToLongBits(other." + fieldName + ")";
      case _ =>
        test := "this." + fieldName + " != other." + fieldName;
    } else {
      test := "this." + fieldName + " != other." + fieldName + " && (this." + fieldName + " == null || !this." + fieldName +
              ".equals(other." + fieldName + "))";
    }
    written, r := GenerateReturnFalseIf(out, shift, test);
  }

  /** The property loop of generateEquals, skipping the ignored properties. */
  method GenerateEqualLines(out: seq<string>, shift: int, ps: seq<PropertyView>) returns (written: seq<string>, r: int)
    ensures written == out + EqualLines(ps, shift)
    ensures r == shift
  {
    written, r := out, shift;
    for i := 0 to |ps|
      invariant r == shift
      invariant written == out + EqualLines(ps[..i], shift)
    {
      EqualLinesStep(ps, i, shift);
      if !ps[i].ignore {
        written, r := GenerateEqualForOneProperty(ps[i], written, r);
        Assoc(out, EqualLines(ps[..i], shift), ReturnFalseIf(InequalityTest(ps[i]), shift));
      }
    }
    assert ps[..|ps|] == ps;
  }

  /** The start of generateEquals: the null and type tests, the cast and the read lock. */
  method GenerateEqualsHead(out: seq<string>, shift: int, threadSafe: bool, className: string) returns (written: seq<string>, s: int)
    ensures written == out + EqualsHead(threadSafe, className, shift)
    ensures s == BodyShift(threadSafe, shift)
  {
    s := shift;
    written := out + [Indent(s) + "@Override"];
    written := written + [Indent(s) + "public boolean equals(Object obj) {"];
    s := s + 1;
    ghost var signature := written;
    written, s := GenerateReturnFalseIf(written, s, "obj == null");
    written := written + [""];
    written, s := GenerateReturnFalseIf(written, s, "!(obj instanceof " + className + ")");
    written := written + [""];
    written := written + [Indent(s) + "final " + className + " other = (" + className + ") obj;"];
    ghost var cast := written;
    assert cast == signature + ReturnFalseIf("obj == null", shift + 1) + [""] +
                   ReturnFalseIf("!(obj instanceof " + className + ")", shift + 1) + [""] +
                   [Indent(shift + 1) + "final " + className + " other = (" + className + ") obj;"];
    written, s := GenerateReadLock(written, threadSafe, s);
    assert written == cast + LockLines(threadSafe, shift + 1);
  }

  /** The end of generateEquals: the release of the lock and the final true. */
  method GenerateEqualsTail(out: seq<string>, inner: int, threadSafe: bool) returns (written: seq<string>, r: int)
    ensures r == inner - (if threadSafe then 2 else 1)
    ensures written == out + EqualsTail(threadSafe, r)
  {
    var s;
    written, s := GenerateReadUnlock(out, threadSafe, inner);
    ghost var unlocked := written;
    written := written + [Indent(s) + "return true;"];
    s := s - 1;
    written := written + [Indent(s) + "}"];
    written := written + [""];
    assert written == unlocked + [Indent(s + 1) + "return true;", Indent(s) + "}", ""];
    r := s;
  }

  /** generateEquals: the tests of the head, one test per property, the superclass's equals, and true. */
  method GenerateEquals(out: seq<string>, shift: int, o: Options, ps: seq<PropertyView>, className: string, hasSuperClass: bool)
    returns (written: seq<string>, r: int)
    ensures written == out + EqualsSection(o, ps, className, hasSuperClass, shift)
    ensures r == shift
  {
    var threadSafe := o.values.threadSafe;
    var s;
    written, s := GenerateEqualsHead(out, shift, threadSafe, className);
    ghost var inner := BodyShift(threadSafe, shift);
    written, s := GenerateEqualLines(written, s, ps);
    ghost var lines := written;
    if hasSuperClass {
      written, s := GenerateReturnFalseIf(written, s, "!super.equals(obj)");
    }
    ghost var superTest: seq<string> := if hasSuperClass then ReturnFalseIf("!super.equals(obj)", inner) else [];
    assert written == lines + superTest;
    written, r := GenerateEqualsTail(written, s, threadSafe);
    assert r == shift;
    EqualsSectionParts(o, ps, className, hasSuperClass, shift);
    Regroup4(out, EqualsHead(threadSafe, className, shift), EqualLines(ps, inner), superTest, EqualsTail(threadSafe, shift));
  }

  lemma EqualsSectionParts(o: Options, ps: seq<PropertyView>, className: string, hasSuperClass: bool, shift: int)
    ensures EqualsSection(o, ps, className, hasSuperClass, shift) ==
            EqualsHead(o.values.threadSafe, className, shift) +
            EqualLines(ps, BodyShift(o.values.threadSafe, shift)) +
            (if hasSuperClass then ReturnFalseIf("!super.equals(obj)", BodyShift(o.values.threadSafe, shift)) else []) +
            EqualsTail(o.values.threadSafe, shift)
  {
  }

  // ---------------------------------------------------------------------------
  // generateToString

  /** The member loop of generateToString: a separator before every member but the first. */
  method GenerateMemberLines(out: seq<string>, shift: int, ps: seq<PropertyView>) returns (written: seq<string>, isFirst: bool)
    ensures written == out + MemberLines(NonIgnored(ps), shift)
    ensures isFirst <==> |NonIgnored(ps)| == 0
  {
    written := out;
    isFirst := true;
    ghost var taken: seq<PropertyView> := [];
    for i := 0 to |ps|
      invariant taken == NonIgnored(ps[..i])
      invariant written == out + MemberLines(taken, shift)
      invariant isFirst <==> |taken| == 0
    {
      NonIgnoredStep(ps, i);
      var p := ps[i];
      if !p.ignore {
        MemberLinesStep(taken, p, shift);
        var safeName := ToSafeName(p.name);
        var line := Indent(shift) + " + \"";
        if !isFirst {
          line := line + ", ";
        } else {
          assert line + "" == line;
        }
        line := line + safeName + "=\" + " + safeName;
        assert line == MemberLine(p, |taken| == 0, shift);
        written := written + [line];
        Assoc(out, MemberLines(taken, shift), [line]);
        if isFirst {
          isFirst := false;
        }
        taken := taken + [p];
      }
    }
    assert ps[..|ps|] == ps;
  }

  /** The start of generateToString: the signature, the read lock and the class name. */
  method GenerateToStringHead(out: seq<string>, shift: int, threadSafe: bool, className: string) returns (written: seq<string>, s: int)
    ensures written == out + ToStringHead(threadSafe, className, shift)
    ensures s == BodyShift(threadSafe, shift)
  {
    s := shift;
    written := out + [Indent(s) + "@Override"];
    written := written + [Indent(s) + "public String toString() {"];
    s := s + 1;
    ghost var signature := written;
    written, s := GenerateReadLock(written, threadSafe, s);
    assert written == signature + LockLines(threadSafe, shift + 1);
    written := written + [Indent(s) + "return \"" + className + "{\""];
  }

  /** The superclass's string, after a separator unless it is the first member, and the closing brace. */
  method GenerateToStringClose(out: seq<string>, inner: int, hasSuperClass: bool, isFirst: bool) returns (written: seq<string>)
    ensures written == out + ToStringClose(hasSuperClass, isFirst, inner)
  {
    var s := inner + 1;
    written := out;
    if hasSuperClass {
      var line := Indent(s) + " + \"";
      if !isFirst {
        line := line + ", ";
      } else {
        assert line + "" == line;
      }
      line := line + "superClass=\" + super.toString()";
      written := written + [line];
    }
    ghost var superLine: seq<string> := if hasSuperClass then [SuperClassMemberLine(isFirst, s)] else [];
    assert written == out + superLine;
    written := written + [Indent(s) + " + '}';"];
  }

  /** The end of generateToString: the release of the lock and the closing brace. */
  method GenerateToStringTail(out: seq<string>, inner: int, threadSafe: bool) returns (written: seq<string>, r: int)
    ensures r == inner - (if threadSafe then 2 else 1)
    ensures written == out + ToStringTail(threadSafe, r)
  {
    var s;
    written, s := GenerateReadUnlock(out, threadSafe, inner);
    ghost var unlocked := written;
    s := s - 1;
    written := written + [Indent(s) + "}"];
    written := written + [""];
    assert written == unlocked + [Indent(s) + "}", ""];
    r := s;
  }

  /** generateToString: the class name, then every member name with its value, then the superclass's string. */
  method GenerateToString(out: seq<string>, shift: int, o: Options, ps: seq<PropertyView>, className: string, hasSuperClass: bool)
    returns (written: seq<string>, r: int)
    ensures written == out + ToStringSection(o, ps, className, hasSuperClass, shift)
    ensures r == shift
  {
    var threadSafe := o.values.threadSafe;
    var s;
    written, s := GenerateToStringHead(out, shift, threadSafe, className);
    ghost var inner := BodyShift(threadSafe, shift);
    ghost var empty := |NonIgnored(ps)| == 0;
    s := s + 1;
    var isFirst;
    written, isFirst := GenerateMemberLines(written, s, ps);
    s := s - 1;
    assert s == inner && isFirst == empty;
    written := GenerateToStringClose(written, s, hasSuperClass, isFirst);
    written, r := GenerateToStringTail(written, s, threadSafe);
    assert r == shift;
    ToStringSectionParts(o, ps, className, hasSuperClass, shift);
    Regroup4(out, ToStringHead(threadSafe, className, shift), MemberLines(NonIgnored(ps), inner + 1),
             ToStringClose(hasSuperClass, empty, inner), ToStringTail(threadSafe, shift));
  }

  lemma ToStringSectionParts(o: Options, ps: seq<PropertyView>, className: string, hasSuperClass: bool, shift: int)
    ensures ToStringSection(o, ps, className, hasSuperClass, shift) ==
            ToStringHead(o.values.threadSafe, className, shift) +
            MemberLines(NonIgnored(ps), BodyShift(o.values.threadSafe, shift) + 1) +
            ToStringClose(hasSuperClass, |NonIgnored(ps)| == 0, BodyShift(o.values.threadSafe, shift)) +
            ToStringTail(o.values.threadSafe, shift)
  {
  }

  // ---------------------------------------------------------------------------
  // generateClone and generatePropertyListenerAccessors

  /** generateClone: a clone that delegates to the superclass and turns the checked exception into an unchecked one. */
  method GenerateClone(out: seq<string>, shift: int, className: string) returns (written: seq<string>, r: int)
    ensures written == out + CloneSection(className, shift)
    ensures r == shift
  {
    var s := shift;
    written := out + [Indent(s) + "@Override"];
    written := written + [Indent(s) + "public " + className + " clone() {"];
    s := s + 1;
    written := written + [Indent(s) + "try {"];
    s := s + 1;
    written := written + [Indent(s) + "return (" + className + ") super.clone();"];
    s := s - 1;
    written := written + [Indent(s) + "} catch(CloneNotSupportedException ex) {"];
    s := s + 1;
    written := written + [Indent(s) + "throw new IllegalStateException(ex);"];
    s := s - 1;
    written := written + [Indent(s) + "}"];
    s := s - 1;
    written := written + [Indent(s) + "}"];
    written := written + [""];
    r := s;
  }

  /** The loop of a listener method that hands every listener to the property support. */
  method GenerateForEachListener(out: seq<string>, shift: int, call: string) returns (written: seq<string>, r: int)
    ensures written == out + ForEachListener(call, shift)
    ensures r == shift
  {
    var s := shift;
    written := out + [Indent(s) + ForEachListenerHeader];
    s := s + 1;
    written := written + [Indent(s) + "this.propertySupport." + call + ";"];
    s := s - 1;
    written := written + [Indent(s) + "}"];
    r := s;
  }

  /** addPropertyChangeListener for a list of listeners, which must not be null. */
  method GenerateAddListenersMethod(out: seq<string>, shift: int) returns (written: seq<string>, r: int)
    ensures written == out + AddListenersMethod(shift)
    ensures r == shift
  {
    var s := shift;
    written := out + [Indent(s) + "@Override"];
    written := written + [Indent(s) + AddListenersSignature];
    s := s + 1;
    ghost var signature := written;
    written := written + [Indent(s) + ListenersArgumentCheck];
    written, s := GenerateForEachListener(written, s, "addPropertyChangeListener(listener)");
    ghost var body := written;
    s := s - 1;
    written := written + [Indent(s) + "}"];
    written := written + [""];
    assert written == body + [Indent(shift) + "}", ""];
    r := s;
  }

  /** addPropertyChangeListener for one property name; neither argument may be null. */
  method GenerateAddNamedListenersMethod(out: seq<string>, shift: int) returns (written: seq<string>, r: int)
    ensures written == out + AddNamedListenersMethod(shift)
    ensures r == shift
  {
    var s := shift;
    written := out + [Indent(s) + "@Override"];
    written := written + [Indent(s) + AddNamedListenersSignature];
    s := s + 1;
    ghost var signature := written;
    written := written + [Indent(s) + NameArgumentCheck];
    written := written + [Indent(s) + ListenersArgumentCheck];
    written, s := GenerateForEachListener(written, s, "addPropertyChangeListener(propertyName, listener)");
    ghost var body := written;
    s := s - 1;
    written := written + [Indent(s) + "}"];
    written := written + [""];
    assert written == body + [Indent(shift) + "}", ""];
    r := s;
  }

  /** getPropertyChangeListeners: the listeners of the property support as a list. */
  method GenerateGetListenersMethod(out: seq<string>, shift: int) returns (written: seq<string>, r: int)
    ensures written == out + GetListenersMethod(shift)
    ensures r == shift
  {
    var s := shift;
    written := out + [Indent(s) + "@Override"];
    written := written + [Indent(s) + GetListenersSignature];
    s := s + 1;
    ghost var signature := written;
    written := written + [Indent(s) + GetListenersReturn];
    ghost var body := written;
    s := s - 1;
    written := written + [Indent(s) + "}"];
    written := written + [""];
    assert written == body + [Indent(shift) + "}", ""];
    r := s;
  }

  /** getPropertyChangeListeners for one property name, which must not be null. */
  method GenerateGetNamedListenersMethod(out: seq<string>, shift: int) returns (written: seq<string>, r: int)
    ensures written == out + GetNamedListenersMethod(shift)
    ensures r == shift
  {
    var s := shift;
    written := out + [Indent(s) + "@Override"];
    written := written + [Indent(s) + GetNamedListenersSignature];
    s := s + 1;
    ghost var signature := written;
    written := written + [Indent(s) + NameArgumentCheck];
    written := written + [Indent(s) + GetNamedListenersReturn];
    ghost var body := written;
    s := s - 1;
    written := written + [Indent(s) + "}"];
    written := written + [""];
    assert written == body + [Indent(shift) + "}", ""];
    r := s;
  }

  /** hasListeners, delegated to the property support. */
  method GenerateHasListenersMethod(out: seq<string>, shift: int) returns (written: seq<string>, r: int)
    ensures written == out + HasListenersMethod(shift)
    ensures r == shift
  {
    var s := shift;
    written := out + [Indent(s) + "@Override"];
    written := written + [Indent(s) + HasListenersSignature];
    s := s + 1;
    ghost var signature := written;
    written := written + [Indent(s) + NameArgumentCheck];
    written := written + [Indent(s) + HasListenersReturn];
    ghost var body := written;
    s := s - 1;
    written := written + [Indent(s) + "}"];
    written := written + [""];
    assert written == body + [Indent(shift) + "}", ""];
    r := s;
  }

  /** removePropertyChangeListener for a list of listeners, which must not be null. */
  method GenerateRemoveListenersMethod(out: seq<string>, shift: int) returns (written: seq<string>, r: int)
    ensures written == out + RemoveListenersMethod(shift)
    ensures r == shift
  {
    var s := shift;
    written := out + [Indent(s) + "@Override"];
    written := written + [Indent(s) + RemoveListenersSignature];
    s := s + 1;
    ghost var signature := written;
    written := written + [Indent(s) + ListenersArgumentCheck];
    written, s := GenerateForEachListener(written, s, "removePropertyChangeListener(listener)");
    ghost var body := written;
    s := s - 1;
    written := written + [Indent(s) + "}"];
    written := written + [""];
    assert written == body + [Indent(shift) + "}", ""];
    r := s;
  }

  /** removePropertyChangeListener for one property name; neither argument may be null. */
  method GenerateRemoveNamedListenersMethod(out: seq<string>, shift: int) returns (written: seq<string>, r: int)
    ensures written == out + RemoveNamedListenersMethod(shift)
    ensures r == shift
  {
    var s := shift;
    written := out + [Indent(s) + "@Override"];
    written := written + [Indent(s) + RemoveNamedListenersSignature];
    s := s + 1;
    ghost var signature := written;
    written := written + [Indent(s) + NameArgumentCheck];
    written := written + [Indent(s) + ListenersArgumentCheck];
    written, s := GenerateForEachListener(written, s, "removePropertyChangeListener(propertyName, listener)");
    ghost var body := written;
    s := s - 1;
    written := written + [Indent(s) + "}"];
    written := written + [""];
    assert written == body + [Indent(shift) + "}", ""];
    r := s;
  }

  /** Regrouping the seven listener methods. */
  lemma Regroup7<T>(l: seq<T>, a: seq<T>, b: seq<T>, c: seq<T>, d: seq<T>, e: seq<T>, f: seq<T>, g: seq<T>)
    ensures l + a + b + c + d + e + f + g == l + (a + b + c + d + e + f + g)
  {
  }

  /** generatePropertyListenerAccessors: the seven methods that delegate to the property support. */
  method GeneratePropertyListenerAccessors(out: seq<string>, shift: int) returns (written: seq<string>, r: int)
    ensures written == out + ListenersSection(shift)
    ensures r == shift
  {
    written, r := GenerateAddListenersMethod(out, shift);
    written, r := GenerateAddNamedListenersMethod(written, r);
    written, r := GenerateGetListenersMethod(written, r);
    written, r := GenerateGetNamedListenersMethod(written, r);
    written, r := GenerateHasListenersMethod(written, r);
    written, r := GenerateRemoveListenersMethod(written, r);
    written, r := GenerateRemoveNamedListenersMethod(written, r);
    Regroup7(out, AddListenersMethod(shift), AddNamedListenersMethod(shift), GetListenersMethod(shift), GetNamedListenersMethod(shift),
             HasListenersMethod(shift), RemoveListenersMethod(shift), RemoveNamedListenersMethod(shift));
  }

  // ---------------------------------------------------------------------------
  // process

  /** Three parts written one after another are their concatenation, whatever the lines are. */
  lemma Chain3<T>(out: seq<T>, w1: seq<T>, w2: seq<T>, w3: seq<T>, a: seq<T>, b: seq<T>, c: seq<T>)
    requires w1 == out + a && w2 == w1 + b && w3 == w2 + c
    ensures w3 == out + (a + b + c)
  {
  }

  /** The fields, the constructors and the accessors. */
  method GenerateStateSections(out: seq<string>, shift: int, o: Options, ps: seq<PropertyView>, className: string)
    returns (written: seq<string>, r: int)
    ensures written == out + StateSections(o, ps, className, shift)
    ensures r == shift
  {
    var w1, w2;
    w1, r := GenerateFields(out, shift, o, ps);
    w2, r := GenerateConstructors(w1, r, o, className, ps);
    written, r := GeneratePropertyAccessors(w2, r, o, ps);
    Chain3(out, w1, w2, written, FieldsSection(o, ps, shift), ConstructorsSection(o, ps, className, shift), AccessorsSection(o, ps, shift));
  }

  /** hashCode, equals and toString. */
  method GenerateObjectSections(out: seq<string>, shift: int, o: Options, ps: seq<PropertyView>, className: string, hasSuperClass: bool)
    returns (written: seq<string>, r: int)
    ensures written == out + ObjectSections(o, ps, className, hasSuperClass, shift)
    ensures r == shift
  {
    var w1, w2;
    w1, r := GenerateHashCode(out, shift, o, ps, hasSuperClass);
    w2, r := GenerateEquals(w1, r, o, ps, className, hasSuperClass);
    written, r := GenerateToString(w2, r, o, ps, className, hasSuperClass);
    Chain3(out, w1, w2, written, HashCodeSection(o, ps, hasSuperClass, shift), EqualsSection(o, ps, className, hasSuperClass, shift),
           ToStringSection(o, ps, className, hasSuperClass, shift));
  }

  /** The optional sections of process: clone for a cloneable class, the listener methods for a change-aware interface. */
  method GenerateOptionalSections(out: seq<string>, shift: int, o: Options, className: string) returns (written: seq<string>, r: int)
    ensures written == out + OptionalSections(o, className, shift)
    ensures r == shift
  {
    written, r := out, shift;
    if o.values.cloneable {
      written, r := GenerateClone(written, r, className);
    }
    ghost var cloned := written;
    ghost var clone: seq<string> := if o.values.cloneable then CloneSection(className, shift) else [];
    assert cloned == out + clone;
    if o.propertyChangeAware {
      written, r := GeneratePropertyListenerAccessors(written, r);
    }
    ghost var listeners: seq<string> := if o.propertyChangeAware then ListenersSection(shift) else [];
    assert written == cloned + listeners;
    Assoc(out, clone, listeners);
  }

  /** The sections process writes after the class declaration, in their fixed order, starting at level 1. */
  method GenerateBody(out: seq<string>, o: Options, d: DefinitionView, className: string) returns (written: seq<string>, shift: int)
    ensures written == out + BodyLines(o, d, className)
    ensures shift == 1
  {
    var ps := d.properties;
    var hasSuperClass := o.values.superClass != "";
    var w1, w2;
    w1, shift := GenerateStateSections(out, 1, o, ps, className);
    w2, shift := GenerateObjectSections(w1, shift, o, ps, className, hasSuperClass);
    written, shift := GenerateOptionalSections(w2, shift, o, className);
    Chain3(out, w1, w2, written, StateSections(o, ps, className, 1), ObjectSections(o, ps, className, hasSuperClass, 1),
           OptionalSections(o, className, 1));
  }

  /** The try block of process: the class declaration, then the body, into an empty file. */
  method GenerateSource(o: Options, d: DefinitionView, className: string, generationTime: string) returns (written: seq<string>)
    ensures written == SourceLines(o, d, className, generationTime)
  {
    written := GenerateClassDefinition([], o.values, d, className, generationTime);
    var shift;
    written, shift := GenerateBody(written, o, d, className);
    EmptyPrefix(HeaderLines(o.values, d, className, generationTime));
  }

  lemma EmptyPrefix<T>(s: seq<T>)
    ensures [] + s == s
  {
  }

  /**
   * process for one annotated interface: nothing when autoGenerate is off; otherwise the
   * definition collected by the visitor is written, header first, then the body, then the
   * closing brace, into the file named by the resolved package and class names.
   */
  method Process(o: Options, definition: DefinitionView, generationTime: string) returns (f: Option<GeneratedFile>)
    ensures f == ProcessSpec(o, definition, generationTime)
  {
    if !o.values.autoGenerate {
      return None;
    }
    var packageName := ResolvePackageName(o.values, definition.pkg);
    var className := ResolveImplementationClassName(o.values, definition);
    var fullClassName := packageName + "." + className;
    var written := GenerateSource(o, definition, className, generationTime);
    f := Some(GeneratedFile(fullClassName, Render(written) + "}"));
  }
}
