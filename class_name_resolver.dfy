/**
 * The class-name resolvers of the class processor: DefaultClassNameResolver, which
 * wraps the capitalised interface name in a prefix and a suffix given by four
 * hook methods, and RemovePrefixClassNameResolver, which first checks and strips a
 * leading 'I'.
 */
module ClassNameResolvers {
  import opened Wrappers
  import opened Strings

  /** The four hook methods a resolver overrides. */
  datatype Hooks = Hooks(classPrefix: string, classSuffix: string, abstractPrefix: string, abstractSuffix: string)

  const DefaultHooks: Hooks := Hooks("", "Impl", "Abstract", "")
  const RemovePrefixHooks: Hooks := Hooks("", "", "Abstract", "")

  /** classNameFor: prefix, capitalised name, suffix; a null name is concatenated as "null". */
  function ClassNameFor(h: Hooks, name: Option<string>): (r: string)
    ensures name.Some? ==> r == h.classPrefix + Capitalize(name.value) + h.classSuffix
    ensures name.None? ==> r == h.classPrefix + "null" + h.classSuffix
  {
    h.classPrefix + StringOf(CapitalizeOrNull(name)) + h.classSuffix
  }

  function AbstractClassNameFor(h: Hooks, name: Option<string>): (r: string)
    ensures name.Some? ==> r == h.abstractPrefix + Capitalize(name.value) + h.abstractSuffix
    ensures name.None? ==> r == h.abstractPrefix + "null" + h.abstractSuffix
  {
    h.abstractPrefix + StringOf(CapitalizeOrNull(name)) + h.abstractSuffix
  }

  lemma DefaultNames(n: string)
    ensures ClassNameFor(DefaultHooks, Some(n)) == Capitalize(n) + "Impl"
    ensures AbstractClassNameFor(DefaultHooks, Some(n)) == "Abstract" + Capitalize(n)
    ensures |ClassNameFor(DefaultHooks, Some(n))| == |n| + 4
    ensures |AbstractClassNameFor(DefaultHooks, Some(n))| == |n| + 8
    ensures ClassNameFor(DefaultHooks, Some(n)) != AbstractClassNameFor(DefaultHooks, Some(n))
  {
  }

  /** Both names depend on the interface name only through its capitalised form. */
  lemma OnlyCapitalizedFormMatters(h: Hooks, n: string)
    ensures ClassNameFor(h, Some(Capitalize(n))) == ClassNameFor(h, Some(n))
    ensures AbstractClassNameFor(h, Some(Capitalize(n))) == AbstractClassNameFor(h, Some(n))
  {
    CapitalizeIdempotent(n);
  }

  /** The exceptions parameterCheck throws, in the order it checks for them. */
  datatype NamingError = NullName | EmptyName | TooShort | MissingPrefix

  /** parameterCheck: null, then empty, then shorter than two characters, then not starting with "I". */
  function ParameterCheck(name: Option<string>): (r: Option<NamingError>)
    ensures r.None? <==> name.Some? && |name.value| >= 2 && name.value[0] == 'I'
    ensures r == Some(NullName) <==> name.None?
    ensures r == Some(EmptyName) <==> name == Some("")
    ensures r == Some(TooShort) <==> name.Some? && |name.value| == 1
    ensures r == Some(MissingPrefix) <==> name.Some? && |name.value| >= 2 && name.value[0] != 'I'
  {
    match name
    case None => Some(NullName)
    case Some(n) =>
      if |n| == 0 then Some(EmptyName)
      else if |n| < 2 then Some(TooShort)
      else if !StartsWith(n, "I") then Some(MissingPrefix)
      else None
  }

  /** RemovePrefixClassNameResolver.classNameFor: the check, then the inherited rule on the rest of the name. */
  function RemovePrefixClassNameFor(name: Option<string>): (r: Result<string, NamingError>)
    ensures r.Failure? <==> ParameterCheck(name).Some?
    ensures r.Failure? ==> r.error == ParameterCheck(name).value
    ensures r.Success? ==> r.value == Capitalize(name.value[1..]) && |r.value| == |name.value| - 1
  {
    match ParameterCheck(name)
    case Some(e) => Failure(e)
    case None => Success(ClassNameFor(RemovePrefixHooks, Some(name.value[1..])))
  }

  function RemovePrefixAbstractClassNameFor(name: Option<string>): (r: Result<string, NamingError>)
    ensures r.Failure? <==> ParameterCheck(name).Some?
    ensures r.Failure? ==> r.error == ParameterCheck(name).value
    ensures r.Success? ==> r.value == "Abstract" + Capitalize(name.value[1..]) && |r.value| == |name.value| + 7
  {
    match ParameterCheck(name)
    case Some(e) => Failure(e)
    case None => Success(AbstractClassNameFor(RemovePrefixHooks, Some(name.value[1..])))
  }

  lemma RemovePrefixExamples()
    ensures RemovePrefixClassNameFor(Some("IWidget")) == Success("Widget")
    ensures RemovePrefixAbstractClassNameFor(Some("IWidget")) == Success("AbstractWidget")
    ensures RemovePrefixClassNameFor(Some("Widget")) == Failure(MissingPrefix)
    ensures RemovePrefixClassNameFor(Some("I")) == Failure(TooShort)
    ensures RemovePrefixAbstractClassNameFor(Some("")) == Failure(EmptyName)
    ensures RemovePrefixAbstractClassNameFor(None) == Failure(NullName)
  {
    assert "IWidget"[1..] == "Widget";
    assert Capitalize("Widget") == "Widget";
    assert ParameterCheck(Some("IWidget")).None?;
    assert "Abstract" + "Widget" == "AbstractWidget";
  }
}
