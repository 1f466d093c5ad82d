/** The access modifiers of the class processor (classprocessor/Modifier.java). */
module AccessModifiers {
  import opened Wrappers

  datatype Modifier = Private | Default | Protected | Public

  /** getModifier: the keyword written in front of a generated member. */
  function Keyword(m: Modifier): (k: string)
    ensures k == "" <==> m == Default
  {
    match m
    case Private => "private"
    case Default => ""
    case Protected => "protected"
    case Public => "public"
  }

  /** The constant's own name, which is what annotation values carry. */
  function Name(m: Modifier): (n: string)
    ensures |n| > 0
  {
    match m
    case Private => "PRIVATE"
    case Default => "DEFAULT"
    case Protected => "PROTECTED"
    case Public => "PUBLIC"
  }

  /** Modifier.valueOf: None where Java throws for an unknown name. */
  function ValueOf(n: string): (r: Option<Modifier>)
    ensures r.Some? ==> Name(r.value) == n
  {
    if n == "PRIVATE" then Some(Private)
    else if n == "DEFAULT" then Some(Default)
    else if n == "PROTECTED" then Some(Protected)
    else if n == "PUBLIC" then Some(Public)
    else None
  }

  lemma KeywordInjective(m1: Modifier, m2: Modifier)
    ensures Keyword(m1) == Keyword(m2) ==> m1 == m2
  {
  }

  lemma ValueOfName(m: Modifier)
    ensures ValueOf(Name(m)) == Some(m)
  {
  }
}
