/** The field modifiers of the interface processor (interfaceprocessor/FieldModifier.java). */
module FieldModifiers {
  import opened Wrappers

  /** There is no public constant: generated fields are never public. */
  datatype FieldModifier = Private | Default | Protected

  /** getModifier: the keyword written in front of a generated field. */
  function Keyword(m: FieldModifier): (k: string)
    ensures k == "" <==> m == Default
    ensures k != "public"
  {
    match m
    case Private => "private"
    case Default => ""
    case Protected => "protected"
  }

  function Name(m: FieldModifier): (n: string)
    ensures |n| > 0
  {
    match m
    case Private => "PRIVATE"
    case Default => "DEFAULT"
    case Protected => "PROTECTED"
  }

  /** FieldModifier.valueOf: None where Java throws for an unknown name. */
  function ValueOf(n: string): (r: Option<FieldModifier>)
    ensures r.Some? ==> Name(r.value) == n
  {
    if n == "PRIVATE" then Some(Private)
    else if n == "DEFAULT" then Some(Default)
    else if n == "PROTECTED" then Some(Protected)
    else None
  }

  lemma KeywordInjective(m1: FieldModifier, m2: FieldModifier)
    ensures Keyword(m1) == Keyword(m2) ==> m1 == m2
  {
  }

  lemma ValueOfName(m: FieldModifier)
    ensures ValueOf(Name(m)) == Some(m)
  {
  }

  lemma PublicIsNotAFieldModifier()
    ensures ValueOf("PUBLIC").None?
  {
  }
}
