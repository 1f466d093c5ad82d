/**
 * The reserved-word table of classprocessor/util/Objects.java: the Java keywords
 * and literals that cannot be used as identifiers in generated code. The table is
 * one hash set filled from a list; it is written here as that list, in two
 * halves, the type, literal and statement words and the declaration and
 * modifier words, and looked up entry by entry.
 */
module ReservedWords {

  /** The first half of the table: type, literal and statement words, in the table's order. */
  const StatementWords: seq<string> := [
    "byte", "char", "short", "int", "long", "float",
    "double", "boolean", "true", "false", "void", "if",
    "else", "switch", "case", "default", "for", "while",
    "do", "continue", "break", "return", "package", "import",
    "class", "interface", "extends", "implements"
  ]

  /** The second half: declaration and modifier words; "volatile" is listed twice, as in the table. */
  const DeclarationWords: seq<string> := [
    "this", "super", "new", "null", "instanceof", "public",
    "protected", "private", "final", "static", "abstract", "native",
    "synchronized", "volatile", "volatile", "transient", "try", "catch",
    "finally", "throw", "throws", "assert", "enum", "const",
    "goto", "strictfp"
  ]

  const Words: seq<string> := StatementWords + DeclarationWords

  /** Objects.isPreserved: exact, case-sensitive membership in the table. */
  predicate IsPreserved(w: string)
  {
    Listed(w, Words)
  }

  /** The table lookup, from the last entry back. */
  predicate Listed(w: string, ws: seq<string>)
    decreases |ws|
  {
    |ws| > 0 && (w == ws[|ws| - 1] || Listed(w, ws[..|ws| - 1]))
  }

  /** The lookup finds exactly the words of the table. */
  lemma {:induction false} ListedIff(w: string, ws: seq<string>)
    ensures Listed(w, ws) <==> w in ws
    decreases |ws|
  {
    if |ws| > 0 {
      var init := ws[..|ws| - 1];
      ListedIff(w, init);
      assert ws == init + [ws[|ws| - 1]];
    }
  }

  /** Every reserved word is non-empty and starts with a lower-case letter. */
  lemma InitialIsLowerCase(w: string)
    requires IsPreserved(w)
    ensures |w| > 0 && 'a' <= w[0] <= 'z'
  {
    ListedIff(w, Words);
    if w in StatementWords {
      StatementInitialIsLowerCase(w);
    } else {
      DeclarationInitialIsLowerCase(w);
    }
  }

  lemma StatementInitialIsLowerCase(w: string)
    requires w in StatementWords
    ensures |w| > 0 && 'a' <= w[0] <= 'z'
  {
    assert
      w == "byte" || w == "char" || w == "short" || w == "int" ||
      w == "long" || w == "float" || w == "double" || w == "boolean" ||
      w == "true" || w == "false" || w == "void" || w == "if" ||
      w == "else" || w == "switch" || w == "case" || w == "default" ||
      w == "for" || w == "while" || w == "do" || w == "continue" ||
      w == "break" || w == "return" || w == "package" || w == "import" ||
      w == "class" || w == "interface" || w == "extends" || w == "implements";
  }

  lemma DeclarationInitialIsLowerCase(w: string)
    requires w in DeclarationWords
    ensures |w| > 0 && 'a' <= w[0] <= 'z'
  {
    assert
      w == "this" || w == "super" || w == "new" || w == "null" ||
      w == "instanceof" || w == "public" || w == "protected" || w == "private" ||
      w == "final" || w == "static" || w == "abstract" || w == "native" ||
      w == "synchronized" || w == "volatile" || w == "transient" || w == "try" ||
      w == "catch" || w == "finally" || w == "throw" || w == "throws" ||
      w == "assert" || w == "enum" || w == "const" || w == "goto" ||
      w == "strictfp";
  }

  lemma MembershipIsCaseSensitive()
    ensures IsPreserved("int") && !IsPreserved("Int")
  {
    ListedIff("int", Words);
    assert StatementWords[3] == "int";
    if IsPreserved("Int") {
      InitialIsLowerCase("Int");
    }
  }

  /** Every entry of the table is reserved. */
  lemma EntryIsPreserved(i: int)
    requires 0 <= i < |Words|
    ensures IsPreserved(Words[i])
  {
    ListedIff(Words[i], Words);
  }

  lemma LiteralsArePreserved()
    ensures IsPreserved("true") && IsPreserved("false") && IsPreserved("null")
  {
    assert Words[8] == StatementWords[8] == "true";
    EntryIsPreserved(8);
    assert Words[9] == StatementWords[9] == "false";
    EntryIsPreserved(9);
    assert Words[31] == DeclarationWords[3] == "null";
    EntryIsPreserved(31);
  }

  /** No reserved word begins with an underscore. */
  lemma NoWordStartsWithUnderscore(w: string)
    requires |w| > 0 && w[0] == '_'
    ensures !IsPreserved(w)
  {
    if IsPreserved(w) {
      InitialIsLowerCase(w);
    }
  }
}
