/** Keyword resolution: the static, case-sensitive table of reserved words. */
module Keywords {
  import opened Ascii
  import opened Tokens
  import opened Wrappers

  /**
   The reserved word of each keyword kind, read from the kind's side; `None`
   for every kind that is not a reserved word.
   */
  function Spelling(k: TokenType): Option<seq<byte>> {
    match k
    case Class => Some("class")
    case Interface => Some("interface")
    case Import => Some("import")
    case Package => Some("package")
    case Enum => Some("enum")
    case Struct => Some("struct")
    case Protected => Some("protected")
    case Private => Some("private")
    case Override => Some("override")
    case This => Some("this")
    case New => Some("new")
    case Super => Some("super")
    case Constructor => Some("constructor")
    case Data => Some("data")
    case Typeof => Some("typeof")
    case Annotation => Some("annotation")
    case If => Some("if")
    case Else => Some("else")
    case Elif => Some("elif")
    case While => Some("while")
    case For => Some("for")
    case Loop => Some("loop")
    case Break => Some("break")
    case Continue => Some("continue")
    case Async => Some("async")
    case Await => Some("await")
    case Function => Some("fn")
    case Return => Some("return")
    case True => Some("true")
    case False => Some("false")
    case Null => Some("null")
    case Mut => Some("mut")
    case Val => Some("val")
    case And => Some("and")
    case Or => Some("or")
    case Not => Some("not")
    case Is => Some("is")
    case In => Some("in")
    case Of => Some("of")
    case _ => None
  }

  /**
   The kind of an identifier's text: the keyword whose word is exactly
   `text`, otherwise `Identifier`. The arms are those of the source's
   match, grouped by the length of their word.
   */
  function LookupKeyword(text: seq<byte>): (k: TokenType) {
    match |text|
    case 2 => (
      match text
      case "if" => If
      case "fn" => Function
      case "or" => Or
      case "is" => Is
      case "in" => In
      case "of" => Of
      case _ => Identifier)
    case 3 => (
      match text
      case "new" => New
      case "for" => For
      case "mut" => Mut
      case "val" => Val
      case "and" => And
      case "not" => Not
      case _ => Identifier)
    case 4 => (
      match text
      case "enum" => Enum
      case "this" => This
      case "data" => Data
      case "else" => Else
      case "elif" => Elif
      case "loop" => Loop
      case "true" => True
      case "null" => Null
      case _ => Identifier)
    case 5 => (
      match text
      case "class" => Class
      case "super" => Super
      case "while" => While
      case "break" => Break
      case "async" => Async
      case "await" => Await
      case "false" => False
      case _ => Identifier)
    case 6 => (
      match text
      case "import" => Import
      case "struct" => Struct
      case "typeof" => Typeof
      case "return" => Return
      case _ => Identifier)
    case 7 => (
      match text
      case "package" => Package
      case "private" => Private
      case _ => Identifier)
    case 8 => (
      match text
      case "override" => Override
      case "continue" => Continue
      case _ => Identifier)
    case 9 => (
      match text
      case "interface" => Interface
      case "protected" => Protected
      case _ => Identifier)
    case 10 => (
      match text
      case "annotation" => Annotation
      case _ => Identifier)
    case 11 => (
      match text
      case "constructor" => Constructor
      case _ => Identifier)
    case _ => Identifier
  }

  // The keyword facts below are split by word length (LookupSpelled2 to
  // LookupSpelledLong) and by pairs of kinds (ReservedGroup0 to
  // ReservedGroup19) only to keep each proof small for the solver; the
  // lemmas that combine them are LookupSpelled and SpellingRoundTrip.

  /** A keyword result for a text of two bytes is spelled exactly like that text. */
  lemma LookupSpelled2(text: seq<byte>)
    requires |text| == 2
    ensures LookupKeyword(text) != Identifier ==> Spelling(LookupKeyword(text)) == Some(text)
  {
  }

  /** A keyword result for a text of three bytes is spelled exactly like that text. */
  lemma LookupSpelled3(text: seq<byte>)
    requires |text| == 3
    ensures LookupKeyword(text) != Identifier ==> Spelling(LookupKeyword(text)) == Some(text)
  {
  }

  /** A keyword result for a text of four bytes is spelled exactly like that text. */
  lemma LookupSpelled4(text: seq<byte>)
    requires |text| == 4
    ensures LookupKeyword(text) != Identifier ==> Spelling(LookupKeyword(text)) == Some(text)
  {
  }

  /** A keyword result for a text of five bytes is spelled exactly like that text. */
  lemma LookupSpelled5(text: seq<byte>)
    requires |text| == 5
    ensures LookupKeyword(text) != Identifier ==> Spelling(LookupKeyword(text)) == Some(text)
  {
  }

  /** A keyword result for a text of six bytes is spelled exactly like that text. */
  lemma LookupSpelled6(text: seq<byte>)
    requires |text| == 6
    ensures LookupKeyword(text) != Identifier ==> Spelling(LookupKeyword(text)) == Some(text)
  {
  }

  /** A keyword result for a text of seven bytes or more is spelled exactly like that text. */
  lemma LookupSpelledLong(text: seq<byte>)
    requires |text| >= 7
    ensures LookupKeyword(text) != Identifier ==> Spelling(LookupKeyword(text)) == Some(text)
  {
  }

  /** A keyword result is spelled exactly like the looked-up text. */
  lemma LookupSpelled(text: seq<byte>)
    ensures LookupKeyword(text) != Identifier ==> Spelling(LookupKeyword(text)) == Some(text)
  {
    if |text| == 2 {
      LookupSpelled2(text);
    } else if |text| == 3 {
      LookupSpelled3(text);
    } else if |text| == 4 {
      LookupSpelled4(text);
    } else if |text| == 5 {
      LookupSpelled5(text);
    } else if |text| == 6 {
      LookupSpelled6(text);
    } else if |text| >= 7 {
      LookupSpelledLong(text);
    }
  }

  /** The lookup never yields `Eof` nor a declared but unused kind. */
  lemma LookupProducible(text: seq<byte>)
    ensures Producible(LookupKeyword(text))
  {
  }

  /** Round trip and shape of the reserved words of Class and Interface. */
  lemma ReservedGroup0(k: TokenType)
    ensures k == Class || k == Interface ==> LookupKeyword(Spelling(k).value) == k && IdentifierShaped(Spelling(k).value)
  {
  }

  /** Round trip and shape of the reserved words of Import and Package. */
  lemma ReservedGroup1(k: TokenType)
    ensures k == Import || k == Package ==> LookupKeyword(Spelling(k).value) == k && IdentifierShaped(Spelling(k).value)
  {
  }

  /** Round trip and shape of the reserved words of Enum and Struct. */
  lemma ReservedGroup2(k: TokenType)
    ensures k == Enum || k == Struct ==> LookupKeyword(Spelling(k).value) == k && IdentifierShaped(Spelling(k).value)
  {
  }

  /** Round trip and shape of the reserved words of Protected and Private. */
  lemma ReservedGroup3(k: TokenType)
    ensures k == Protected || k == Private ==> LookupKeyword(Spelling(k).value) == k && IdentifierShaped(Spelling(k).value)
  {
  }

  /** Round trip and shape of the reserved words of Override and This. */
  lemma ReservedGroup4(k: TokenType)
    ensures k == Override || k == This ==> LookupKeyword(Spelling(k).value) == k && IdentifierShaped(Spelling(k).value)
  {
  }

  /** Round trip and shape of the reserved words of New and Super. */
  lemma ReservedGroup5(k: TokenType)
    ensures k == New || k == Super ==> LookupKeyword(Spelling(k).value) == k && IdentifierShaped(Spelling(k).value)
  {
  }

  /** Round trip and shape of the reserved words of Constructor and Data. */
  lemma ReservedGroup6(k: TokenType)
    ensures k == Constructor || k == Data ==> LookupKeyword(Spelling(k).value) == k && IdentifierShaped(Spelling(k).value)
  {
  }

  /** Round trip and shape of the reserved words of Typeof and Annotation. */
  lemma ReservedGroup7(k: TokenType)
    ensures k == Typeof || k == Annotation ==> LookupKeyword(Spelling(k).value) == k && IdentifierShaped(Spelling(k).value)
  {
  }

  /** Round trip and shape of the reserved words of If and Else. */
  lemma ReservedGroup8(k: TokenType)
    ensures k == If || k == Else ==> LookupKeyword(Spelling(k).value) == k && IdentifierShaped(Spelling(k).value)
  {
  }

  /** Round trip and shape of the reserved words of Elif and While. */
  lemma ReservedGroup9(k: TokenType)
    ensures k == Elif || k == While ==> LookupKeyword(Spelling(k).value) == k && IdentifierShaped(Spelling(k).value)
  {
  }

  /** Round trip and shape of the reserved words of For and Loop. */
  lemma ReservedGroup10(k: TokenType)
    ensures k == For || k == Loop ==> LookupKeyword(Spelling(k).value) == k && IdentifierShaped(Spelling(k).value)
  {
  }

  /** Round trip and shape of the reserved words of Break and Continue. */
  lemma ReservedGroup11(k: TokenType)
    ensures k == Break || k == Continue ==> LookupKeyword(Spelling(k).value) == k && IdentifierShaped(Spelling(k).value)
  {
  }

  /** Round trip and shape of the reserved words of Async and Await. */
  lemma ReservedGroup12(k: TokenType)
    ensures k == Async || k == Await ==> LookupKeyword(Spelling(k).value) == k && IdentifierShaped(Spelling(k).value)
  {
  }

  /** Round trip and shape of the reserved words of Function and Return. */
  lemma ReservedGroup13(k: TokenType)
    ensures k == Function || k == Return ==> LookupKeyword(Spelling(k).value) == k && IdentifierShaped(Spelling(k).value)
  {
  }

  /** Round trip and shape of the reserved words of True and False. */
  lemma ReservedGroup14(k: TokenType)
    ensures k == True || k == False ==> LookupKeyword(Spelling(k).value) == k && IdentifierShaped(Spelling(k).value)
  {
  }

  /** Round trip and shape of the reserved words of Null and Mut. */
  lemma ReservedGroup15(k: TokenType)
    ensures k == Null || k == Mut ==> LookupKeyword(Spelling(k).value) == k && IdentifierShaped(Spelling(k).value)
  {
  }

  /** Round trip and shape of the reserved words of Val and And. */
  lemma ReservedGroup16(k: TokenType)
    ensures k == Val || k == And ==> LookupKeyword(Spelling(k).value) == k && IdentifierShaped(Spelling(k).value)
  {
  }

  /** Round trip and shape of the reserved words of Or and Not. */
  lemma ReservedGroup17(k: TokenType)
    ensures k == Or || k == Not ==> LookupKeyword(Spelling(k).value) == k && IdentifierShaped(Spelling(k).value)
  {
  }

  /** Round trip and shape of the reserved words of Is and In. */
  lemma ReservedGroup18(k: TokenType)
    ensures k == Is || k == In ==> LookupKeyword(Spelling(k).value) == k && IdentifierShaped(Spelling(k).value)
  {
  }

  /** Round trip and shape of the reserved words of Of. */
  lemma ReservedGroup19(k: TokenType)
    ensures k == Of ==> LookupKeyword(Spelling(k).value) == k && IdentifierShaped(Spelling(k).value)
  {
  }

  /**
   Every reserved word is looked up as its own kind, and has the shape of an
   identifier (a letter, then letters or digits), so the identifier scanner
   can reach each of them.
   */
  lemma SpellingRoundTrip(k: TokenType)
    ensures Spelling(k).Some? ==> LookupKeyword(Spelling(k).value) == k
    ensures Spelling(k).Some? ==> IdentifierShaped(Spelling(k).value)
  {
    ReservedGroup0(k);
    ReservedGroup1(k);
    ReservedGroup2(k);
    ReservedGroup3(k);
    ReservedGroup4(k);
    ReservedGroup5(k);
    ReservedGroup6(k);
    ReservedGroup7(k);
    ReservedGroup8(k);
    ReservedGroup9(k);
    ReservedGroup10(k);
    ReservedGroup11(k);
    ReservedGroup12(k);
    ReservedGroup13(k);
    ReservedGroup14(k);
    ReservedGroup15(k);
    ReservedGroup16(k);
    ReservedGroup17(k);
    ReservedGroup18(k);
    ReservedGroup19(k);
  }

  /**
   Lookup is whole-word: text resolves to `Identifier` exactly when it is
   not the spelling of any kind.
   */
  lemma LookupIdentifierIff(text: seq<byte>)
    ensures LookupKeyword(text) == Identifier <==> forall k :: Spelling(k) != Some(text)
  {
    if LookupKeyword(text) != Identifier {
      LookupSpelled(text);
    } else {
      forall k ensures Spelling(k) != Some(text) {
        if Spelling(k) == Some(text) {
          SpellingRoundTrip(k);
        }
      }
    }
  }

  /** A letter or underscore followed by letters, digits or underscores. */
  predicate IdentifierShaped(w: seq<byte>) {
    |w| > 0 && IsAlpha(w[0]) && forall i | 0 <= i < |w| :: IsAlphaNumeric(w[i])
  }

  /** The switch and error-handling words are not reserved. */
  lemma UnreservedWords()
    ensures LookupKeyword("try") == Identifier && LookupKeyword("catch") == Identifier
    ensures LookupKeyword("switch") == Identifier && LookupKeyword("default") == Identifier
  {
  }

  /**
   A reserved word's kind comes only from that exact word: no prefix, no
   extension and no case variant of it yields the kind.
   */
  lemma NoPartialOrFoldedMatch(text: seq<byte>, k: TokenType)
    requires Spelling(k).Some? && text != Spelling(k).value
    ensures LookupKeyword(text) != k
  {
    LookupSpelled(text);
  }

  /** For example, `classify` and `Class` are identifiers, and only `class` is the keyword. */
  lemma WholeWordExamples()
    ensures LookupKeyword("classify") == Identifier && LookupKeyword("Class") == Identifier
    ensures LookupKeyword("class") == Class
  {
  }
}
