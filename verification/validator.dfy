/**
  XSDValueSpaceValidator: builds the guard chain that confines a value to
  the value space of its XML Schema datatype, and describes that value
  space in prose. Builders append to a chain the way the Java helpers add
  control flow to a method builder and return it.
 */
module Validator {
  import opened Wrappers
  import opened Xsd
  import opened Checks
  import JavaString
  import LanguageTag
  import Registry

  const NormalizedStringMessage: string :=
    "Value must be a normalized string. Must not contain carriage return, line feed or tab."
  const TokenEdgeMessage: string := "Value must be a XSD token. Must not start or end with whitespace."
  const TokenDoubleSpaceMessage: string :=
    "Value must be a XSD token. Must not contain subsequences of two or more whitespaces."
  const LanguageMessage: string := "Value must be a language identifier, as defined by BCP 47."
  const NonPositiveMessage: string := "Value must be non-positive."
  const NegativeMessage: string := "Value must be negative."
  const NonNegativeMessage: string := "Value must be non-negative."
  /** The message of the unsigned families; unlike NonNegativeMessage it has no final period. */
  const UnsignedMessage: string := "Value must be non-negative"
  const PositiveMessage: string := "Value must be positive"

  /** The maximums the bounded unsigned families are checked against. The
      unsignedInt one is the largest signed 32-bit int, not 4294967295. */
  const UnsignedIntMax: nat := 2147483647
  const UnsignedShortMax: nat := 65535
  const UnsignedByteMax: nat := 255

  /** "Value must be less than " followed by the decimal maximum. */
  function MaximumMessage(max: nat): string
  {
    "Value must be less than " + JavaString.NatToString(max)
  }

  // ---------------------------------------------------------------------
  // Builders. Each appends its guards and leaves earlier ones untouched.
  // ---------------------------------------------------------------------

  function AddNormalizedStringValidation(b: Chain): (r: Chain)
    ensures b <= r
  {
    b + [Check(ContainsLineBreakOrTab, NormalizedStringMessage)]
  }

  /** A token is first checked as a normalized string. */
  function AddTokenValidation(b: Chain): (r: Chain)
    ensures AddNormalizedStringValidation(b) <= r
  {
    AddNormalizedStringValidation(b)
      + [Check(SpaceAtStartOrEnd, TokenEdgeMessage)]
      + [Check(ContainsDoubleSpace, TokenDoubleSpaceMessage)]
  }

  function AddLanguageValidation(b: Chain): (r: Chain)
    ensures b <= r
  {
    b + [Check(NotLanguageTag, LanguageMessage)]
  }

  function AddNonPositiveValidation(b: Chain): (r: Chain)
    ensures b <= r
  {
    b + [Check(Greater(0), NonPositiveMessage)]
  }

  function AddNegativeValidation(b: Chain): (r: Chain)
    ensures b <= r
  {
    b + [Check(GreaterOrEqual(0), NegativeMessage)]
  }

  function AddNonNegativeValidation(b: Chain): (r: Chain)
    ensures b <= r
  {
    b + [Check(Less(0), NonNegativeMessage)]
  }

  function AddUnsignedValidation(b: Chain): (r: Chain)
    ensures b <= r
  {
    b + [Check(Less(0), UnsignedMessage)]
  }

  /** The unsigned guard, then the inclusive upper bound. */
  function AddMaximumValidation(b: Chain, max: nat): (r: Chain)
    ensures AddUnsignedValidation(b) <= r
  {
    AddUnsignedValidation(b) + [Check(Greater(max), MaximumMessage(max))]
  }

  /** Each bounded family adds the unsigned guard itself and then again
      through AddMaximumValidation. */
  function AddUnsignedIntegerValidation(b: Chain): (r: Chain)
    ensures b <= r
  {
    AddMaximumValidation(AddUnsignedValidation(b), UnsignedIntMax)
  }

  function AddUnsignedShortValidation(b: Chain): (r: Chain)
    ensures b <= r
  {
    AddMaximumValidation(AddUnsignedValidation(b), UnsignedShortMax)
  }

  function AddUnsignedByteValidation(b: Chain): (r: Chain)
    ensures b <= r
  {
    AddMaximumValidation(AddUnsignedValidation(b), UnsignedByteMax)
  }

  function AddPositiveValidation(b: Chain): (r: Chain)
    ensures b <= r
  {
    b + [Check(LessOrEqual(0), PositiveMessage)]
  }

  /** The builder each family selects in addValueSpaceCheck. */
  function AddFamilyValidation(b: Chain, f: Family): (r: Chain)
    ensures b < r
  {
    match f
    case NormalizedString => AddNormalizedStringValidation(b)
    case Token => AddTokenValidation(b)
    case Language => AddLanguageValidation(b)
    case NonPositiveInteger => AddNonPositiveValidation(b)
    case NegativeInteger => AddNegativeValidation(b)
    case NonNegativeInteger => AddNonNegativeValidation(b)
    case UnsignedLong => AddUnsignedValidation(b)
    case UnsignedInt => AddUnsignedIntegerValidation(b)
    case UnsignedShort => AddUnsignedShortValidation(b)
    case UnsignedByte => AddUnsignedByteValidation(b)
    case PositiveInteger => AddPositiveValidation(b)
  }

  /** addValueSpaceCheck: identifiers outside the XML Schema namespace are
      skipped; inside it, the switch compares the identifier with each
      constrained one and calls the matching builder, and any other
      identifier adds nothing. */
  function AddValueSpaceCheck(b: Chain, id: string): (r: Chain)
    ensures b <= r
    ensures r == b <==> id !in Registry.DeclaredTypes
  {
    Registry.DeclaredTypesAreFamilies(id);
    if !JavaString.StartsWith(id, NS) then b
    else
      match FamilyOf(id)
      case Some(f) => AddFamilyValidation(b, f)
      case None => b
  }

  /** The fixed prose describing each family's value space. */
  function Description(f: Family): string
  {
    match f
    case NormalizedString =>
      "The value space is the set of strings that do not contain the carriage " +
      "return (#xD), line feed (#xA) nor tab (#x9) characters."
    case Token =>
      "The value space is the set of strings that do not contain the carriage return (#xD), " +
      "line feed (#xA) nor tab (#x9) characters, that have no leading or trailing spaces (#x20) " +
      "and that have no internal sequences of two or more spaces."
    case Language => "The value space is the set of all strings that conform to the pattern" + LanguageTag.Pattern
    case NonPositiveInteger => "The value space is the infinite set {...,-2,-1,0}."
    case NegativeInteger => "The value space is the infinite set {...,-2,-1}."
    case NonNegativeInteger => "The value space is the infinite set {0,1,2,...}."
    case UnsignedLong => "The value space is the infinite set {0,1,2,..., 18446744073709551615}."
    case UnsignedInt => "The value space is the infinite set {0,1,2,..., 4294967295}."
    case UnsignedShort => "The value space is the infinite set {0,1,2,..., 65535}."
    case UnsignedByte => "The value space is the infinite set {0,1,2,..., 255}."
    case PositiveInteger => "The value space is the infinite set {1,2,...}."
  }

  /** getValueSpaceDefinition: the fixed prose for a constrained identifier,
      None (null) for any other. No namespace test precedes the switch. */
  function GetValueSpaceDefinition(id: string): (r: Option<string>)
    ensures r.Some? <==> id in Registry.DeclaredTypes
  {
    Registry.DeclaredTypesAreFamilies(id);
    match FamilyOf(id)
    case Some(f) => Some(Description(f))
    case None => None
  }

  // ---------------------------------------------------------------------
  // Reference semantics: what each family rejects, stated on the value.
  // ---------------------------------------------------------------------

  ghost predicate HasLineBreakOrTab(s: string)
  {
    '\r' in s || '\n' in s || '\t' in s
  }

  ghost predicate HasEdgeSpace(s: string)
  {
    |s| > 0 && (s[0] == ' ' || s[|s| - 1] == ' ')
  }

  ghost predicate HasDoubleSpace(s: string)
  {
    exists i :: 0 <= i < |s| - 1 && s[i] == ' ' && s[i + 1] == ' '
  }

  /** The outcome a family's guards must produce for a value: None when it
      is in the value space, else the message of the first constraint it
      breaks. The unsigned bounds are those the code checks. */
  ghost function Verdict(f: Family, v: Value): Option<string>
  {
    match v
    case Text(s) =>
      (match f
       case NormalizedString =>
         if HasLineBreakOrTab(s) then Some(NormalizedStringMessage) else None
       case Token =>
         if HasLineBreakOrTab(s) then Some(NormalizedStringMessage)
         else if HasEdgeSpace(s) then Some(TokenEdgeMessage)
         else if HasDoubleSpace(s) then Some(TokenDoubleSpaceMessage)
         else None
       case Language =>
         if LanguageTag.MatchesPattern(s) then None else Some(LanguageMessage)
       case _ => None)
    case Number(n) =>
      (match f
       case NonPositiveInteger => if n > 0 then Some(NonPositiveMessage) else None
       case NegativeInteger => if n >= 0 then Some(NegativeMessage) else None
       case NonNegativeInteger => if n < 0 then Some(NonNegativeMessage) else None
       case UnsignedLong => if n < 0 then Some(UnsignedMessage) else None
       case UnsignedInt =>
         if n < 0 then Some(UnsignedMessage)
         else if n > 2147483647 then Some("Value must be less than 2147483647")
         else None
       case UnsignedShort =>
         if n < 0 then Some(UnsignedMessage)
         else if n > 65535 then Some("Value must be less than 65535")
         else None
       case UnsignedByte =>
         if n < 0 then Some(UnsignedMessage)
         else if n > 255 then Some("Value must be less than 255")
         else None
       case PositiveInteger => if n <= 0 then Some(PositiveMessage) else None
       case _ => None)
  }

  /** The verdict for an arbitrary identifier: none for unconstrained ones. */
  ghost function IdVerdict(id: string, v: Value): Option<string>
  {
    match FamilyOf(id)
    case None => None
    case Some(f) => Verdict(f, v)
  }

  // ---------------------------------------------------------------------
  // The guard conditions mean what their Java text says.
  // ---------------------------------------------------------------------

  lemma LineBreakOrTabCondition(s: string)
    ensures Fires(ContainsLineBreakOrTab, Text(s)) <==> HasLineBreakOrTab(s)
  {
    JavaString.IndexOfCharIffContains(s, '\r');
    JavaString.IndexOfCharIffContains(s, '\n');
    JavaString.IndexOfCharIffContains(s, '\t');
  }

  lemma EdgeSpaceCondition(s: string)
    ensures Fires(SpaceAtStartOrEnd, Text(s)) <==> HasEdgeSpace(s)
  {
    if |s| > 0 {
      assert s[|s| - 1..] == [s[|s| - 1]];
      assert JavaString.StartsWith(s, " ") <==> s[0] == ' ';
    }
  }

  lemma DoubleSpaceCondition(s: string)
    ensures Fires(ContainsDoubleSpace, Text(s)) <==> HasDoubleSpace(s)
  {
    if HasDoubleSpace(s) {
      DoubleSpaceFound(s);
    }
    if JavaString.IndexOf(s, "  ") != -1 {
      DoubleSpaceIndexed(s);
    }
  }

  lemma DoubleSpaceFound(s: string)
    requires HasDoubleSpace(s)
    ensures JavaString.IndexOf(s, "  ") != -1
  {
    var i :| 0 <= i < |s| - 1 && s[i] == ' ' && s[i + 1] == ' ';
    assert s[i..i + 2] == "  ";
    assert JavaString.OccursAt(s, "  ", i);
  }

  lemma DoubleSpaceIndexed(s: string)
    requires JavaString.IndexOf(s, "  ") != -1
    ensures HasDoubleSpace(s)
  {
    var k := JavaString.IndexOf(s, "  ");
    assert JavaString.OccursAt(s, "  ", k);
    var w := s[k..k + 2];
    assert w == "  ";
    assert s[k] == w[0] && s[k + 1] == w[1];
  }

  /** Appending one guard: it decides only when the chain before it passes. */
  lemma RunAppendOne(b: Chain, c: Check, v: Value)
    ensures Run(b + [c], v) == OrElse(Run(b, v), if Fires(c.condition, v) then Some(c.message) else None)
  {
    RunAppend(b, [c], v);
  }

  // ---------------------------------------------------------------------
  // Each builder enforces its family's verdict after the existing chain.
  // ---------------------------------------------------------------------

  lemma NormalizedStringRejectsLineBreaks(b: Chain, v: Value)
    ensures Run(AddNormalizedStringValidation(b), v) == OrElse(Run(b, v), Verdict(NormalizedString, v))
  {
    RunAppendOne(b, Check(ContainsLineBreakOrTab, NormalizedStringMessage), v);
    if v.Text? {
      LineBreakOrTabCondition(v.s);
    }
  }

  lemma TokenChecksInOrder(b: Chain, v: Value)
    ensures Run(AddTokenValidation(b), v) == OrElse(Run(b, v), Verdict(Token, v))
  {
    var n := AddNormalizedStringValidation(b);
    var edge := Check(SpaceAtStartOrEnd, TokenEdgeMessage);
    var double := Check(ContainsDoubleSpace, TokenDoubleSpaceMessage);
    NormalizedStringRejectsLineBreaks(b, v);
    RunAppendOne(n, edge, v);
    RunAppendOne(n + [edge], double, v);
    if v.Text? {
      LineBreakOrTabCondition(v.s);
      EdgeSpaceCondition(v.s);
      DoubleSpaceCondition(v.s);
    }
  }

  lemma LanguageMatchesPattern(b: Chain, v: Value)
    ensures Run(AddLanguageValidation(b), v) == OrElse(Run(b, v), Verdict(Language, v))
  {
    RunAppendOne(b, Check(NotLanguageTag, LanguageMessage), v);
    if v.Text? {
      LanguageTag.IsLanguageTagIffMatches(v.s);
    }
  }

  /** The single-guard numeric families reject exactly their one condition. */
  lemma NonPositiveRejectsPositive(b: Chain, v: Value)
    ensures Run(AddNonPositiveValidation(b), v) == OrElse(Run(b, v), Verdict(NonPositiveInteger, v))
  {
    RunAppendOne(b, Check(Greater(0), NonPositiveMessage), v);
  }

  lemma NegativeRejectsNonNegative(b: Chain, v: Value)
    ensures Run(AddNegativeValidation(b), v) == OrElse(Run(b, v), Verdict(NegativeInteger, v))
  {
    RunAppendOne(b, Check(GreaterOrEqual(0), NegativeMessage), v);
  }

  lemma NonNegativeRejectsNegative(b: Chain, v: Value)
    ensures Run(AddNonNegativeValidation(b), v) == OrElse(Run(b, v), Verdict(NonNegativeInteger, v))
  {
    RunAppendOne(b, Check(Less(0), NonNegativeMessage), v);
  }

  /** unsignedLong: only the sign is checked, there is no upper bound. */
  lemma UnsignedRejectsNegative(b: Chain, v: Value)
    ensures Run(AddUnsignedValidation(b), v) == OrElse(Run(b, v), Verdict(UnsignedLong, v))
  {
    RunAppendOne(b, Check(Less(0), UnsignedMessage), v);
  }

  lemma PositiveRejectsNonPositive(b: Chain, v: Value)
    ensures Run(AddPositiveValidation(b), v) == OrElse(Run(b, v), Verdict(PositiveInteger, v))
  {
    RunAppendOne(b, Check(LessOrEqual(0), PositiveMessage), v);
  }

  /** The outcome of a bounded unsigned chain: the unsigned message below
      zero, the maximum message above max, and nothing in between. */
  ghost function BoundedVerdict(max: nat, v: Value): Option<string>
  {
    if v.Number? && v.n < 0 then Some(UnsignedMessage)
    else if v.Number? && v.n > max then Some(MaximumMessage(max))
    else None
  }

  /** The repeated unsigned guard of the bounded families never changes the
      outcome: the chain behaves as one unsigned guard and one bound. */
  lemma DuplicateUnsignedCheckHarmless(b: Chain, max: nat, v: Value)
    ensures Run(AddMaximumValidation(AddUnsignedValidation(b), max), v) == Run(AddMaximumValidation(b, max), v)
  {
    var u := Check(Less(0), UnsignedMessage);
    var m := Check(Greater(max), MaximumMessage(max));
    assert AddMaximumValidation(AddUnsignedValidation(b), max) == b + [u, u] + [m];
    assert AddMaximumValidation(b, max) == b + [u] + [m];
    RunRepeatedCheck(b, u, [m], v);
  }

  lemma BoundedUnsignedChecks(b: Chain, max: nat, v: Value)
    ensures Run(AddMaximumValidation(AddUnsignedValidation(b), max), v) == OrElse(Run(b, v), BoundedVerdict(max, v))
  {
    DuplicateUnsignedCheckHarmless(b, max, v);
    var u := Check(Less(0), UnsignedMessage);
    RunAppendOne(b, u, v);
    RunAppendOne(b + [u], Check(Greater(max), MaximumMessage(max)), v);
  }

  /** The decimal renderings of the three maximums, one digit at a time. */
  lemma ByteMaximumMessage()
    ensures MaximumMessage(UnsignedByteMax) == "Value must be less than 255"
  {
    assert JavaString.NatToString(25) == "25";
    assert JavaString.NatToString(255) == "255";
  }

  lemma ShortMaximumMessage()
    ensures MaximumMessage(UnsignedShortMax) == "Value must be less than 65535"
  {
    assert JavaString.NatToString(65) == "65";
    assert JavaString.NatToString(655) == "655";
    assert JavaString.NatToString(6553) == "6553";
    assert JavaString.NatToString(65535) == "65535";
  }

  lemma IntMaximumMessage()
    ensures MaximumMessage(UnsignedIntMax) == "Value must be less than 2147483647"
  {
    IntMaximumDigits();
  }

  lemma IntMaximumDigits()
    ensures JavaString.NatToString(2147483647) == "2147483647"
  {
    assert JavaString.NatToString(21) == "21";
    assert JavaString.NatToString(214) == "214";
    assert JavaString.NatToString(2147) == "2147";
    assert JavaString.NatToString(21474) == "21474";
    assert JavaString.NatToString(214748) == "214748";
    assert JavaString.NatToString(2147483) == "2147483";
    assert JavaString.NatToString(21474836) == "21474836";
    assert JavaString.NatToString(214748364) == "214748364";
  }
}
