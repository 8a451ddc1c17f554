/**
  Properties of the validator as a whole: the chain built for any
  identifier enforces that identifier's verdict, the registry, the chain
  builder and the descriptions agree on which identifiers are constrained,
  and the literal quirks of the code.
 */
module ValidatorProperties {
  import opened Wrappers
  import opened Xsd
  import opened Checks
  import opened Validator
  import JavaString
  import LanguageTag
  import Registry

  /** The chain addValueSpaceCheck appends enforces the identifier's
      verdict, and only after the guards already in the method have passed.
      Unconstrained identifiers, inside or outside the namespace, change
      nothing. */
  lemma ValueSpaceCheckVerdict(b: Chain, id: string, v: Value)
    ensures Run(AddValueSpaceCheck(b, id), v) == OrElse(Run(b, v), IdVerdict(id, v))
  {
    if FamilyOf(id).Some? {
      FamilyChainVerdict(b, FamilyOf(id).value, v);
    }
  }

  /** The three jobs agree: the binary search over the sorted registry says
      an identifier is constrained exactly when addValueSpaceCheck emits a
      guard for it and exactly when getValueSpaceDefinition describes it. */
  method Completeness(reg: Registry.SortedTypes, b: Chain, id: string) returns (c: bool)
    requires Registry.Valid(reg)
    ensures c <==> AddValueSpaceCheck(b, id) != b
    ensures c <==> GetValueSpaceDefinition(id).Some?
    ensures c <==> FamilyOf(id).Some?
  {
    c := Registry.IsValueSpaceConstrained(reg, id);
  }

  /** Each family's builder enforces that family's verdict. */
  lemma FamilyChainVerdict(b: Chain, f: Family, v: Value)
    ensures Run(AddFamilyValidation(b, f), v) == OrElse(Run(b, v), Verdict(f, v))
  {
    if f == NormalizedString || f == Token || f == Language {
      TextFamilyChainVerdict(b, f, v);
    } else if f == UnsignedInt || f == UnsignedShort || f == UnsignedByte {
      BoundedFamilyChainVerdict(b, f, v);
    } else {
      SignFamilyChainVerdict(b, f, v);
    }
  }

  lemma TextFamilyChainVerdict(b: Chain, f: Family, v: Value)
    requires f == NormalizedString || f == Token || f == Language
    ensures Run(AddFamilyValidation(b, f), v) == OrElse(Run(b, v), Verdict(f, v))
  {
    match f
    case NormalizedString => NormalizedStringRejectsLineBreaks(b, v);
    case Token => TokenChecksInOrder(b, v);
    case Language => LanguageMatchesPattern(b, v);
  }

  lemma BoundedFamilyChainVerdict(b: Chain, f: Family, v: Value)
    requires f == UnsignedInt || f == UnsignedShort || f == UnsignedByte
    ensures Run(AddFamilyValidation(b, f), v) == OrElse(Run(b, v), Verdict(f, v))
  {
    match f
    case UnsignedInt =>
      BoundedUnsignedChecks(b, UnsignedIntMax, v);
      IntMaximumMessage();
    case UnsignedShort =>
      BoundedUnsignedChecks(b, UnsignedShortMax, v);
      ShortMaximumMessage();
    case UnsignedByte =>
      BoundedUnsignedChecks(b, UnsignedByteMax, v);
      ByteMaximumMessage();
  }

  lemma SignFamilyChainVerdict(b: Chain, f: Family, v: Value)
    requires f in {NonPositiveInteger, NegativeInteger, NonNegativeInteger, UnsignedLong, PositiveInteger}
    ensures Run(AddFamilyValidation(b, f), v) == OrElse(Run(b, v), Verdict(f, v))
  {
    match f
    case NonPositiveInteger => NonPositiveRejectsPositive(b, v);
    case NegativeInteger => NegativeRejectsNonNegative(b, v);
    case NonNegativeInteger => NonNegativeRejectsNegative(b, v);
    case UnsignedLong => UnsignedRejectsNegative(b, v);
    case PositiveInteger => PositiveRejectsNonPositive(b, v);
  }

  /** A family's identifier is described by that family's text. */
  lemma DescriptionOfFamily(f: Family)
    ensures GetValueSpaceDefinition(Iri(f)) == Some(Description(f))
  {
    FamilyOfIri(Iri(f), f);
  }

  /** A family's identifier selects that family's builder. */
  lemma ChainOfFamily(b: Chain, f: Family)
    ensures AddValueSpaceCheck(b, Iri(f)) == AddFamilyValidation(b, f)
  {
    FamilyOfIri(Iri(f), f);
  }

  /** The unsigned families other than unsignedLong add the unsigned guard
      twice, and the bounded tail of the chain is unsigned, unsigned, maximum. */
  lemma BoundedChainsRepeatUnsignedGuard(b: Chain, f: Family)
    requires f == UnsignedInt || f == UnsignedShort || f == UnsignedByte
    ensures var c := AddValueSpaceCheck(b, Iri(f));
            && |c| == |b| + 3
            && c[|b|] == c[|b| + 1] == Check(Less(0), UnsignedMessage)
            && c[|b| + 2].condition.Greater?
  {
    ChainOfFamily(b, f);
  }

  /** unsignedLong accepts every non-negative value: there is no upper bound. */
  lemma UnsignedLongHasNoUpperBound(b: Chain, n: int)
    requires n >= 0
    ensures Run(AddValueSpaceCheck(b, Iri(UnsignedLong)), Number(n)) == Run(b, Number(n))
  {
    ChainOfFamily(b, UnsignedLong);
    FamilyChainVerdict(b, UnsignedLong, Number(n));
  }

  /** The language description runs "pattern" straight into the pattern
      text, with no space between them. */
  lemma LanguageDescriptionEndsWithPattern()
    ensures JavaString.EndsWith(Description(Language), "pattern" + LanguageTag.Pattern)
  {
    var d := Description(Language);
    var suffix := "pattern" + LanguageTag.Pattern;
    assert d[|d| - |suffix|..] == suffix;
  }
}
