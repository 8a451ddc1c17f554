/**
  Concrete runs of the chains the validator emits, one outcome per lemma:
  the boundary values of the numeric families, the order of the token
  guards, whole-string matching of language tags, and the literal quirks
  of the messages and bounds.
 */
module WorkedCases {
  import opened Wrappers
  import opened Xsd
  import opened Checks
  import opened Validator
  import ValidatorProperties

  /** unsignedByte checks the sign before the bound. */
  lemma UnsignedByteRejectsMinusOne()
    ensures Run(AddFamilyValidation([], UnsignedByte), Number(-1)) == Some("Value must be non-negative")
  {
    ValidatorProperties.FamilyChainVerdict([], UnsignedByte, Number(-1));
  }

  lemma UnsignedByteRejects256()
    ensures Run(AddFamilyValidation([], UnsignedByte), Number(256)) == Some("Value must be less than 255")
  {
    ValidatorProperties.FamilyChainVerdict([], UnsignedByte, Number(256));
  }

  /** The bound is inclusive, despite the wording "less than". */
  lemma UnsignedByteAccepts255()
    ensures Run(AddFamilyValidation([], UnsignedByte), Number(255)) == None
  {
    var v := Number(255);
    ValidatorProperties.FamilyChainVerdict([], UnsignedByte, v);
    assert Verdict(UnsignedByte, v) == None;
  }

  lemma UnsignedShortRejects65536()
    ensures Run(AddFamilyValidation([], UnsignedShort), Number(65536)) == Some("Value must be less than 65535")
  {
    ValidatorProperties.FamilyChainVerdict([], UnsignedShort, Number(65536));
  }

  lemma PositiveRejectsZero()
    ensures Run(AddFamilyValidation([], PositiveInteger), Number(0)) == Some("Value must be positive")
  {
    ValidatorProperties.FamilyChainVerdict([], PositiveInteger, Number(0));
  }

  /** The described maximum of unsignedInt, 4294967295, is rejected against
      the checked maximum 2147483647. */
  lemma UnsignedIntRejectsDescribedMaximum()
    ensures Run(AddFamilyValidation([], UnsignedInt), Number(4294967295)) == Some("Value must be less than 2147483647")
  {
    ValidatorProperties.FamilyChainVerdict([], UnsignedInt, Number(4294967295));
  }

  lemma UnsignedIntAcceptsCheckedMaximum()
    ensures Run(AddFamilyValidation([], UnsignedInt), Number(2147483647)) == None
  {
    var v := Number(2147483647);
    ValidatorProperties.FamilyChainVerdict([], UnsignedInt, v);
    assert Verdict(UnsignedInt, v) == None;
  }

  /** nonNegativeInteger's message ends with a period; unsignedLong's does not. */
  lemma NonNegativeMessageHasPeriod()
    ensures Run(AddFamilyValidation([], NonNegativeInteger), Number(-1)) == Some("Value must be non-negative.")
  {
    ValidatorProperties.FamilyChainVerdict([], NonNegativeInteger, Number(-1));
  }

  lemma UnsignedLongMessageHasNoPeriod()
    ensures Run(AddFamilyValidation([], UnsignedLong), Number(-1)) == Some("Value must be non-negative")
  {
    ValidatorProperties.FamilyChainVerdict([], UnsignedLong, Number(-1));
  }

  /** A tab is reported before a leading space: the normalized-string guard runs first. */
  lemma TokenReportsTabBeforeLeadingSpace()
    ensures Run(AddFamilyValidation([], Token), Text(" a\tb")) == Some(NormalizedStringMessage)
  {
    var s := " a\tb";
    assert s[2] == '\t';
    ValidatorProperties.FamilyChainVerdict([], Token, Text(s));
  }

  lemma TokenRejectsLeadingSpace()
    ensures Run(AddFamilyValidation([], Token), Text(" ab")) == Some(TokenEdgeMessage)
  {
    var s := " ab";
    assert !HasLineBreakOrTab(s) by { assert forall i :: 0 <= i < |s| ==> s[i] in {' ', 'a', 'b'}; }
    ValidatorProperties.FamilyChainVerdict([], Token, Text(s));
  }

  lemma TokenRejectsDoubleSpace()
    ensures Run(AddFamilyValidation([], Token), Text("a  b")) == Some(TokenDoubleSpaceMessage)
  {
    var s := "a  b";
    assert !HasLineBreakOrTab(s) by { assert forall i :: 0 <= i < |s| ==> s[i] in {' ', 'a', 'b'}; }
    assert s[1] == ' ' && s[2] == ' ';
    ValidatorProperties.FamilyChainVerdict([], Token, Text(s));
  }

  lemma TokenAcceptsSingleSpaces()
    ensures Run(AddFamilyValidation([], Token), Text("a b")) == None
  {
    var s := "a b";
    assert !HasLineBreakOrTab(s) by { assert forall i :: 0 <= i < |s| ==> s[i] in {' ', 'a', 'b'}; }
    assert !HasDoubleSpace(s) by { assert forall i :: 0 <= i < |s| - 1 ==> s[i] != ' ' || s[i + 1] != ' '; }
    ValidatorProperties.FamilyChainVerdict([], Token, Text(s));
  }

  lemma LanguageAcceptsRegionSubtag()
    ensures Run(AddFamilyValidation([], Language), Text("en-US")) == None
  {
  }

  lemma LanguageAcceptsDigitSubtag()
    ensures Run(AddFamilyValidation([], Language), Text("de-1996")) == None
  {
  }

  /** The whole string must match: a trailing hyphen is rejected. */
  lemma LanguageRejectsTrailingHyphen()
    ensures Run(AddFamilyValidation([], Language), Text("en-")) == Some(LanguageMessage)
  {
  }
}
