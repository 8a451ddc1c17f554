# XSD value-space validator, modelled in Dafny

anno4j generates Java accessors for RDF properties. When a property's range
is an XML Schema datatype whose value space is narrower than the Java type
that carries it, `XSDValueSpaceValidator` emits guard code into the
generated setter. Each guard has the form
`if (condition) throw new IllegalArgumentException(message)`. The datatypes
are eleven built-ins from section 3.4 of W3C XML Schema Definition Language
1.1 Part 2: Datatypes: normalizedString, token, language,
nonPositiveInteger, negativeInteger, nonNegativeInteger, unsignedLong,
unsignedInt, unsignedShort, unsignedByte and positiveInteger.

The validator has three jobs, and this project models all three:

- **Membership.** `isValueSpaceConstrained` runs a binary search over a
  constant array of identifiers. A static initializer sorts that array once
  before any lookup.
- **Guard chains.** `addValueSpaceCheck` and the `add*Validation` helpers
  append guards to a method builder. Some helpers reuse others: token first
  adds the normalizedString guard. The bounded unsigned types add the
  unsigned guard, then call `addMaximumValidation`, which adds the unsigned
  guard again before its bound.
- **Descriptions.** `getValueSpaceDefinition` returns a fixed text per
  datatype, or null.

## Layout

| file | module | contents |
|---|---|---|
| wrappers.dfy | `Wrappers` | `Option`, standing for a reference that may be null |
| java_string.dfy | `JavaString` | `String.compareTo`, `indexOf`, `startsWith`, `endsWith` and `Integer.toString`, with their laws |
| xsd.dfy | `Xsd` | the namespace, the eleven `Family` values, `Iri` (namespace + local name) and its inverse `FamilyOf` |
| language_tag.dfy | `LanguageTag` | a recogniser for `[a-zA-Z]{1,8}(-[a-zA-Z0-9]{1,8})*`, proved equal to the regex's language |
| registry.dfy | `Registry` | the declared array, its sort, `Arrays.binarySearch` and `IsValueSpaceConstrained` |
| checks.dfy | `Checks` | `Condition`, `Check`, `Chain` (`seq<Check>`) and `Run` |
| validator.dfy | `Validator` | the messages, the builders, `AddValueSpaceCheck`, `GetValueSpaceDefinition` and the reference `Verdict` per family |
| properties.dfy | `ValidatorProperties` | the end-to-end theorem and the structural quirks |
| worked_cases.dfy | `WorkedCases` | concrete boundary runs |

The model works like this:

- A builder is a function from a chain to a longer chain. It appends the
  guards the Java helper would emit.
- `Checks.Run` evaluates a chain in order and returns the message of the
  first guard that throws, or `None`. It stands in for running the generated
  code.
- `Validator.Verdict` is an independent reference. For each family it is
  written directly on the value (is there a CR? is `n > 255`?), not in terms
  of guards.
- The central theorem is `ValidatorProperties.ValueSpaceCheckVerdict`. It
  says that, for every identifier, every value and every chain already in the
  method, running the extended chain gives the earlier chain's failure if
  there is one, and otherwise that identifier's verdict.

### Behaviour of the code kept as written

- unsignedInt is checked against 2147483647, the largest signed 32-bit int.
  Its description says 4294967295. `WorkedCases.UnsignedIntRejectsDescribedMaximum`
  shows that 4294967295 itself is rejected.
- unsignedLong has only the sign guard and no upper bound
  (`ValidatorProperties.UnsignedLongHasNoUpperBound`).
- The unsignedInt, unsignedShort and unsignedByte chains contain the unsigned
  guard twice in a row (`ValidatorProperties.BoundedChainsRepeatUnsignedGuard`).
  This never changes the outcome (`Validator.DuplicateUnsignedCheckHarmless`).
- The upper bound is inclusive, although the message says "less than".
- The nonNegativeInteger message ends with a period. The unsigned message,
  which is otherwise identical, does not.
- The language description runs "pattern" straight into the regex, with no
  space between them.
- The descriptions of unsignedLong, unsignedInt, unsignedShort and
  unsignedByte call a finite set "infinite". The texts are modelled verbatim.
- `isValueSpaceConstrained` does not test the namespace prefix before
  searching, and `getValueSpaceDefinition` has no namespace test either. Only
  `addValueSpaceCheck` has one. All eleven identifiers start with the
  namespace, so the answers are the same as with a prefix gate
  (`Xsd.FamilyOfOutsideNamespace`).

## Model

| member | source | states |
|---|---|---|
| JavaString.CompareToTransitive | anno4j-core/src/main/java/com/github/anno4j/rdfs_parser/validation/XSDValueSpaceValidator.java:27-30 | Models CompareTo. The string order used by the sort is transitive. Together with `CompareToAntisymmetric` and `CompareToZeroIffEqual` it is a total order, which is what sorting and binary search assume. |
| JavaString.CompareToAntisymmetric | anno4j-core/src/main/java/com/github/anno4j/rdfs_parser/validation/XSDValueSpaceValidator.java:27-30 | Swapping the arguments of compareTo negates the result. |
| JavaString.CompareToZeroIffEqual | anno4j-core/src/main/java/com/github/anno4j/rdfs_parser/validation/XSDValueSpaceValidator.java:199-201 | compareTo is 0 exactly for equal strings, so a search hit means the exact identifier. |
| Registry.Sort | anno4j-core/src/main/java/com/github/anno4j/rdfs_parser/validation/XSDValueSpaceValidator.java:27-30 | The sorted array is ascending in compareTo order and is a permutation of its input. |
| Registry.StaticInit | anno4j-core/src/main/java/com/github/anno4j/rdfs_parser/validation/XSDValueSpaceValidator.java:23-30 | The static initializer leaves a sorted permutation of the eleven declared identifiers. |
| Registry.BinarySearch | anno4j-core/src/main/java/com/github/anno4j/rdfs_parser/validation/XSDValueSpaceValidator.java:199-201 | On a sorted array: a non-negative result indexes the key. A negative result means the key is absent, and -(r+1) is the insertion point, with every element before it smaller and every element from it on larger. |
| Registry.IsValueSpaceConstrained | anno4j-core/src/main/java/com/github/anno4j/rdfs_parser/validation/XSDValueSpaceValidator.java:198-201 | After the static sort, binary search answers true exactly when the identifier is in the declared array, that is, exactly when it names one of the eleven families. |
| Registry.DeclaredTypesAreFamilies | anno4j-core/src/main/java/com/github/anno4j/rdfs_parser/validation/XSDValueSpaceValidator.java:23-25 | The declared array holds exactly the eleven family identifiers. |
| Xsd.FamilyOfIri | anno4j-core/src/main/java/com/github/anno4j/rdfs_parser/validation/XSDValueSpaceValidator.java:126-160 | Models FamilyOf. The switch's exact-match lookup names family f exactly for f's identifier, in both directions. |
| Xsd.IriInjective | anno4j-core/src/main/java/com/github/anno4j/rdfs_parser/validation/XSDValueSpaceValidator.java:23-25 | Distinct datatypes have distinct identifiers, so no switch case shadows another. |
| Xsd.FamilyOfOutsideNamespace | anno4j-core/src/main/java/com/github/anno4j/rdfs_parser/validation/XSDValueSpaceValidator.java:124 | An identifier outside the XML Schema namespace names no constrained datatype. |
| JavaString.IndexOf | anno4j-core/src/main/java/com/github/anno4j/rdfs_parser/validation/XSDValueSpaceValidator.java:33-34 | indexOf returns the first index where the substring occurs, and -1 exactly when it occurs nowhere. |
| JavaString.IndexOfCharIffContains | anno4j-core/src/main/java/com/github/anno4j/rdfs_parser/validation/XSDValueSpaceValidator.java:33-34 | A one-character indexOf is not -1 exactly when the character is in the string. |
| JavaString.NatToStringRoundTrip | anno4j-core/src/main/java/com/github/anno4j/rdfs_parser/validation/XSDValueSpaceValidator.java:94-96 | The decimal text that max.toString() puts into the maximum message reads back as max. |
| LanguageTag.IsLanguageTagIffMatches | anno4j-core/src/main/java/com/github/anno4j/rdfs_parser/validation/XSDValueSpaceValidator.java:58 | The recogniser accepts exactly the strings that the whole pattern `[a-zA-Z]{1,8}(-[a-zA-Z0-9]{1,8})*` matches, in both directions. |
| LanguageTag.IsGroupsSound | anno4j-core/src/main/java/com/github/anno4j/rdfs_parser/validation/XSDValueSpaceValidator.java:58 | Every suffix the group recogniser accepts is in the language of `(-[a-zA-Z0-9]{1,8})*`. |
| LanguageTag.IsGroupsComplete | anno4j-core/src/main/java/com/github/anno4j/rdfs_parser/validation/XSDValueSpaceValidator.java:58 | Every string in the language of `(-[a-zA-Z0-9]{1,8})*` is accepted by the group recogniser. |
| LanguageTag.RejectsLongFirstSubtag | anno4j-core/src/main/java/com/github/anno4j/rdfs_parser/validation/XSDValueSpaceValidator.java:58 | A string that starts with nine letters is never a language tag. |
| Checks.Run | anno4j-core/src/main/java/com/github/anno4j/rdfs_parser/validation/XSDValueSpaceValidator.java:32-120 | Running the guards yields None exactly when no guard fires. Otherwise it yields the message of a guard that fires, with no earlier guard firing. |
| Checks.RunAppend | anno4j-core/src/main/java/com/github/anno4j/rdfs_parser/validation/XSDValueSpaceValidator.java:40-55 | Guards appended later decide only when every earlier guard passes, so a reused helper's guards take precedence. |
| Checks.RunRepeatedCheck | anno4j-core/src/main/java/com/github/anno4j/rdfs_parser/validation/XSDValueSpaceValidator.java:92-113 | Emitting the same guard twice in a row has the effect of emitting it once. |
| Validator.AddTokenValidation | anno4j-core/src/main/java/com/github/anno4j/rdfs_parser/validation/XSDValueSpaceValidator.java:40-55 | The token chain extends the normalizedString chain. |
| Validator.AddFamilyValidation | anno4j-core/src/main/java/com/github/anno4j/rdfs_parser/validation/XSDValueSpaceValidator.java:126-160 | Every family's builder appends at least one guard and keeps the existing ones. |
| Validator.AddValueSpaceCheck | anno4j-core/src/main/java/com/github/anno4j/rdfs_parser/validation/XSDValueSpaceValidator.java:122-162 | addValueSpaceCheck only appends. The chain is left unchanged exactly when the identifier is not one of the eleven declared ones, whether it is outside the namespace or another XSD type. |
| Validator.GetValueSpaceDefinition | anno4j-core/src/main/java/com/github/anno4j/rdfs_parser/validation/XSDValueSpaceValidator.java:164-196 | The description is non-null exactly for the eleven declared identifiers. |
| Validator.LineBreakOrTabCondition | anno4j-core/src/main/java/com/github/anno4j/rdfs_parser/validation/XSDValueSpaceValidator.java:33-34 | The normalizedString guard fires exactly when the string contains CR, LF or TAB. |
| Validator.EdgeSpaceCondition | anno4j-core/src/main/java/com/github/anno4j/rdfs_parser/validation/XSDValueSpaceValidator.java:45 | The startsWith/endsWith guard fires exactly when the first or last character is a space. |
| Validator.DoubleSpaceCondition | anno4j-core/src/main/java/com/github/anno4j/rdfs_parser/validation/XSDValueSpaceValidator.java:50 | The indexOf("  ") guard fires exactly when two adjacent spaces occur. |
| Validator.NormalizedStringRejectsLineBreaks | anno4j-core/src/main/java/com/github/anno4j/rdfs_parser/validation/XSDValueSpaceValidator.java:32-38 | Models AddNormalizedStringValidation. After the existing chain passes, a string is rejected exactly when it has CR, LF or TAB, with the normalized-string message. |
| Validator.TokenChecksInOrder | anno4j-core/src/main/java/com/github/anno4j/rdfs_parser/validation/XSDValueSpaceValidator.java:40-55 | Token checks run in a fixed order: line breaks or tabs first, then a space at either end, then a double space. Each has its own message, and only the first violation is reported. |
| Validator.LanguageMatchesPattern | anno4j-core/src/main/java/com/github/anno4j/rdfs_parser/validation/XSDValueSpaceValidator.java:57-62 | Models AddLanguageValidation. A string is rejected with the BCP 47 message exactly when the whole string does not match the language pattern. |
| Validator.NonPositiveRejectsPositive | anno4j-core/src/main/java/com/github/anno4j/rdfs_parser/validation/XSDValueSpaceValidator.java:64-69 | Models AddNonPositiveValidation. Rejects exactly v > 0, with "Value must be non-positive.". |
| Validator.NegativeRejectsNonNegative | anno4j-core/src/main/java/com/github/anno4j/rdfs_parser/validation/XSDValueSpaceValidator.java:71-76 | Models AddNegativeValidation. Rejects exactly v >= 0, with "Value must be negative.". |
| Validator.NonNegativeRejectsNegative | anno4j-core/src/main/java/com/github/anno4j/rdfs_parser/validation/XSDValueSpaceValidator.java:78-83 | Models AddNonNegativeValidation. Rejects exactly v < 0, with "Value must be non-negative.". |
| Validator.UnsignedRejectsNegative | anno4j-core/src/main/java/com/github/anno4j/rdfs_parser/validation/XSDValueSpaceValidator.java:85-90 | Models AddUnsignedValidation. Rejects exactly v < 0, with "Value must be non-negative" (no period). There is no upper bound. |
| Validator.PositiveRejectsNonPositive | anno4j-core/src/main/java/com/github/anno4j/rdfs_parser/validation/XSDValueSpaceValidator.java:115-120 | Models AddPositiveValidation. Rejects exactly v <= 0, with "Value must be positive". |
| Validator.BoundedUnsignedChecks | anno4j-core/src/main/java/com/github/anno4j/rdfs_parser/validation/XSDValueSpaceValidator.java:92-113 | Models AddMaximumValidation, AddUnsignedIntegerValidation, AddUnsignedShortValidation and AddUnsignedByteValidation. A bounded unsigned chain rejects v < 0 with the unsigned message, then v > max with the maximum message, and accepts 0..max inclusive. |
| Validator.DuplicateUnsignedCheckHarmless | anno4j-core/src/main/java/com/github/anno4j/rdfs_parser/validation/XSDValueSpaceValidator.java:100-113 | The repeated unsigned guard never changes the outcome of a bounded chain. |
| Validator.IntMaximumMessage | anno4j-core/src/main/java/com/github/anno4j/rdfs_parser/validation/XSDValueSpaceValidator.java:100-103 | The unsignedInt maximum message is "Value must be less than 2147483647". |
| Validator.ShortMaximumMessage | anno4j-core/src/main/java/com/github/anno4j/rdfs_parser/validation/XSDValueSpaceValidator.java:105-108 | The unsignedShort maximum message is "Value must be less than 65535". |
| Validator.ByteMaximumMessage | anno4j-core/src/main/java/com/github/anno4j/rdfs_parser/validation/XSDValueSpaceValidator.java:110-113 | The unsignedByte maximum message is "Value must be less than 255". |
| ValidatorProperties.ValueSpaceCheckVerdict | anno4j-core/src/main/java/com/github/anno4j/rdfs_parser/validation/XSDValueSpaceValidator.java:122-162 | For every identifier, value and existing chain: the extended chain reports the existing chain's failure first, and otherwise exactly the identifier's reference verdict. Unconstrained identifiers add nothing. |
| ValidatorProperties.FamilyChainVerdict | anno4j-core/src/main/java/com/github/anno4j/rdfs_parser/validation/XSDValueSpaceValidator.java:126-160 | Each family's builder enforces exactly that family's reference verdict. |
| ValidatorProperties.Completeness | anno4j-core/src/main/java/com/github/anno4j/rdfs_parser/validation/XSDValueSpaceValidator.java:122-201 | On the registry the static initializer builds, isValueSpaceConstrained answers true exactly when addValueSpaceCheck emits a guard, exactly when getValueSpaceDefinition returns a text, and exactly when the identifier names a family. |
| ValidatorProperties.ChainOfFamily | anno4j-core/src/main/java/com/github/anno4j/rdfs_parser/validation/XSDValueSpaceValidator.java:126-160 | A family's identifier selects that family's builder in the switch. |
| ValidatorProperties.DescriptionOfFamily | anno4j-core/src/main/java/com/github/anno4j/rdfs_parser/validation/XSDValueSpaceValidator.java:164-196 | Models Description. A family's identifier is described by that family's fixed text. |
| ValidatorProperties.BoundedChainsRepeatUnsignedGuard | anno4j-core/src/main/java/com/github/anno4j/rdfs_parser/validation/XSDValueSpaceValidator.java:100-113 | unsignedInt, unsignedShort and unsignedByte each append three guards: the unsigned guard twice, then a maximum guard. |
| ValidatorProperties.UnsignedLongHasNoUpperBound | anno4j-core/src/main/java/com/github/anno4j/rdfs_parser/validation/XSDValueSpaceValidator.java:145-147 | unsignedLong passes every non-negative value, however large. |
| ValidatorProperties.LanguageDescriptionEndsWithPattern | anno4j-core/src/main/java/com/github/anno4j/rdfs_parser/validation/XSDValueSpaceValidator.java:174-176 | The language description ends with "pattern" directly followed by the regex text, with no space. |
| WorkedCases.UnsignedByteRejectsMinusOne | anno4j-core/src/main/java/com/github/anno4j/rdfs_parser/validation/XSDValueSpaceValidator.java:110-113 | unsignedByte rejects -1 with "Value must be non-negative": the sign is checked before the bound. |
| WorkedCases.UnsignedByteRejects256 | anno4j-core/src/main/java/com/github/anno4j/rdfs_parser/validation/XSDValueSpaceValidator.java:110-113 | unsignedByte rejects 256 with "Value must be less than 255". |
| WorkedCases.UnsignedByteAccepts255 | anno4j-core/src/main/java/com/github/anno4j/rdfs_parser/validation/XSDValueSpaceValidator.java:110-113 | unsignedByte accepts 255: the bound is inclusive. |
| WorkedCases.UnsignedShortRejects65536 | anno4j-core/src/main/java/com/github/anno4j/rdfs_parser/validation/XSDValueSpaceValidator.java:105-108 | unsignedShort rejects 65536 with "Value must be less than 65535". |
| WorkedCases.PositiveRejectsZero | anno4j-core/src/main/java/com/github/anno4j/rdfs_parser/validation/XSDValueSpaceValidator.java:115-120 | positiveInteger rejects 0 with "Value must be positive". |
| WorkedCases.UnsignedIntRejectsDescribedMaximum | anno4j-core/src/main/java/com/github/anno4j/rdfs_parser/validation/XSDValueSpaceValidator.java:100-103 | unsignedInt rejects 4294967295, the maximum its description gives, with "Value must be less than 2147483647". |
| WorkedCases.UnsignedIntAcceptsCheckedMaximum | anno4j-core/src/main/java/com/github/anno4j/rdfs_parser/validation/XSDValueSpaceValidator.java:100-103 | unsignedInt accepts 2147483647. |
| WorkedCases.NonNegativeMessageHasPeriod | anno4j-core/src/main/java/com/github/anno4j/rdfs_parser/validation/XSDValueSpaceValidator.java:78-83 | nonNegativeInteger rejects -1 with "Value must be non-negative.", which ends with a period. |
| WorkedCases.UnsignedLongMessageHasNoPeriod | anno4j-core/src/main/java/com/github/anno4j/rdfs_parser/validation/XSDValueSpaceValidator.java:85-90 | unsignedLong rejects -1 with "Value must be non-negative", which has no period. |
| WorkedCases.TokenReportsTabBeforeLeadingSpace | anno4j-core/src/main/java/com/github/anno4j/rdfs_parser/validation/XSDValueSpaceValidator.java:40-55 | A token with both a leading space and a tab fails with the normalized-string message. |
| WorkedCases.TokenRejectsLeadingSpace | anno4j-core/src/main/java/com/github/anno4j/rdfs_parser/validation/XSDValueSpaceValidator.java:44-48 | " ab" fails with the start-or-end message. |
| WorkedCases.TokenRejectsDoubleSpace | anno4j-core/src/main/java/com/github/anno4j/rdfs_parser/validation/XSDValueSpaceValidator.java:49-54 | "a  b" fails with the two-or-more-whitespaces message. |
| WorkedCases.TokenAcceptsSingleSpaces | anno4j-core/src/main/java/com/github/anno4j/rdfs_parser/validation/XSDValueSpaceValidator.java:40-55 | "a b" passes all three token guards. |
| WorkedCases.LanguageAcceptsRegionSubtag | anno4j-core/src/main/java/com/github/anno4j/rdfs_parser/validation/XSDValueSpaceValidator.java:57-62 | "en-US" is accepted. |
| WorkedCases.LanguageAcceptsDigitSubtag | anno4j-core/src/main/java/com/github/anno4j/rdfs_parser/validation/XSDValueSpaceValidator.java:57-62 | "de-1996" is accepted: later subtags may contain digits. |
| WorkedCases.LanguageRejectsTrailingHyphen | anno4j-core/src/main/java/com/github/anno4j/rdfs_parser/validation/XSDValueSpaceValidator.java:57-62 | "en-" is rejected: matching covers the whole string. |

## Left out

- JavaPoet source emission is not modelled. That covers the format strings
  (`$N`, `$S`, `$T`), `MethodSpec.Builder`, `ParameterSpec` and `ClassName`.
  A builder is a chain of abstract guards, and running the chain in order
  stands in for running the generated code.
- `RDFSClazz` is reduced to its identifier string. A null identifier, which
  makes the Java code throw a NullPointerException, is not modelled.
- A null parameter value is not modelled. Every emitted guard dereferences
  the parameter (`indexOf`, `startsWith`, `matches`, or unboxing for the
  numeric comparisons), so the generated code would throw a
  NullPointerException before any guard's message; `Checks.Value` has no
  null.
- The `XSD` constants class is not part of this model. Each constant is
  modelled as the namespace `http://www.w3.org/2001/XMLSchema#` followed by
  the datatype's local name.
- The Java type of the generated parameter (int, long, BigInteger) is not
  known here. Values are unbounded integers, so no overflow or wrap-around
  of the parameter is modelled. This matters most for unsignedLong, whose
  only guard is the sign.
- A textual guard applied to a number, or a numeric guard applied to a
  string, is modelled as never firing. The validator chooses its guards from
  the datatype alone and does not look at the parameter's Java type; pairing
  a datatype with a Java type that fits it is left to the caller, and Java
  emitted for a mismatched pairing would not compile.
- Java's general regex engine is not modelled. A dedicated recogniser for the
  single language pattern is proved equal to that pattern's language.
- Java strings are UTF-16 code units, while Dafny characters are Unicode
  scalar values. `compareTo` and `indexOf` agree on the ASCII identifiers and
  on every string without supplementary characters.
- Registry.Sort: `Arrays.sort` (TimSort) is replaced by an insertion sort.
  Both produce a sorted permutation, which is all the lookup relies on. That
  the two produce the same array is not proved.
- Registry.IsValueSpaceConstrained: requires the registry the static
  initializer builds (`Registry.StaticInit`), rather than reading a global
  array.
- The `Validator` interface the class implements, and its other
  implementations, are not part of this model.
- The HTTP controller test (WAPControllerTest), RecommendationService and
  SimilarityAlgorithm are left out. The first is I/O against an RDF store.
  The other two are repository-backed similarity jobs with floating-point
  scores.
