/**
  The XML Schema datatype identifiers the validator knows about. An
  identifier is the namespace followed by the datatype's local name, as in
  section 3.4 of W3C XML Schema Definition Language 1.1 Part 2: Datatypes.
 */
module Xsd {
  import opened Wrappers
  import JavaString

  /** The XML Schema namespace every constrained identifier starts with. */
  const NS: string := "http://www.w3.org/2001/XMLSchema#"

  /** The eleven built-in datatypes whose value space is narrower than the
      lexical space of the Java type that carries them. */
  datatype Family =
    | NormalizedString
    | Token
    | Language
    | NonPositiveInteger
    | NegativeInteger
    | NonNegativeInteger
    | UnsignedLong
    | UnsignedInt
    | UnsignedShort
    | UnsignedByte
    | PositiveInteger

  function LocalName(f: Family): string
  {
    match f
    case NormalizedString => "normalizedString"
    case Token => "token"
    case Language => "language"
    case NonPositiveInteger => "nonPositiveInteger"
    case NegativeInteger => "negativeInteger"
    case NonNegativeInteger => "nonNegativeInteger"
    case UnsignedLong => "unsignedLong"
    case UnsignedInt => "unsignedInt"
    case UnsignedShort => "unsignedShort"
    case UnsignedByte => "unsignedByte"
    case PositiveInteger => "positiveInteger"
  }

  /** The full identifier of a family, e.g. NS + "token". */
  function Iri(f: Family): (id: string)
    ensures JavaString.StartsWith(id, NS)
  {
    NS + LocalName(f)
  }

  /** Distinct families have distinct identifiers. */
  lemma IriInjective(f: Family, g: Family)
    ensures Iri(f) == Iri(g) ==> f == g
  {
    if Iri(f) == Iri(g) {
      assert LocalName(f) == Iri(f)[|NS|..];
      assert LocalName(g) == Iri(g)[|NS|..];
      LocalNameInjective(f, g);
    }
  }

  lemma LocalNameInjective(f: Family, g: Family)
    requires LocalName(f) == LocalName(g)
    ensures f == g
  {
    var a, b := LocalName(f), LocalName(g);
    if |a| >= 9 {
      assert a[0] == b[0] && a[3] == b[3] && a[8] == b[8];
    } else {
      assert a[0] == b[0];
    }
  }

  /** Which family an identifier names, by exact string equality (the
      cases of the Java switch statements). */
  function FamilyOf(id: string): (r: Option<Family>)
    ensures r.Some? ==> Iri(r.value) == id
  {
    if id == Iri(NormalizedString) then Some(NormalizedString)
    else if id == Iri(Token) then Some(Token)
    else if id == Iri(Language) then Some(Language)
    else if id == Iri(NonPositiveInteger) then Some(NonPositiveInteger)
    else if id == Iri(NegativeInteger) then Some(NegativeInteger)
    else if id == Iri(NonNegativeInteger) then Some(NonNegativeInteger)
    else if id == Iri(UnsignedLong) then Some(UnsignedLong)
    else if id == Iri(UnsignedInt) then Some(UnsignedInt)
    else if id == Iri(UnsignedShort) then Some(UnsignedShort)
    else if id == Iri(UnsignedByte) then Some(UnsignedByte)
    else if id == Iri(PositiveInteger) then Some(PositiveInteger)
    else None
  }

  /** FamilyOf is the inverse of Iri: an identifier names family f exactly
      when it is f's identifier. */
  lemma FamilyOfIri(id: string, f: Family)
    ensures FamilyOf(id) == Some(f) <==> id == Iri(f)
  {
    if id == Iri(f) {
      match FamilyOf(id)
      case Some(g) => IriInjective(f, g);
      case None =>
        match f
        case NormalizedString =>
        case Token =>
        case Language =>
        case NonPositiveInteger =>
        case NegativeInteger =>
        case NonNegativeInteger =>
        case UnsignedLong =>
        case UnsignedInt =>
        case UnsignedShort =>
        case UnsignedByte =>
        case PositiveInteger =>
    }
  }

  /** An identifier outside the namespace names no family. */
  lemma FamilyOfOutsideNamespace(id: string)
    requires !JavaString.StartsWith(id, NS)
    ensures FamilyOf(id).None?
  {
  }
}
