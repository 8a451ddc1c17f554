/**
  The registry of constrained datatypes: the identifier array, sorted once
  by String's natural ordering, and the binary search that answers
  membership queries against it.
 */
module Registry {
  import opened JavaString
  import opened Xsd

  /** Ascending in String.compareTo order. */
  ghost predicate Sorted(a: seq<string>)
  {
    forall i, j :: 0 <= i < j < |a| ==> CompareTo(a[i], a[j]) <= 0
  }

  /** Inserts x before the first element it does not exceed. */
  function Insert(x: string, a: seq<string>): (r: seq<string>)
    requires Sorted(a)
    ensures Sorted(r)
    ensures multiset(r) == multiset(a) + multiset{x}
  {
    if a == [] then [x]
    else if CompareTo(x, a[0]) <= 0 then
      InsertFrontSorted(x, a);
      [x] + a
    else
      var rest := Insert(x, a[1..]);
      CompareToAntisymmetric(x, a[0]);
      assert a == [a[0]] + a[1..];
      InsertBehindSorted(a[0], rest, x, a[1..]);
      [a[0]] + rest
  }

  lemma InsertFrontSorted(x: string, a: seq<string>)
    requires Sorted(a) && a != [] && CompareTo(x, a[0]) <= 0
    ensures Sorted([x] + a)
  {
    forall j | 0 < j < |a| + 1
      ensures CompareTo(([x] + a)[0], ([x] + a)[j]) <= 0
    {
      if j > 1 {
        CompareToTransitive(x, a[0], a[j - 1]);
      }
    }
  }

  lemma InsertBehindSorted(y: string, rest: seq<string>, x: string, tail: seq<string>)
    requires Sorted(rest) && Sorted([y] + tail)
    requires CompareTo(y, x) <= 0
    requires multiset(rest) == multiset(tail) + multiset{x}
    ensures Sorted([y] + rest)
  {
    forall j | 0 <= j < |rest|
      ensures CompareTo(y, rest[j]) <= 0
    {
      assert rest[j] in multiset(rest);
      if rest[j] != x {
        assert rest[j] in multiset(tail);
        var k :| 0 <= k < |tail| && tail[k] == rest[j];
        assert ([y] + tail)[0] == y && ([y] + tail)[k + 1] == rest[j];
      }
    }
  }

  /** A sort of the array by String's natural ordering. */
  function Sort(a: seq<string>): (r: seq<string>)
    ensures Sorted(r)
    ensures multiset(r) == multiset(a)
  {
    if a == [] then []
    else
      assert a == [a[0]] + a[1..];
      Insert(a[0], Sort(a[1..]))
  }

  /** The constrained identifiers, in their declaration order. */
  const DeclaredTypes: seq<string> := [
    Iri(NormalizedString), Iri(Token), Iri(Language), Iri(NonPositiveInteger),
    Iri(NegativeInteger), Iri(NonNegativeInteger), Iri(UnsignedLong), Iri(UnsignedInt), Iri(UnsignedShort),
    Iri(UnsignedByte), Iri(PositiveInteger)]

  /** The identifier array as the validator holds it. */
  datatype SortedTypes = SortedTypes(types: seq<string>)

  /** What the static initializer establishes: the declared identifiers,
      sorted. */
  ghost predicate Valid(reg: SortedTypes)
  {
    Sorted(reg.types) && multiset(reg.types) == multiset(DeclaredTypes)
  }

  /** The static initializer: sort the declared array once, before any lookup. */
  function StaticInit(): (reg: SortedTypes)
    ensures Valid(reg)
  {
    SortedTypes(Sort(DeclaredTypes))
  }

  /** Arrays.binarySearch: the index of key, or -(insertion point) - 1 when
      key is absent. */
  method BinarySearch(a: seq<string>, key: string) returns (r: int)
    requires Sorted(a)
    ensures 0 <= r ==> r < |a| && a[r] == key
    ensures r < 0 ==> key !in a
    ensures r < 0 ==> 0 <= -(r + 1) <= |a|
    ensures r < 0 ==> forall i :: 0 <= i < -(r + 1) ==> CompareTo(a[i], key) < 0
    ensures r < 0 ==> forall i :: -(r + 1) <= i < |a| ==> CompareTo(a[i], key) > 0
  {
    var low, high := 0, |a| - 1;
    while low <= high
      invariant 0 <= low <= high + 1 <= |a|
      invariant forall i :: 0 <= i < low ==> CompareTo(a[i], key) < 0
      invariant forall i :: high < i < |a| ==> CompareTo(a[i], key) > 0
    {
      var mid := (low + high) / 2;
      var cmp := CompareTo(a[mid], key);
      if cmp < 0 {
        forall i | 0 <= i <= mid
          ensures CompareTo(a[i], key) < 0
        {
          if i < mid {
            CompareToTransitiveStrictRight(a[i], a[mid], key);
          }
        }
        low := mid + 1;
      } else if cmp > 0 {
        forall i | mid <= i < |a|
          ensures CompareTo(a[i], key) > 0
        {
          if mid < i {
            CompareToAntisymmetric(a[mid], key);
            CompareToTransitiveStrictLeft(key, a[mid], a[i]);
            CompareToAntisymmetric(key, a[i]);
          }
        }
        high := mid - 1;
      } else {
        CompareToZeroIffEqual(a[mid], key);
        return mid;
      }
    }
    forall i | 0 <= i < |a|
      ensures a[i] != key
    {
      CompareToZeroIffEqual(a[i], key);
    }
    r := -(low + 1);
  }

  /** isValueSpaceConstrained: a binary search of the sorted array, true
      exactly for the eleven declared identifiers. */
  method IsValueSpaceConstrained(reg: SortedTypes, id: string) returns (b: bool)
    requires Valid(reg)
    ensures b <==> id in DeclaredTypes
    ensures b <==> FamilyOf(id).Some?
  {
    var r := BinarySearch(reg.types, id);
    b := r >= 0;
    assert id in reg.types <==> id in multiset(reg.types);
    assert id in DeclaredTypes <==> id in multiset(DeclaredTypes);
    DeclaredTypesAreFamilies(id);
  }

  /** The declared array lists exactly the identifiers of the eleven families. */
  lemma DeclaredTypesAreFamilies(id: string)
    ensures id in DeclaredTypes <==> FamilyOf(id).Some?
  {
  }
}
