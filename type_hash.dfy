/** The type-identity check that UBSan's runtime consults when two
    `std::type_info` descriptors may be duplicates of one type loaded in
    different modules. A descriptor is reduced to the buffer its `name()`
    accessor points at; the build flag that says whether descriptors may be
    non-unique is a parameter, and the shipped setting is a constant. */
module TypeHash {
  import opened CString

  /** `SANITIZER_NON_UNIQUE_TYPEINFO` as the runtime is built: always on. */
  const NonUniqueTypeInfo: bool := true

  /** Leading character of the RTTI name of a type with internal linkage
      (section 2.9 of the Itanium C++ ABI); such names are not compared. */
  const InternalLinkageMarker: char := '*'

  /** A runtime type descriptor: `name` is the character buffer that the
      descriptor's `name()` accessor returns. */
  datatype TypeInfo = TypeInfo(name: seq<char>)

  /** A live descriptor: its name is a NUL-terminated C string. */
  predicate Valid(t: TypeInfo) {
    Terminated(t.name)
  }

  /** The descriptor's name as a C string. */
  function NameString(t: TypeInfo): (s: seq<char>)
    requires Valid(t)
  {
    CStr(t.name)
  }

  /** `name()[0]`: the terminating NUL for an empty name, otherwise the
      name's first character. */
  function FirstChar(t: TypeInfo): (c: char)
    requires Valid(t)
    ensures c == NUL <==> NameString(t) == []
    ensures NameString(t) != [] ==> c == NameString(t)[0]
  {
    t.name[0]
  }

  /** The name carries the internal-linkage marker: `name()[0] == '*'`,
      which only a non-empty name starting with the marker satisfies. */
  predicate IsInternal(t: TypeInfo)
    requires Valid(t)
    ensures IsInternal(t) <==> NameString(t) != [] && NameString(t)[0] == InternalLinkageMarker
  {
    FirstChar(t) == InternalLinkageMarker
  }

  /** `cppCheckTypeInfoEquality` with the build flag as a parameter, as the
      code is written: with the flag on and no marked name, it answers
      `true` when `strcmp` finds the names DIFFERENT. */
  function CheckTypeInfoEquality(nonUniqueTypeInfo: bool, t1: TypeInfo, t2: TypeInfo): (r: bool)
    requires Valid(t1) && Valid(t2)
    ensures !nonUniqueTypeInfo ==> !r
    ensures IsInternal(t1) ==> !r
    ensures IsInternal(t2) ==> !r
    ensures nonUniqueTypeInfo && !IsInternal(t1) && !IsInternal(t2) ==>
              (r <==> NameString(t1) != NameString(t2))
  {
    StrcmpZeroIff(t1.name, t2.name);
    nonUniqueTypeInfo && t1.name[0] != InternalLinkageMarker &&
    t2.name[0] != InternalLinkageMarker &&
    Strcmp(t1.name, t2.name) != 0
  }

  /** The exported entry point, with the flag at its shipped setting. */
  function CppCheckTypeInfoEquality(t1: TypeInfo, t2: TypeInfo): (r: bool)
    requires Valid(t1) && Valid(t2)
    ensures r <==> !IsInternal(t1) && !IsInternal(t2) && NameString(t1) != NameString(t2)
  {
    CheckTypeInfoEquality(NonUniqueTypeInfo, t1, t2)
  }

  /** Consequence of the inverted test: two descriptors whose names are the
      same string are never reported equal, whatever the flag. */
  lemma SameNameNeverEqual(nonUniqueTypeInfo: bool, t1: TypeInfo, t2: TypeInfo)
    requires Valid(t1) && Valid(t2)
    requires NameString(t1) == NameString(t2)
    ensures !CheckTypeInfoEquality(nonUniqueTypeInfo, t1, t2)
  {
  }

  /** In particular a descriptor is never reported equal to itself. */
  lemma NeverEqualToItself(nonUniqueTypeInfo: bool, t: TypeInfo)
    requires Valid(t)
    ensures !CheckTypeInfoEquality(nonUniqueTypeInfo, t, t)
  {
    SameNameNeverEqual(nonUniqueTypeInfo, t, t);
  }

  /** Swapping the two descriptors never changes the answer: the marker
      tests mirror each other and `strcmp`'s result only changes sign. */
  lemma {:induction false} CheckSymmetric(nonUniqueTypeInfo: bool, t1: TypeInfo, t2: TypeInfo)
    requires Valid(t1) && Valid(t2)
    ensures CheckTypeInfoEquality(nonUniqueTypeInfo, t1, t2) == CheckTypeInfoEquality(nonUniqueTypeInfo, t2, t1)
  {
    StrcmpAntisymmetric(t1.name, t2.name);
  }

  /** Only the characters up to the first NUL take part: two buffers that
      hold the same C string give the same answer against any descriptor. */
  lemma OnlyNameStringMatters(nonUniqueTypeInfo: bool, t1: TypeInfo, u1: TypeInfo, t2: TypeInfo)
    requires Valid(t1) && Valid(u1) && Valid(t2)
    requires NameString(t1) == NameString(u1)
    ensures CheckTypeInfoEquality(nonUniqueTypeInfo, t1, t2) == CheckTypeInfoEquality(nonUniqueTypeInfo, u1, t2)
  {
  }

  /** An empty name starts with the terminating NUL, so it is never taken
      for a marked name; two empty names are the same string. */
  lemma EmptyNameNotInternal(nonUniqueTypeInfo: bool, t1: TypeInfo, t2: TypeInfo)
    requires Valid(t1) && Valid(t2)
    requires NameString(t1) == []
    ensures !IsInternal(t1)
    ensures CheckTypeInfoEquality(nonUniqueTypeInfo, t1, t2) <==>
              nonUniqueTypeInfo && !IsInternal(t2) && NameString(t2) != []
  {
  }

  /** The check as its callers need it: `true` exactly when the flag is on,
      neither name is marked, and `strcmp` finds the names equal. */
  function IntendedCheckTypeInfoEquality(nonUniqueTypeInfo: bool, t1: TypeInfo, t2: TypeInfo): (r: bool)
    requires Valid(t1) && Valid(t2)
    ensures r <==> nonUniqueTypeInfo && !IsInternal(t1) && !IsInternal(t2) &&
                   NameString(t1) == NameString(t2)
  {
    StrcmpZeroIff(t1.name, t2.name);
    nonUniqueTypeInfo && t1.name[0] != InternalLinkageMarker &&
    t2.name[0] != InternalLinkageMarker &&
    Strcmp(t1.name, t2.name) == 0
  }

  /** On the path where names are compared, the code as written answers the
      exact opposite of the intended check; off that path both say `false`. */
  lemma AsWrittenNegatesIntended(nonUniqueTypeInfo: bool, t1: TypeInfo, t2: TypeInfo)
    requires Valid(t1) && Valid(t2)
    ensures nonUniqueTypeInfo && !IsInternal(t1) && !IsInternal(t2) ==>
              CheckTypeInfoEquality(nonUniqueTypeInfo, t1, t2) == !IntendedCheckTypeInfoEquality(nonUniqueTypeInfo, t1, t2)
    ensures !(nonUniqueTypeInfo && !IsInternal(t1) && !IsInternal(t2)) ==>
              !CheckTypeInfoEquality(nonUniqueTypeInfo, t1, t2) && !IntendedCheckTypeInfoEquality(nonUniqueTypeInfo, t1, t2)
  {
  }

  /** The intended check is an equivalence on unmarked descriptors when the
      flag is on: reflexive, symmetric and transitive. */
  lemma IntendedIsEquivalence(nonUniqueTypeInfo: bool, t1: TypeInfo, t2: TypeInfo, t3: TypeInfo)
    requires Valid(t1) && Valid(t2) && Valid(t3)
    ensures nonUniqueTypeInfo && !IsInternal(t1) ==> IntendedCheckTypeInfoEquality(nonUniqueTypeInfo, t1, t1)
    ensures IntendedCheckTypeInfoEquality(nonUniqueTypeInfo, t1, t2) == IntendedCheckTypeInfoEquality(nonUniqueTypeInfo, t2, t1)
    ensures IntendedCheckTypeInfoEquality(nonUniqueTypeInfo, t1, t2) && IntendedCheckTypeInfoEquality(nonUniqueTypeInfo, t2, t3) ==>
              IntendedCheckTypeInfoEquality(nonUniqueTypeInfo, t1, t3)
  {
  }

  /** Concrete descriptors with the shipped flag. Named "3Foo" on both sides,
      the code as written answers `false` where the intended check answers
      `true`; for "3Foo" against "3Bar" the two answers swap; a marked name
      and a switched-off flag give `false`. */
  lemma ShippedScenarios()
    ensures !CppCheckTypeInfoEquality(TypeInfo("3Foo\0"), TypeInfo("3Foo\0"))
    ensures IntendedCheckTypeInfoEquality(NonUniqueTypeInfo, TypeInfo("3Foo\0"), TypeInfo("3Foo\0"))
    ensures !IntendedCheckTypeInfoEquality(NonUniqueTypeInfo, TypeInfo("3Foo\0"), TypeInfo("3Bar\0"))
    ensures CppCheckTypeInfoEquality(TypeInfo("3Foo\0"), TypeInfo("3Bar\0"))
    ensures !CppCheckTypeInfoEquality(TypeInfo("*anon1\0"), TypeInfo("*anon1\0"))
    ensures !IntendedCheckTypeInfoEquality(NonUniqueTypeInfo, TypeInfo("*anon1\0"), TypeInfo("*anon1\0"))
    ensures !IntendedCheckTypeInfoEquality(false, TypeInfo("3Foo\0"), TypeInfo("3Foo\0"))
  {
  }
}
