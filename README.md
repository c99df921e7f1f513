# UBSan type-identity check

This project models the one piece of logic in the UBSan runtime support:
`cppCheckTypeInfoEquality`. UB checks such as vtable-pointer validation call
it to decide whether two `std::type_info` descriptors denote the same type.
On platforms that load a separate copy of a type's descriptor into each
module, comparing descriptor pointers misses matches, so the runtime falls
back to comparing the descriptors' names. A name that starts with `'*'`
belongs to a type with internal linkage (section 2.9 of the Itanium C++ ABI).
Such a name is never compared. The name comparison is the C library's
`strcmp`, and the whole path is gated by the build flag
`SANITIZER_NON_UNIQUE_TYPEINFO`, which the runtime fixes to 1.

The model has two modules:

- `CString` (`cstring.dfy`) models a C string as a character buffer holding
  a NUL. `CStr` is the string before the first NUL. `Strcmp` is `strcmp` on
  two buffers. `Compare` is an independent lexicographic reference on
  strings. `Strcmp`'s contract states that it is `Compare` on the held
  strings. The lemmas prove that it is zero exactly for equal strings, and
  that swapping its arguments negates it.
- `TypeHash` (`type_hash.dfy`) holds the descriptor `TypeInfo`, whose `name`
  field is the buffer that `name()` returns. The flag is a parameter of
  `CheckTypeInfoEquality`, so both settings are verified.
  `CppCheckTypeInfoEquality` is the exported function with the shipped
  setting `NonUniqueTypeInfo == true`.

The function's name says it answers `true` when the two descriptors denote
the same type, and so does the compiler-rt function it is taken from,
`checkTypeInfoEquality`, which returns `!internal_strcmp(...)`: `true` when
the names are equal. This code returns `strcmp(...) != 0`, so it answers
`true` when the names differ. The model follows the code.
`IntendedCheckTypeInfoEquality` is the corrected check (see Findings).

## Model

| member | source | states |
|---|---|---|
| CString.CStr | src/rt/ubsan/ubsan_type_hash.cpp:21 | the string `strcmp` reads from a name buffer is a NUL-free prefix of it, immediately followed by the terminating NUL |
| CString.Strcmp | src/rt/ubsan/ubsan_type_hash.cpp:21 | `strcmp` on two NUL-terminated buffers equals the lexicographic comparison (`Compare`) of the C strings they hold |
| CString.CompareZeroIff | src/rt/ubsan/ubsan_type_hash.cpp:21 | on NUL-free strings the lexicographic comparison is zero if and only if the strings are equal |
| CString.CompareAntisymmetric | src/rt/ubsan/ubsan_type_hash.cpp:21 | swapping the two strings negates the comparison |
| CString.StrcmpZeroIff | src/rt/ubsan/ubsan_type_hash.cpp:21 | `strcmp(a, b) == 0` if and only if the two buffers hold the same C string; bytes after the first NUL do not matter |
| CString.StrcmpAntisymmetric | src/rt/ubsan/ubsan_type_hash.cpp:21 | `strcmp(a, b) == -strcmp(b, a)`, so `strcmp(a, b) != 0` exactly when `strcmp(b, a) != 0` |
| TypeHash.FirstChar | src/rt/ubsan/ubsan_type_hash.cpp:19-20 | `name()[0]` is NUL exactly when the name is empty, and otherwise is the name's first character |
| TypeHash.IsInternal | src/rt/ubsan/ubsan_type_hash.cpp:19-20 | the `name()[0] == '*'` test holds exactly when the name is non-empty and its first character is the internal-linkage marker `'*'` |
| TypeHash.CheckTypeInfoEquality | src/rt/ubsan/ubsan_type_hash.cpp:15-22 | the result is `false` when the flag is off or when either name starts with `'*'`; with the flag on and neither name marked, it is `true` exactly when the two names differ |
| TypeHash.CppCheckTypeInfoEquality | src/rt/ubsan/ubsan_type_hash.cpp:13-22 | with the shipped flag, the result is `true` exactly when neither name starts with `'*'` and the names differ |
| TypeHash.SameNameNeverEqual | src/rt/ubsan/ubsan_type_hash.cpp:21 | two descriptors with the same name string are never reported equal, for either flag setting |
| TypeHash.NeverEqualToItself | src/rt/ubsan/ubsan_type_hash.cpp:21 | passing the same descriptor twice always yields `false` |
| TypeHash.CheckSymmetric | src/rt/ubsan/ubsan_type_hash.cpp:19-21 | swapping the two descriptors never changes the result |
| TypeHash.OnlyNameStringMatters | src/rt/ubsan/ubsan_type_hash.cpp:19-21 | two name buffers that hold the same C string give the same result against any other descriptor |
| TypeHash.EmptyNameNotInternal | src/rt/ubsan/ubsan_type_hash.cpp:19-21 | an empty name is never taken as internal; against it, the result is `true` exactly when the flag is on and the other name is unmarked and non-empty |
| TypeHash.IntendedCheckTypeInfoEquality | src/rt/ubsan/ubsan_type_hash.cpp:19-21 | corrected check: `true` exactly when the flag is on, neither name is marked and the names are equal |
| TypeHash.AsWrittenNegatesIntended | src/rt/ubsan/ubsan_type_hash.cpp:19-21 | on the name-comparing path, the code as written is the negation of the corrected check; off that path, both are `false` |
| TypeHash.IntendedIsEquivalence | src/rt/ubsan/ubsan_type_hash.cpp:19-21 | the corrected check is reflexive on unmarked descriptors with the flag on, symmetric, and transitive |
| TypeHash.ShippedScenarios | src/rt/ubsan/ubsan_type_hash.cpp:13-22 | with the shipped flag, `"3Foo"` vs `"3Foo"` gives `false` as written and `true` as intended; `"3Foo"` vs `"3Bar"` gives `true` as written and `false` as intended; `"*anon1"` twice gives `false` either way; the corrected check with the flag off gives `false` |

## Left out

- The `static_cast` from `void *` to `std::type_info const *` (src/rt/ubsan/ubsan_type_hash.cpp:17-18) is not modelled. A descriptor is the value `TypeInfo`. Null or dangling pointers are the caller's responsibility, and the `Valid` requirement (the name is NUL-terminated) stands in for a live descriptor.
- The commented-out Mac/iOS detection of the flag (src/rt/ubsan/ubsan_type_hash.cpp:6-10) is dead text. The flag is a parameter instead, and the shipped value is the constant `NonUniqueTypeInfo`.
- CString.Strcmp returns the difference of the first pair of characters that differ. The C standard fixes only the sign of `strcmp`'s result, and the model relies only on whether the result is zero and on its sign.
- Characters are Dafny `char` values compared by code point, so the model also admits characters above 255, which no C byte holds. Every lemma holds for all characters, and so in particular for the byte values 0..255 that `strcmp` compares as `unsigned char`.
- The test fixtures in src/testing/ are not modelled. They deliberately trigger undefined behaviour, including float-to-int casts, so they have no defined semantics to verify. Their headers hold only prototypes.

## Findings

| source | as written | input that shows it | evidently intended | confidence | as-written member | corrected member |
|---|---|---|---|---|---|---|
| src/rt/ubsan/ubsan_type_hash.cpp:21 | `strcmp(name1, name2) != 0`: answers `true` when the names differ | two descriptors both named `"3Foo"` with the flag on: the result is `false`, and `"3Foo"` vs `"3Bar"` gives `true` | `strcmp(...) == 0`, as in compiler-rt's `checkTypeInfoEquality`: `true` when the names are equal | high (not executed) | TypeHash.ShippedScenarios | TypeHash.IntendedCheckTypeInfoEquality |
