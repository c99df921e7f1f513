/** C strings as the type-identity check sees them: a character buffer that
    holds a NUL somewhere, of which only the characters before the first NUL
    form the string. `Strcmp` models the C library's `strcmp` on such buffers;
    `Compare` is an independent, lexicographic reference definition on the
    strings themselves, `Strcmp`'s contract and the lemmas below tie the two together. */
module CString {

  /** The terminating character of a C string. */
  const NUL: char := '\0'

  /** A buffer that `strcmp` may read: it reaches a NUL before it ends. */
  predicate Terminated(buf: seq<char>) {
    NUL in buf
  }

  /** A string as C sees it: no character of it is NUL. */
  predicate NulFree(s: seq<char>) {
    NUL !in s
  }

  /** Past a first character that is not NUL, the rest of a terminated
      buffer is still terminated. */
  lemma TailTerminated(buf: seq<char>)
    requires Terminated(buf) && buf[0] != NUL
    ensures |buf| > 1 && Terminated(buf[1..])
  {
    var k :| 0 <= k < |buf| && buf[k] == NUL;
    assert buf[1..][k - 1] == NUL;
  }

  /** The string a terminated buffer holds: everything before its first NUL. */
  function CStr(buf: seq<char>): (s: seq<char>)
    requires Terminated(buf)
    ensures |s| < |buf| && s == buf[..|s|] && buf[|s|] == NUL
    ensures NulFree(s)
    decreases |buf|
  {
    if buf[0] == NUL then []
    else
      TailTerminated(buf);
      [buf[0]] + CStr(buf[1..])
  }

  /** `strcmp`: walks both buffers in step and stops at the first position
      where they differ or where both hold the terminating NUL. Characters
      are compared as unsigned values; the result is the difference of the
      first pair that differs (C fixes only its sign). Its result is the
      lexicographic comparison of the two strings the buffers hold. */
  function Strcmp(a: seq<char>, b: seq<char>): (r: int)
    requires Terminated(a) && Terminated(b)
    ensures r == Compare(CStr(a), CStr(b))
    decreases |a|
  {
    if a[0] != b[0] then a[0] as int - b[0] as int
    else if a[0] == NUL then 0
    else
      TailTerminated(a);
      TailTerminated(b);
      Strcmp(a[1..], b[1..])
  }

  /** Reference definition: lexicographic comparison of two strings, where
      the end of a string compares below every character that may follow. */
  function Compare(s: seq<char>, t: seq<char>): (r: int)
    decreases |s|
  {
    if s == [] && t == [] then 0
    else if s == [] then 0 - t[0] as int
    else if t == [] then s[0] as int
    else if s[0] != t[0] then s[0] as int - t[0] as int
    else Compare(s[1..], t[1..])
  }

  /** On NUL-free strings the comparison is zero exactly for equal strings. */
  lemma {:induction false} CompareZeroIff(s: seq<char>, t: seq<char>)
    requires NulFree(s) && NulFree(t)
    ensures Compare(s, t) == 0 <==> s == t
    decreases |s|
  {
    if s != [] && t != [] && s[0] == t[0] {
      CompareZeroIff(s[1..], t[1..]);
      assert s == [s[0]] + s[1..] && t == [t[0]] + t[1..];
    }
  }

  /** Swapping the arguments negates the comparison. */
  lemma {:induction false} CompareAntisymmetric(s: seq<char>, t: seq<char>)
    ensures Compare(s, t) == -Compare(t, s)
    decreases |s|
  {
    if s != [] && t != [] && s[0] == t[0] {
      CompareAntisymmetric(s[1..], t[1..]);
    }
  }

  /** `strcmp` reports "equal" exactly when the two buffers hold the same
      string; the characters after the first NUL play no part. */
  lemma {:induction false} StrcmpZeroIff(a: seq<char>, b: seq<char>)
    requires Terminated(a) && Terminated(b)
    ensures Strcmp(a, b) == 0 <==> CStr(a) == CStr(b)
  {
    CompareZeroIff(CStr(a), CStr(b));
  }

  /** Swapping the arguments of `strcmp` negates its result, so in particular
      `strcmp(a, b) != 0` exactly when `strcmp(b, a) != 0`. */
  lemma {:induction false} StrcmpAntisymmetric(a: seq<char>, b: seq<char>)
    requires Terminated(a) && Terminated(b)
    ensures Strcmp(a, b) == -Strcmp(b, a)
  {
    CompareAntisymmetric(CStr(a), CStr(b));
  }
}
