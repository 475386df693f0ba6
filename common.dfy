/** Types shared by every module of the model: C's optional pointers, the
    unsigned 32-bit integers the WICED API uses, and WICED result codes. */
module Common {

  /** A C pointer that may be NULL. */
  datatype Option<+T> = None | Some(value: T)

  const UINT32_LIMIT: int := 0x1_0000_0000
  const UINT16_LIMIT: int := 0x1_0000

  /** C's uint32_t. */
  type uint32 = x: int | 0 <= x < UINT32_LIMIT

  /** The terminator of a C string. */
  const NUL: char := 0 as char

  /** The wiced_result_t codes that the core produces or inspects. */
  datatype WicedResult = Success | Error | BadArg | OutOfHeapSpace | Timeout

  /** A C string: the characters before the first NUL (strlen, strcmp and %s see only these). */
  function CString(s: seq<char>): (r: seq<char>)
    ensures |r| <= |s| && r == s[..|r|]
    ensures NUL !in r
    ensures |r| < |s| ==> s[|r|] == NUL
  {
    if s == [] || s[0] == NUL then [] else [s[0]] + CString(s[1..])
  }

  /** A string that holds no NUL is left whole by CString, and a terminator ends it. */
  lemma {:induction false} CStringOfTerminated(s: seq<char>, rest: seq<char>)
    requires NUL !in s
    ensures CString(s + [NUL] + rest) == s
  {
    if s != [] {
      assert (s + [NUL] + rest)[1..] == s[1..] + [NUL] + rest;
      CStringOfTerminated(s[1..], rest);
    }
  }

  /** Regrouping a concatenation, stated once so that long traces need not be re-associated by the solver. */
  lemma ConcatAssoc<T>(a: seq<T>, b: seq<T>, c: seq<T>)
    ensures a + (b + c) == (a + b) + c
  {
  }
}
