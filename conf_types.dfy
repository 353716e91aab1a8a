/** Values shared by the configuration loader: hashes, C strings, the token
    kinds the YAML scanner hands to the loader, and what the loader borrows
    from the rest of the compiler (the string hash and the reserved key). */
module ConfTypes {

  /** `hash_t`: a 64-bit unsigned hash. */
  newtype Hash = x: int | 0 <= x < 0x1_0000_0000_0000_0000

  /** A C string has no NUL byte before its terminator. */
  predicate NoNul(s: string) {
    forall i :: 0 <= i < |s| ==> s[i] != '\0'
  }

  /** The text of a NUL-terminated C string, without its terminator. */
  type CString = s: string | NoNul(s)

  /** The C string that starts at the front of a byte buffer: everything
      before its first NUL (`strlen`, `make_str_from_c`). When the buffer has
      a NUL, the result stops right before it. */
  function CStr(s: string): (r: CString)
    ensures r <= s
    ensures |r| < |s| ==> s[|r|] == '\0'
  {
    if s == [] || s[0] == '\0' then [] else [s[0]] + CStr(s[1..])
  }

  /** A buffer whose first NUL is at index `n` holds the C string `s[..n]`. */
  lemma {:induction false} CStrOfTerminated(s: string, n: nat)
    requires n < |s| && s[n] == '\0'
    requires NoNul(s[..n])
    ensures CStr(s) == s[..n]
  {
    if n > 0 {
      assert s[0] != '\0' by { assert s[..n][0] == s[0]; }
      assert s[1..][n - 1] == '\0';
      assert s[1..][..n - 1] == s[..n][1..];
      CStrOfTerminated(s[1..], n - 1);
    }
  }

  /** A C string read back from a buffer holding just it is itself. */
  lemma CStrOfCString(s: CString)
    ensures CStr(s) == s
  {
  }

  datatype Option<T> = None | Some(value: T)

  datatype Result<T, E> = Ok(value: T) | Err(error: E)

  /** The token kinds the loader tells apart. `Scalar` carries the scalar's
      `length` bytes; `Other` is every other kind the scanner can produce,
      with the position of its start mark; `ScanError` stands for a call to
      the scanner that failed. */
  datatype Token =
    | StreamStart
    | Key
    | Value
    | BlockMappingStart
    | BlockEnd
    | Scalar(text: string)
    | StreamEnd
    | Other(line: nat, column: nat)
    | ScanError

  /** The "Unknown token type" warning, with the file and the token's position. */
  datatype Warning = UnknownToken(file: CString, line: nat, column: nat)

  /** What the loader takes from elsewhere: `strhash` (any function, not
      assumed injective) and the name bound to `CONF_FILEPATH`. */
  datatype Deps = Deps(strhash: string -> Hash, confFilepath: CString)
}
