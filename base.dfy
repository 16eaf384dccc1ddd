/** Small shared vocabulary: optional values, bytes and a few helpers. */
module Base {

  /** A JavaScript value that may be `null` or `undefined`. */
  datatype Option<+T> = None | Some(value: T)

  /** One element of a `Uint8Array`. */
  type byte = b: int | 0 <= b < 256

  function Min(a: int, b: int): int
  {
    if a <= b then a else b
  }

  /** A fresh `Uint8Array` of length `n` (all elements zero). */
  function Zeros(n: nat): seq<byte>
  {
    seq(n, _ => 0 as byte)
  }

  /** `String.prototype.startsWith`. */
  predicate StartsWith(s: string, prefix: string)
  {
    |prefix| <= |s| && s[..|prefix|] == prefix
  }
}
