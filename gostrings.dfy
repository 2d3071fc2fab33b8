/**
 * Go strings are immutable byte sequences: `len` on a string counts bytes,
 * not characters, and `==` compares bytes.
 */
module GoStrings {

  newtype byte = x: int | 0 <= x < 256

  type GoString = seq<byte>

  /** `s` holds exactly the bytes of the ASCII literal `lit`. */
  predicate Spells(s: GoString, lit: string)
  {
    |s| == |lit| && forall i :: 0 <= i < |s| ==> s[i] as int == lit[i] as int
  }

  /** The GoString that spells an ASCII literal; the only one, as sequences are compared element-wise. */
  function Ascii(s: string): (b: GoString)
    requires forall i :: 0 <= i < |s| ==> s[i] < 128 as char
    ensures Spells(b, s)
    ensures forall b' :: Spells(b', s) ==> b' == b
  {
    seq(|s|, i requires 0 <= i < |s| => s[i] as int as byte)
  }
}
