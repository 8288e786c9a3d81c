/**
 * The conversion `[]byte(s)` that the chaincode applies to every value before
 * it is stored. The model uses a fixed-width encoding: each character becomes
 * the three bytes of its code point, most significant first. All the
 * chaincode relies on is that the conversion is a function of the string and
 * loses nothing, which `FromToBytes` and `ToBytesInjective` state.
 */
module Encoding {
  import opened Wrappers

  newtype byte = x: int | 0 <= x < 256

  type Bytes = seq<byte>

  /** Code points that Dafny's `char` can hold (Unicode scalar values). */
  predicate IsScalar(n: int) {
    0 <= n < 0xD800 || 0xE000 <= n < 0x11_0000
  }

  /** The three bytes of one character. */
  function CharBytes(c: char): (b: Bytes)
    ensures |b| == 3
    ensures b[0] as int * 0x1_0000 + b[1] as int * 0x100 + b[2] as int == c as int
  {
    var n := c as int;
    [(n / 0x1_0000) as byte, (n / 0x100 % 0x100) as byte, (n % 0x100) as byte]
  }

  /** `[]byte(s)`. */
  function ToBytes(s: string): (b: Bytes)
    ensures |b| == 3 * |s|
  {
    if s == [] then [] else CharBytes(s[0]) + ToBytes(s[1..])
  }

  /** The inverse of `ToBytes`; `None` for byte sequences no string encodes to. */
  function FromBytes(b: Bytes): (s: Option<string>)
    ensures s.Some? ==> |b| == 3 * |s.value|
    decreases |b|
  {
    if |b| == 0 then Some([])
    else if |b| < 3 then None
    else
      var n := b[0] as int * 0x1_0000 + b[1] as int * 0x100 + b[2] as int;
      if !IsScalar(n) then None
      else
        match FromBytes(b[3..])
        case None => None
        case Some(rest) => Some([n as char] + rest)
  }

  /** Decoding an encoded string gives the string back. */
  lemma {:induction false} FromToBytes(s: string)
    ensures FromBytes(ToBytes(s)) == Some(s)
  {
    if s != [] {
      var b := ToBytes(s);
      assert b[..3] == CharBytes(s[0]);
      assert b[3..] == ToBytes(s[1..]);
      FromToBytes(s[1..]);
      assert [s[0]] + s[1..] == s;
    }
  }

  /** Distinct strings are stored as distinct byte sequences. */
  lemma ToBytesInjective(s: string, t: string)
    requires ToBytes(s) == ToBytes(t)
    ensures s == t
  {
    FromToBytes(s);
    FromToBytes(t);
  }
}
