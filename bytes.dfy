/**
 * Byte strings, ASCII text and Python's `int.to_bytes(length, "big")`.
 */
module Bytes {
  import opened Results

  type byte = x: int | 0 <= x < 256

  /** 2^32: the first value that does not fit a 4-byte field. */
  const Two32: nat := 0x1_0000_0000

  /** 256^n: the number of values an n-byte unsigned field can hold. */
  function Pow256(n: nat): (p: nat)
    ensures p >= 1
  {
    if n == 0 then 1 else 256 * Pow256(n - 1)
  }

  lemma Pow256Four()
    ensures Pow256(4) == Two32
    ensures Pow256(1) == 256
  {
  }

  /** The unsigned big-endian value of a byte string. */
  function FromBytesBE(b: seq<byte>): (n: nat)
    ensures n < Pow256(|b|)
  {
    if b == [] then 0 else FromBytesBE(b[..|b| - 1]) * 256 + b[|b| - 1]
  }

  /** The `length`-byte big-endian representation of `n`, which must fit. */
  function ToBytesBE(n: nat, length: nat): (b: seq<byte>)
    requires n < Pow256(length)
    ensures |b| == length
  {
    if length == 0 then [] else ToBytesBE(n / 256, length - 1) + [n % 256]
  }

  /**
   * `n.to_bytes(length, "big")`: None stands for the OverflowError Python
   * raises when `n` needs more than `length` bytes.
   */
  function IntToBytes(n: nat, length: nat): (r: Option<seq<byte>>)
    ensures r.Some? <==> n < Pow256(length)
    ensures r.Some? ==> |r.value| == length && FromBytesBE(r.value) == n
  {
    if n < Pow256(length) then
      ToBytesBEDecodes(n, length);
      Some(ToBytesBE(n, length))
    else None
  }

  /** Decoding an encoded value gives the value back. */
  lemma {:induction false} ToBytesBEDecodes(n: nat, length: nat)
    requires n < Pow256(length)
    ensures FromBytesBE(ToBytesBE(n, length)) == n
  {
    if length > 0 {
      var hi := ToBytesBE(n / 256, length - 1);
      ToBytesBEDecodes(n / 256, length - 1);
      assert (hi + [n % 256])[..length - 1] == hi;
    }
  }

  /** Encoding a decoded byte string at its own width gives the bytes back. */
  lemma {:induction false} FromBytesBEEncodes(b: seq<byte>)
    ensures ToBytesBE(FromBytesBE(b), |b|) == b
  {
    if b != [] {
      var init := b[..|b| - 1];
      var v := FromBytesBE(b);
      assert v / 256 == FromBytesBE(init) && v % 256 == b[|b| - 1];
      FromBytesBEEncodes(init);
      assert b == init + [b[|b| - 1]];
    }
  }

  /** Four-byte big-endian fields round-trip for every value below 2^32. */
  lemma {:induction false} U32RoundTrip(n: nat, b: seq<byte>)
    requires n < Two32 && |b| == 4
    ensures |ToBytesBE(n, 4)| == 4 && FromBytesBE(ToBytesBE(n, 4)) == n
    ensures FromBytesBE(b) < Two32 && ToBytesBE(FromBytesBE(b), 4) == b
  {
    Pow256Four();
    ToBytesBEDecodes(n, 4);
    FromBytesBEEncodes(b);
  }

  predicate IsAscii(s: string) {
    forall i :: 0 <= i < |s| ==> s[i] as int < 128
  }

  /** Text whose UTF-8 encoding has one byte per character. */
  type AsciiString = s: string | IsAscii(s)

  /** `s.encode()` (UTF-8) of an ASCII string. */
  function EncodeAscii(s: AsciiString): (b: seq<byte>)
    ensures |b| == |s|
    ensures forall i :: 0 <= i < |s| ==> b[i] == s[i] as int
  {
    seq(|s|, i requires 0 <= i < |s| => s[i] as int)
  }
}
