/** Byte strings as the gateway writes them: UTF-8 text (Python's
    `str.encode("utf-8")`) and little-endian fixed-width integers
    (`int.to_bytes(n, "little")`). */
module Bytes {
  import opened Values

  type byte = b: int | 0 <= b < 256

  /** The UTF-8 encoding of one Unicode scalar value: one to four bytes. */
  function Utf8Char(c: char): (bs: seq<byte>)
    ensures 1 <= |bs| <= 4
    ensures |bs| == 1 <==> (c as int) < 0x80
  {
    var n := c as int;
    if n < 0x80 then [n]
    else if n < 0x800 then [0xC0 + n / 64, 0x80 + n % 64]
    else if n < 0x10000 then [0xE0 + n / 4096, 0x80 + (n / 64) % 64, 0x80 + n % 64]
    else [0xF0 + n / 262144, 0x80 + (n / 4096) % 64, 0x80 + (n / 64) % 64, 0x80 + n % 64]
  }

  /** `s.encode("utf-8")`. */
  function Utf8(s: string): (bs: seq<byte>)
    ensures |s| <= |bs| <= 4 * |s|
  {
    if s == [] then [] else Utf8Char(s[0]) + Utf8(s[1..])
  }

  /** Encoding distributes over concatenation. */
  lemma {:induction false} Utf8Append(a: string, b: string)
    ensures Utf8(a + b) == Utf8(a) + Utf8(b)
  {
    if a != [] {
      assert (a + b)[0] == a[0] && (a + b)[1..] == a[1..] + b;
      Utf8Append(a[1..], b);
      assert a + b != [];
      calc {
        Utf8(a + b);
        Utf8Char(a[0]) + Utf8(a[1..] + b);
        Utf8Char(a[0]) + (Utf8(a[1..]) + Utf8(b));
        (Utf8Char(a[0]) + Utf8(a[1..])) + Utf8(b);
      }
    } else {
      assert a + b == b;
    }
  }

  /** Text is empty exactly when its encoding is. */
  lemma Utf8Empty(s: string)
    ensures Utf8(s) == [] <==> s == []
  {
  }

  /** Decoding of the first character of a UTF-8 byte string: its code point
      and how many bytes it took, or None for a malformed lead byte or a
      truncated sequence. */
  function DecodeChar(bs: seq<byte>): (r: Option<(int, nat)>)
    ensures r.Some? ==> 1 <= r.value.1 <= |bs|
  {
    if bs == [] then None
    else
      var b0 := bs[0] as int;
      if b0 < 0x80 then Some((b0, 1))
      else if 0xC0 <= b0 < 0xE0 && |bs| >= 2 then
        Some(((b0 - 0xC0) * 64 + (bs[1] as int - 0x80), 2))
      else if 0xE0 <= b0 < 0xF0 && |bs| >= 3 then
        Some(((b0 - 0xE0) * 4096 + (bs[1] as int - 0x80) * 64 + (bs[2] as int - 0x80), 3))
      else if 0xF0 <= b0 < 0xF8 && |bs| >= 4 then
        Some(((b0 - 0xF0) * 262144 + (bs[1] as int - 0x80) * 4096 + (bs[2] as int - 0x80) * 64
              + (bs[3] as int - 0x80), 4))
      else None
  }

  /** The code points of a whole UTF-8 byte string, or None when some
      character does not decode. */
  function Decode(bs: seq<byte>): Option<seq<int>>
    decreases |bs|
  {
    if bs == [] then Some([])
    else
      match DecodeChar(bs)
      case None => None
      case Some((code, len)) =>
        match Decode(bs[len..])
        case None => None
        case Some(rest) => Some([code] + rest)
  }

  function Codes(s: string): (cs: seq<int>)
    ensures |cs| == |s|
    ensures forall i :: 0 <= i < |s| ==> cs[i] == s[i] as int
  {
    if s == [] then [] else [s[0] as int] + Codes(s[1..])
  }

  lemma DivMod64(n: int)
    requires n >= 0
    ensures (n / 64) * 64 + n % 64 == n
  {
  }

  /** Each character's encoding decodes back to it, whatever follows. */
  lemma Utf8CharDecodes(c: char, rest: seq<byte>)
    ensures DecodeChar(Utf8Char(c) + rest) == Some((c as int, |Utf8Char(c)|))
  {
    var n := c as int;
    DivMod64(n);
    DivMod64(n / 64);
    DivMod64(n / 4096);
    assert n / 4096 == (n / 64) / 64;
    assert n / 262144 == (n / 4096) / 64;
  }

  /** Decoding undoes encoding: the UTF-8 bytes of a string decode to
      exactly its code points. */
  lemma {:induction false} Utf8RoundTrip(s: string)
    ensures Decode(Utf8(s)) == Some(Codes(s))
    decreases |s|
  {
    if s != [] {
      var head := Utf8Char(s[0]);
      var bs := Utf8(s);
      assert bs == head + Utf8(s[1..]);
      Utf8CharDecodes(s[0], Utf8(s[1..]));
      assert bs[|head|..] == Utf8(s[1..]);
      Utf8RoundTrip(s[1..]);
    }
  }

  const Two32: int := 0x1_0000_0000

  /** `n.to_bytes(4, "little")`, defined for `0 <= n < 2^32` (Python raises
      OverflowError otherwise). */
  function Le32(n: nat): (bs: seq<byte>)
    requires n < Two32
    ensures |bs| == 4
  {
    [n % 256, (n / 256) % 256, (n / 65536) % 256, n / 16777216]
  }

  /** `int.from_bytes(bs, "little")` for four bytes. */
  function FromLe32(bs: seq<byte>): nat
    requires |bs| == 4
  {
    bs[0] as int + 256 * (bs[1] as int) + 65536 * (bs[2] as int) + 16777216 * (bs[3] as int)
  }

  /** The four-byte little-endian encoding reads back as the same number. */
  lemma Le32RoundTrip(n: nat)
    requires n < Two32
    ensures FromLe32(Le32(n)) == n
  {
    var a, b, c := n % 256, n / 256, n / 65536;
    assert n == a + 256 * b;
    assert b == b % 256 + 256 * (b / 256);
    assert b / 256 == c;
    assert c == c % 256 + 256 * (c / 256);
    assert c / 256 == n / 16777216;
  }

  /** ...and every four bytes are the encoding of the number they read as. */
  lemma Le32Unique(bs: seq<byte>)
    requires |bs| == 4
    ensures FromLe32(bs) < Two32 && Le32(FromLe32(bs)) == bs
  {
    var b0, b1, b2, b3 := bs[0] as int, bs[1] as int, bs[2] as int, bs[3] as int;
    var n := FromLe32(bs);
    var r2 := b2 + 256 * b3;
    var r1 := b1 + 256 * r2;
    assert n == b0 + 256 * r1;
    DivModUnique(n, 256, b0, r1);
    DivModUnique(r1, 256, b1, r2);
    assert n == (b0 + 256 * b1) + 65536 * r2;
    DivModUnique(n, 65536, b0 + 256 * b1, r2);
    DivModUnique(r2, 256, b2, b3);
    assert n == (b0 + 256 * b1 + 65536 * b2) + 16777216 * b3;
    DivModUnique(n, 16777216, b0 + 256 * b1 + 65536 * b2, b3);
  }

  /** Euclidean division is determined by a remainder in range. */
  lemma DivModUnique(x: int, m: int, lo: int, hi: int)
    requires 0 <= lo < m && x == lo + m * hi
    ensures x / m == hi && x % m == lo
  {
    var q, r := x / m, x % m;
    assert m * (q - hi) == lo - r by {
      assert x == m * q + r;
      assert m * (q - hi) == m * q - m * hi;
    }
    if q > hi {
      MulAtLeast(m, q - hi);
    } else if q < hi {
      MulAtLeast(m, hi - q);
    }
  }

  lemma {:induction false} MulAtLeast(m: int, k: int)
    requires m > 0 && k >= 1
    ensures m * k >= m
    decreases k
  {
    if k > 1 {
      MulAtLeast(m, k - 1);
      assert m * k == m * (k - 1) + m;
    }
  }
}
