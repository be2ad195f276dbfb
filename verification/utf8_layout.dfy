/** The grammar of UTF-8 against the bit layout of section 3 of RFC 3629. */
module Utf8Layout {
  import opened Common
  import opened Utf8

  /** The scalar values: the code points without the surrogates. */
  predicate IsScalar(c: nat) { c < 0xD800 || 0xE000 <= c <= 0x10FFFF }

  /** A continuation byte holds six bits. */
  function Six(bits: nat): (b: Byte)
    requires bits < 64
  {
    0x80 + bits
  }

  /** 7 bits, 5 + 6, 4 + 6 + 6 or 3 + 6 + 6 + 6 bits, the highest first. */
  function EncodeScalar(c: nat): (s: seq<Byte>)
    requires c <= 0x10FFFF
  {
    var c1 := c / 64;
    var c2 := c1 / 64;
    if c < 0x80 then [c]
    else if c < 0x800 then [0xC0 + c1, Six(c % 64)]
    else if c < 0x1_0000 then [0xE0 + c2, Six(c1 % 64), Six(c % 64)]
    else [0xF0 + c2 / 64, Six(c2 % 64), Six(c1 % 64), Six(c % 64)]
  }

  /** The bits of the bytes put together, without their markers. */
  function ScalarOf(s: seq<Byte>): int
    requires 1 <= |s| <= 4
  {
    var a := s[0] as int;
    if |s| == 1 then a
    else if |s| == 2 then 64 * (a - 0xC0) + (s[1] as int - 0x80)
    else if |s| == 3 then 64 * (64 * (a - 0xE0) + (s[1] as int - 0x80)) + (s[2] as int - 0x80)
    else 64 * (64 * (64 * (a - 0xF0) + (s[1] as int - 0x80)) + (s[2] as int - 0x80)) + (s[3] as int - 0x80)
  }

  lemma Divide(high: int, low: int)
    requires 0 <= low < 64
    ensures (64 * high + low) / 64 == high && (64 * high + low) % 64 == low
  {
  }

  lemma TwoIsEncoding(s: seq<Byte>)
    requires |s| == 2 && IsChar(s)
    ensures ScalarOf(s) >= 0 && IsScalar(ScalarOf(s)) && EncodeScalar(ScalarOf(s)) == s
  {
    Divide(s[0] as int - 0xC0, s[1] as int - 0x80);
  }

  lemma ThreeIsEncoding(s: seq<Byte>)
    requires |s| == 3 && IsChar(s)
    ensures ScalarOf(s) >= 0 && IsScalar(ScalarOf(s)) && EncodeScalar(ScalarOf(s)) == s
  {
    var a, b, c := s[0] as int - 0xE0, s[1] as int - 0x80, s[2] as int - 0x80;
    Divide(64 * a + b, c);
    Divide(a, b);
  }

  lemma FourIsEncoding(s: seq<Byte>)
    requires |s| == 4 && IsChar(s)
    ensures ScalarOf(s) >= 0 && IsScalar(ScalarOf(s)) && EncodeScalar(ScalarOf(s)) == s
  {
    var a, b, c, d := s[0] as int - 0xF0, s[1] as int - 0x80, s[2] as int - 0x80, s[3] as int - 0x80;
    Divide(64 * (64 * a + b) + c, d);
    Divide(64 * a + b, c);
    Divide(a, b);
  }

  /** Every character of the grammar encodes a scalar value. */
  lemma CharIsEncoding(s: seq<Byte>)
    requires IsChar(s)
    ensures ScalarOf(s) >= 0 && IsScalar(ScalarOf(s)) && EncodeScalar(ScalarOf(s)) == s
  {
    if |s| == 1 {
      } else if |s| == 2 {
      TwoIsEncoding(s);
    } else if |s| == 3 {
      ThreeIsEncoding(s);
    } else if |s| == 4 {
      FourIsEncoding(s);
    }
  }

  lemma ThreeEncoded(c: nat)
    requires 0x800 <= c < 0x1_0000 && IsScalar(c)
    ensures IsChar(EncodeScalar(c)) && ScalarOf(EncodeScalar(c)) == c
  {
    var c1 := c / 64;
    var c2 := c1 / 64;
    assert c == 64 * c1 + c % 64 && c1 == 64 * c2 + c1 % 64;
  }

  lemma FourEncoded(c: nat)
    requires 0x1_0000 <= c <= 0x10FFFF
    ensures IsChar(EncodeScalar(c)) && ScalarOf(EncodeScalar(c)) == c
  {
    var c1 := c / 64;
    var c2 := c1 / 64;
    assert c == 64 * c1 + c % 64 && c1 == 64 * c2 + c1 % 64 && c2 == 64 * (c2 / 64) + c2 % 64;
  }

  /** Every encoded scalar value is a character of the grammar, and can be read back. */
  lemma EncodingIsChar(c: nat)
    requires IsScalar(c)
    ensures IsChar(EncodeScalar(c)) && ScalarOf(EncodeScalar(c)) == c
  {
    if 0x800 <= c < 0x1_0000 {
      ThreeEncoded(c);
    } else if c >= 0x1_0000 {
      FourEncoded(c);
    }
  }

  /** s is the encoding of scalar value c. */
  predicate Encodes(s: seq<Byte>, c: nat) { IsScalar(c) && EncodeScalar(c) == s }

  /** The characters of the grammar are exactly the encodings of the scalar values, one each. */
  lemma GrammarIsBitLayout(s: seq<Byte>)
    ensures IsChar(s) <==> exists c: nat :: Encodes(s, c)
    ensures forall c: nat, d: nat :: Encodes(s, c) && Encodes(s, d) ==> c == d
  {
    if IsChar(s) {
      CharIsEncoding(s);
      assert Encodes(s, ScalarOf(s));
    }
    forall c: nat | Encodes(s, c)
      ensures IsChar(s) && ScalarOf(s) == c
    {
      EncodingIsChar(c);
    }
  }
}
