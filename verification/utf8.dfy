// UTF-8 as section 4 of RFC 3629 defines it, and Go's decoder on top of it.
module Utf8 {
  newtype byte = x: int | 0 <= x < 256

  const RUNE_SELF: byte := 0x80
  const RUNE_ERROR := 0xFFFD

  /** The encoding of U+FFFD. */
  const REPLACEMENT: seq<byte> := [0xEF, 0xBF, 0xBD]

  predicate Tail(b: byte) {
    0x80 <= b <= 0xBF
  }

  predicate Two(s: seq<byte>) {
    |s| >= 2 && 0xC2 <= s[0] <= 0xDF && Tail(s[1])
  }

  predicate Three(s: seq<byte>) {
    && |s| >= 3 && Tail(s[1]) && Tail(s[2])
    && (|| (s[0] == 0xE0 && 0xA0 <= s[1])
        || 0xE1 <= s[0] <= 0xEC
        || (s[0] == 0xED && s[1] <= 0x9F)
        || 0xEE <= s[0] <= 0xEF)
  }

  predicate Four(s: seq<byte>) {
    && |s| >= 4 && Tail(s[1]) && Tail(s[2]) && Tail(s[3])
    && (|| (s[0] == 0xF0 && 0x90 <= s[1])
        || 0xF1 <= s[0] <= 0xF3
        || (s[0] == 0xF4 && s[1] <= 0x8F))
  }

  /** How many bytes the character at the front takes, and 0 if there is none. */
  function RuneLength(s: seq<byte>): (n: nat)
    ensures n <= 4 && n <= |s|
  {
    if |s| >= 1 && s[0] < RUNE_SELF then 1
    else if Two(s) then 2
    else if Three(s) then 3
    else if Four(s) then 4
    else 0
  }

  function CodePoint(s: seq<byte>): int
    requires RuneLength(s) > 0
  {
    var n := RuneLength(s);
    if n == 1 then s[0] as int
    else if n == 2 then (s[0] as int - 0xC0) * 64 + (s[1] as int - 0x80)
    else if n == 3 then (s[0] as int - 0xE0) * 4096 + (s[1] as int - 0x80) * 64 + (s[2] as int - 0x80)
    else (s[0] as int - 0xF0) * 262144 + (s[1] as int - 0x80) * 4096 + (s[2] as int - 0x80) * 64 + (s[3] as int - 0x80)
  }

  /** The first character and its size; an undecodable byte is RUNE_ERROR of size 1. */
  function DecodeRune(s: seq<byte>): (r: (int, nat))
    requires s != []
    ensures 1 <= r.1 <= |s|
    ensures r.0 == RUNE_ERROR && r.1 == 1 <==> RuneLength(s) == 0
    ensures RuneLength(s) > 0 ==> r.1 == RuneLength(s)
  {
    if RuneLength(s) == 0 then (RUNE_ERROR, 1) else (CodePoint(s), RuneLength(s))
  }

  /** A code point a character may have: not a surrogate, not beyond U+10FFFF. */
  predicate Scalar(c: int) {
    0 <= c <= 0x10FFFF && !(0xD800 <= c <= 0xDFFF)
  }

  function EncodeRune(c: int): (s: seq<byte>)
    requires Scalar(c)
    ensures 1 <= |s| <= 4
  {
    if c < 0x80 then [c as byte]
    else if c < 0x800 then [(0xC0 + c / 64) as byte, (0x80 + c % 64) as byte]
    else if c < 0x10000 then [(0xE0 + c / 4096) as byte, (0x80 + c / 64 % 64) as byte, (0x80 + c % 64) as byte]
    else [(0xF0 + c / 262144) as byte, (0x80 + c / 4096 % 64) as byte, (0x80 + c / 64 % 64) as byte, (0x80 + c % 64) as byte]
  }

  lemma Base64Digits(c: int)
    requires 0 <= c
    ensures c == c / 64 * 64 + c % 64
    ensures c == c / 4096 * 4096 + c / 64 % 64 * 64 + c % 64
    ensures c == c / 262144 * 262144 + c / 4096 % 64 * 4096 + c / 64 % 64 * 64 + c % 64
  {
    assert c / 64 / 64 == c / 4096 && c / 4096 / 64 == c / 262144;
  }

  lemma TwoDecode(c: int, more: seq<byte>)
    requires 0x80 <= c < 0x800
    ensures DecodeRune(EncodeRune(c) + more) == (c, 2)
  {
    Base64Digits(c);
    var s := EncodeRune(c) + more;
    assert s[0] as int == 0xC0 + c / 64 && s[1] as int == 0x80 + c % 64;
    assert Two(s) && RuneLength(s) == 2;
  }

  lemma ThreeDecode(c: int, more: seq<byte>)
    requires 0x800 <= c < 0x10000 && Scalar(c)
    ensures DecodeRune(EncodeRune(c) + more) == (c, 3)
  {
    Base64Digits(c);
    var s := EncodeRune(c) + more;
    assert s[0] as int == 0xE0 + c / 4096 && s[1] as int == 0x80 + c / 64 % 64 && s[2] as int == 0x80 + c % 64;
    assert Three(s) && RuneLength(s) == 3;
  }

  lemma FourDecode(c: int, more: seq<byte>)
    requires 0x10000 <= c <= 0x10FFFF
    ensures DecodeRune(EncodeRune(c) + more) == (c, 4)
  {
    Base64Digits(c);
    var s := EncodeRune(c) + more;
    assert s[0] as int == 0xF0 + c / 262144 && s[1] as int == 0x80 + c / 4096 % 64;
    assert s[2] as int == 0x80 + c / 64 % 64 && s[3] as int == 0x80 + c % 64;
    assert Four(s) && RuneLength(s) == 4;
  }

  /** Encoding and decoding are inverse on every code point, whatever follows. */
  lemma {:induction false} EncodeThenDecode(c: int, more: seq<byte>)
    requires Scalar(c)
    ensures DecodeRune(EncodeRune(c) + more) == (c, |EncodeRune(c)|)
  {
    if c < 0x80 {
      assert (EncodeRune(c) + more)[0] as int == c;
    } else if c < 0x800 {
      TwoDecode(c, more);
    } else if c < 0x10000 {
      ThreeDecode(c, more);
    } else {
      FourDecode(c, more);
    }
  }

  lemma Base64Parts(a: int, b: int)
    requires 0 <= b < 64
    ensures (a * 64 + b) / 64 == a && (a * 64 + b) % 64 == b
  {
  }

  lemma TwoEncode(s: seq<byte>)
    requires Two(s)
    ensures var c := (s[0] as int - 0xC0) * 64 + (s[1] as int - 0x80);
            0x80 <= c < 0x800 && EncodeRune(c) == s[..2]
  {
    Base64Parts(s[0] as int - 0xC0, s[1] as int - 0x80);
  }

  lemma ThreeEncode(s: seq<byte>)
    requires Three(s)
    ensures var c := (s[0] as int - 0xE0) * 4096 + (s[1] as int - 0x80) * 64 + (s[2] as int - 0x80);
            0x800 <= c < 0x10000 && Scalar(c) && EncodeRune(c) == s[..3]
  {
    ThreeParts(s[0] as int - 0xE0, s[1] as int - 0x80, s[2] as int - 0x80);
  }

  lemma {:induction false} FourEncode(s: seq<byte>)
    requires Four(s)
    ensures var c := (s[0] as int - 0xF0) * 262144 + (s[1] as int - 0x80) * 4096
                     + (s[2] as int - 0x80) * 64 + (s[3] as int - 0x80);
            0x10000 <= c <= 0x10FFFF && EncodeRune(c) == s[..4]
  {
    FourParts(s[0] as int - 0xF0, s[1] as int - 0x80, s[2] as int - 0x80, s[3] as int - 0x80);
  }

  lemma {:induction false} ThreeParts(a: int, b: int, c: int)
    requires 0 <= b < 64 && 0 <= c < 64
    ensures var x := a * 4096 + b * 64 + c; x / 4096 == a && x / 64 % 64 == b && x % 64 == c
  {
    var y := a * 64 + b;
    Base64Parts(y, c);
    Base64Parts(a, b);
    DropThenDrop(y * 64 + c);
  }

  lemma FourParts(a: int, b: int, c: int, d: int)
    requires 0 <= b < 64 && 0 <= c < 64 && 0 <= d < 64
    ensures var x := a * 262144 + b * 4096 + c * 64 + d;
            x / 262144 == a && x / 4096 % 64 == b && x / 64 % 64 == c && x % 64 == d
  {
    var y := a * 4096 + b * 64 + c;
    Base64Parts(y, d);
    ThreeParts(a, b, c);
    DropThenDrop(y * 64 + d);
  }

  lemma DropThenDrop(x: int)
    ensures x / 64 / 4096 == x / 262144 && x / 64 / 64 == x / 4096
  {
  }

  /** Every decodable character is a code point in its one shortest form. */
  lemma {:induction false} DecodeThenEncode(s: seq<byte>)
    requires RuneLength(s) > 0
    ensures Scalar(CodePoint(s)) && EncodeRune(CodePoint(s)) == s[..RuneLength(s)]
  {
    hide EncodeRune;
    var n := RuneLength(s);
    if n == 1 {
      OneEncode(s[0]);
    } else if n == 2 {
      TwoEncode(s);
    } else if n == 3 {
      ThreeEncode(s);
    } else {
      FourEncode(s);
    }
  }

  lemma OneEncode(b: byte)
    requires b < RUNE_SELF
    ensures EncodeRune(b as int) == [b]
  {
  }

  predicate Valid(s: seq<byte>) {
    s == [] || (RuneLength(s) > 0 && Valid(s[RuneLength(s)..]))
  }

  /** The text with every undecodable byte replaced by U+FFFD. */
  function Repaired(s: seq<byte>): (r: seq<byte>)
    ensures |s| <= |r|
  {
    if s == [] then []
    else if RuneLength(s) == 0 then REPLACEMENT + Repaired(s[1..])
    else s[..RuneLength(s)] + Repaired(s[RuneLength(s)..])
  }

  lemma RuneLengthOfPrefix(s: seq<byte>, more: seq<byte>)
    requires RuneLength(s) > 0
    ensures RuneLength(s[..RuneLength(s)] + more) == RuneLength(s)
  {
  }

  lemma {:induction false} RepairedIsValid(s: seq<byte>)
    ensures Valid(Repaired(s))
  {
    if s != [] {
      var n := RuneLength(s);
      if n == 0 {
        RepairedIsValid(s[1..]);
        RuneLengthOfPrefix(REPLACEMENT, Repaired(s[1..]));
        assert Repaired(s)[3..] == Repaired(s[1..]);
      } else {
        RepairedIsValid(s[n..]);
        RuneLengthOfPrefix(s, Repaired(s[n..]));
        assert Repaired(s)[n..] == Repaired(s[n..]);
      }
    }
  }

  /** Repair leaves exactly the valid texts alone. */
  lemma {:induction false} RepairedIsIdentityIff(s: seq<byte>)
    ensures Repaired(s) == s <==> Valid(s)
    ensures Valid(s) <==> |Repaired(s)| == |s|
  {
    if s != [] {
      var n := RuneLength(s);
      if n > 0 {
        RepairedIsIdentityIff(s[n..]);
        assert s == s[..n] + s[n..];
        assert Repaired(s)[n..] == Repaired(s[n..]);
      }
    }
  }
}
