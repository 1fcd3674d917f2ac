// The string escaping of the log encoders (log/field_encoder.go).
//
// WriteLogString is proved against Escaped; reading Escaped back by section 7 of RFC 8259
// gives the text it was written from.
module LogStrings {
  import opened Options
  import opened Utf8

  const QUOTE: byte := 0x22
  const BACKSLASH: byte := 0x5C

  /** An output buffer. */
  class Buffer {
    var data: seq<byte>

    constructor ()
      ensures data == []
    {
      data := [];
    }

    method WriteByte(b: byte)
      modifies this
      ensures data == old(data) + [b]
    {
      data := data + [b];
    }

    method WriteString(s: seq<byte>)
      modifies this
      ensures data == old(data) + s
    {
      data := data + s;
    }
  }

  function HexDigit(n: int): byte
    requires 0 <= n < 16
  {
    if n < 10 then (0x30 + n) as byte else (0x61 + n - 10) as byte
  }

  /** What is written for one ASCII byte. */
  function EscapedAscii(b: byte): seq<byte>
    requires b < RUNE_SELF
  {
    if 0x20 <= b && b != BACKSLASH && b != QUOTE then [b]
    else if b == BACKSLASH || b == QUOTE then [BACKSLASH, b]
    else if b == 0x0A then [BACKSLASH, 0x6E]
    else if b == 0x0D then [BACKSLASH, 0x72]
    else if b == 0x09 then [BACKSLASH, 0x74]
    else [BACKSLASH, 0x75, 0x30, 0x30, HexDigit(b as int / 16), HexDigit(b as int % 16)]
  }

  const ESCAPED_ERROR: seq<byte> := [BACKSLASH, 0x75, 0x66, 0x66, 0x66, 0x64]

  /** The text as it is written: one piece per character or undecodable byte. */
  function Escaped(s: seq<byte>): seq<byte> {
    if s == [] then []
    else if s[0] < RUNE_SELF then EscapedAscii(s[0]) + Escaped(s[1..])
    else if RuneLength(s) == 0 then ESCAPED_ERROR + Escaped(s[1..])
    else s[..RuneLength(s)] + Escaped(s[RuneLength(s)..])
  }

  method TryAddRuneSelf(out: Buffer, b: byte) returns (done: bool)
    modifies out
    ensures done <==> b < RUNE_SELF
    ensures b < RUNE_SELF ==> out.data == old(out.data) + EscapedAscii(b)
    ensures b >= RUNE_SELF ==> out.data == old(out.data)
  {
    if b >= RUNE_SELF {
      return false;
    }
    if 0x20 <= b && b != BACKSLASH && b != QUOTE {
      out.WriteByte(b);
      return true;
    }
    if b == BACKSLASH || b == QUOTE {
      out.WriteByte(BACKSLASH);
      out.WriteByte(b);
    } else if b == 0x0A {
      out.WriteByte(BACKSLASH);
      out.WriteByte(0x6E);
    } else if b == 0x0D {
      out.WriteByte(BACKSLASH);
      out.WriteByte(0x72);
    } else if b == 0x09 {
      out.WriteByte(BACKSLASH);
      out.WriteByte(0x74);
    } else {
      out.WriteString([BACKSLASH, 0x75, 0x30, 0x30]);
      out.WriteByte(HexDigit(b as int / 16));
      out.WriteByte(HexDigit(b as int % 16));
    }
    done := true;
  }

  method TryAddRuneError(out: Buffer, r: int, size: nat) returns (done: bool)
    modifies out
    ensures done <==> r == RUNE_ERROR && size == 1
    ensures done ==> out.data == old(out.data) + ESCAPED_ERROR
    ensures !done ==> out.data == old(out.data)
  {
    if r == RUNE_ERROR && size == 1 {
      out.WriteString(ESCAPED_ERROR);
      return true;
    }
    done := false;
  }

  /** The output so far and what is still to come make up the whole. */
  predicate Written(before: seq<byte>, now: seq<byte>, s: seq<byte>, i: nat)
    requires i <= |s|
  {
    now + Escaped(s[i..]) == before + Escaped(s)
  }

  lemma PieceThenRest(before: seq<byte>, now: seq<byte>, s: seq<byte>, i: nat, n: nat, piece: seq<byte>)
    requires i + n <= |s| && Written(before, now, s, i) && Escaped(s[i..]) == piece + Escaped(s[i..][n..])
    ensures Written(before, now + piece, s, i + n)
  {
    hide Escaped;
    assert s[i..][n..] == s[i + n..];
    assert now + piece + Escaped(s[i + n..]) == now + (piece + Escaped(s[i + n..]));
  }

  lemma AsciiPiece(before: seq<byte>, now: seq<byte>, s: seq<byte>, i: nat)
    requires i < |s| && s[i] < RUNE_SELF && Written(before, now, s, i)
    ensures Written(before, now + EscapedAscii(s[i]), s, i + 1)
  {
    hide EscapedAscii, Written;
    PieceThenRest(before, now, s, i, 1, EscapedAscii(s[i]));
  }

  lemma ErrorPiece(before: seq<byte>, now: seq<byte>, s: seq<byte>, i: nat)
    requires i < |s| && s[i] >= RUNE_SELF && RuneLength(s[i..]) == 0 && Written(before, now, s, i)
    ensures Written(before, now + ESCAPED_ERROR, s, i + 1)
  {
    hide Written;
    PieceThenRest(before, now, s, i, 1, ESCAPED_ERROR);
  }

  lemma RawPiece(before: seq<byte>, now: seq<byte>, s: seq<byte>, i: nat, n: nat)
    requires i < |s| && s[i] >= RUNE_SELF && RuneLength(s[i..]) == n && n > 0 && Written(before, now, s, i)
    ensures Written(before, now + s[i..i + n], s, i + n)
  {
    hide RuneLength, Written;
    assert s[i..][..n] == s[i..i + n];
    PieceThenRest(before, now, s, i, n, s[i..i + n]);
  }

  lemma WrittenEnds(before: seq<byte>, now: seq<byte>, s: seq<byte>)
    ensures Written(before, before, s, 0)
    ensures Written(before, now, s, |s|) ==> now == before + Escaped(s)
  {
    assert s[0..] == s && s[|s|..] == [] && Escaped([]) == [];
  }

  method WriteLogString(out: Buffer, s: seq<byte>)
    modifies out
    ensures out.data == old(out.data) + Escaped(s)
  {
    WrittenEnds(out.data, out.data, s);
    hide Written, Escaped, EscapedAscii, RuneLength, DecodeRune;
    ghost var before := out.data;
    var i := 0;
    while i < |s|
      invariant i <= |s|
      invariant Written(before, out.data, s, i)
    {
      ghost var now := out.data;
      var done := TryAddRuneSelf(out, s[i]);
      if done {
        AsciiPiece(before, now, s, i);
        i := i + 1;
        continue;
      }
      var decoded := DecodeRune(s[i..]);
      done := TryAddRuneError(out, decoded.0, decoded.1);
      if done {
        ErrorPiece(before, now, s, i);
        i := i + 1;
        continue;
      }
      RawPiece(before, now, s, i, decoded.1);
      out.WriteString(s[i..i + decoded.1]);
      i := i + decoded.1;
    }
    WrittenEnds(before, out.data, s);
  }

  // ---- Reading a string back: section 7 of RFC 8259 -----------------------

  function HexValue(b: byte): (v: Option<int>)
    ensures v.Some? ==> 0 <= v.value < 16
  {
    if 0x30 <= b <= 0x39 then Some(b as int - 0x30)
    else if 0x61 <= b <= 0x66 then Some(b as int - 0x61 + 10)
    else if 0x41 <= b <= 0x46 then Some(b as int - 0x41 + 10)
    else None
  }

  /** The code unit of a \uXXXX escape. */
  function CodeUnit(s: seq<byte>): (c: Option<int>)
    ensures c.Some? ==> |s| >= 6 && 0 <= c.value <= 0xFFFF
  {
    if |s| < 6 || s[0] != BACKSLASH || s[1] != 0x75 then None
    else
      match (HexValue(s[2]), HexValue(s[3]), HexValue(s[4]), HexValue(s[5]))
      case (Some(a), Some(b), Some(c), Some(d)) => Some(a * 4096 + b * 256 + c * 16 + d)
      case _ => None
  }

  /** A character of the text and how many bytes of the literal spell it. */
  datatype Spelled = Spelled(text: seq<byte>, size: nat)

  /** One \u escape, or two that make a surrogate pair. */
  function UnicodeEscape(s: seq<byte>): (r: Option<Spelled>)
    ensures r.Some? ==> 0 < r.value.size <= |s|
  {
    match CodeUnit(s)
    case None => None
    case Some(c) =>
      if Scalar(c) then Some(Spelled(EncodeRune(c), 6))
      else if c <= 0xDBFF then
        match CodeUnit(s[6..])
        case None => None
        case Some(d) =>
          if 0xDC00 <= d <= 0xDFFF
          then Some(Spelled(EncodeRune(0x10000 + (c - 0xD800) * 1024 + (d - 0xDC00)), 12)) else None
      else None
  }

  /** The first character of a string literal's body; None where the grammar has none. */
  function Character(s: seq<byte>): (r: Option<Spelled>)
    requires s != []
    ensures r.Some? ==> 0 < r.value.size <= |s|
  {
    if s[0] == BACKSLASH then
      if |s| < 2 then None
      else if s[1] == QUOTE || s[1] == BACKSLASH || s[1] == 0x2F then Some(Spelled([s[1]], 2))
      else if s[1] == 0x62 then Some(Spelled([0x08], 2))
      else if s[1] == 0x66 then Some(Spelled([0x0C], 2))
      else if s[1] == 0x6E then Some(Spelled([0x0A], 2))
      else if s[1] == 0x72 then Some(Spelled([0x0D], 2))
      else if s[1] == 0x74 then Some(Spelled([0x09], 2))
      else UnicodeEscape(s)
    else if s[0] == QUOTE || s[0] < 0x20 || RuneLength(s) == 0 then None
    else Some(Spelled(s[..RuneLength(s)], RuneLength(s)))
  }

  /** A string literal after its opening quote: the text, and what follows the closing quote. */
  function StringBody(s: seq<byte>): (r: Option<(seq<byte>, seq<byte>)>)
    ensures r.Some? ==> |r.value.1| < |s|
  {
    if s == [] then None
    else if s[0] == QUOTE then Some(([], s[1..]))
    else
      match Character(s)
      case None => None
      case Some(c) =>
        match StringBody(s[c.size..])
        case None => None
        case Some((text, rest)) => Some((c.text + text, rest))
  }

  lemma HexDigitValue(n: int)
    requires 0 <= n < 16
    ensures HexValue(HexDigit(n)) == Some(n)
  {
  }

  function HexDigitIn(n: int, upper: bool): byte
    requires 0 <= n < 16
  {
    if n >= 10 && upper then (0x41 + n - 10) as byte else HexDigit(n)
  }

  /** \uXXXX with the digits in either case. */
  function UnicodeSpelling(n: int, upper: bool): seq<byte>
    requires 0 <= n < 0x10000
  {
    [BACKSLASH, 0x75, HexDigitIn(n / 4096, upper), HexDigitIn(n / 256 % 16, upper),
     HexDigitIn(n / 16 % 16, upper), HexDigitIn(n % 16, upper)]
  }

  lemma HexDigitInValue(n: int, upper: bool)
    requires 0 <= n < 16
    ensures HexValue(HexDigitIn(n, upper)) == Some(n)
  {
  }

  lemma CodeUnitOfSpelling(n: int, upper: bool, more: seq<byte>)
    requires 0 <= n < 0x10000
    ensures CodeUnit(UnicodeSpelling(n, upper) + more) == Some(n)
  {
    HexDigitInValue(n / 4096, upper);
    HexDigitInValue(n / 256 % 16, upper);
    HexDigitInValue(n / 16 % 16, upper);
    HexDigitInValue(n % 16, upper);
    hide HexValue, HexDigitIn;
    assert n == n / 4096 * 4096 + n / 256 % 16 * 256 + n / 16 % 16 * 16 + n % 16 by {
      assert n / 16 / 16 == n / 256 && n / 256 / 16 == n / 4096;
    }
  }

  /**
   * Section 7 of RFC 8259: any character can be escaped, by its code point in the Basic
   * Multilingual Plane and beyond it by the two code units of its surrogate pair.
   */
  lemma EveryCodePointCanBeEscaped(c: int, upper: bool, more: seq<byte>)
    requires Scalar(c)
    ensures c < 0x10000 ==> Character(UnicodeSpelling(c, upper) + more) == Some(Spelled(EncodeRune(c), 6))
    ensures c >= 0x10000 ==>
              var high, low := 0xD800 + (c - 0x10000) / 0x400, 0xDC00 + (c - 0x10000) % 0x400;
              Character(UnicodeSpelling(high, upper) + UnicodeSpelling(low, upper) + more) == Some(Spelled(EncodeRune(c), 12))
  {
    hide EncodeRune, CodeUnit;
    if c < 0x10000 {
      CodeUnitOfSpelling(c, upper, more);
    } else {
      var high, low := 0xD800 + (c - 0x10000) / 0x400, 0xDC00 + (c - 0x10000) % 0x400;
      var first, second := UnicodeSpelling(high, upper), UnicodeSpelling(low, upper) + more;
      CodeUnitOfSpelling(high, upper, second);
      CodeUnitOfSpelling(low, upper, more);
      assert UnicodeSpelling(high, upper) + UnicodeSpelling(low, upper) + more == first + second;
      assert (first + second)[6..] == second;
    }
  }

  /** The two-character escapes of section 7 of RFC 8259, in its order, and the characters they stand for. */
  lemma ShortEscapes(more: seq<byte>)
    ensures var letters := "\"\\/bfnrt";
            var codes := [0x22, 0x5C, 0x2F, 0x08, 0x0C, 0x0A, 0x0D, 0x09];
            forall k :: 0 <= k < 8 ==>
              Character([BACKSLASH, letters[k] as byte] + more) == Some(Spelled([codes[k]], 2))
  {
  }

  /** Each ASCII byte is spelled by exactly one character of the grammar. */
  lemma AsciiReadsBack(b: byte, more: seq<byte>)
    requires b < RUNE_SELF
    ensures EscapedAscii(b)[0] != QUOTE
    ensures Character(EscapedAscii(b) + more) == Some(Spelled([b], |EscapedAscii(b)|))
  {
    var s := EscapedAscii(b) + more;
    if b < 0x20 && b != 0x0A && b != 0x0D && b != 0x09 {
      HexDigitValue(b as int / 16);
      HexDigitValue(b as int % 16);
      assert CodeUnit(s) == Some(b as int);
      assert EncodeRune(b as int) == [b];
    }
  }

  lemma ErrorReadsBack(more: seq<byte>)
    ensures Character(ESCAPED_ERROR + more) == Some(Spelled(REPLACEMENT, 6))
  {
    assert CodeUnit(ESCAPED_ERROR + more) == Some(0xFFFD);
    assert EncodeRune(0xFFFD) == REPLACEMENT;
  }

  lemma RawReadsBack(s: seq<byte>, more: seq<byte>)
    requires s != [] && s[0] >= RUNE_SELF && RuneLength(s) > 0
    ensures Character(s[..RuneLength(s)] + more) == Some(Spelled(s[..RuneLength(s)], RuneLength(s)))
  {
    RuneLengthOfPrefix(s, more);
    var t := s[..RuneLength(s)] + more;
    assert t[..RuneLength(s)] == s[..RuneLength(s)];
  }

  lemma BodyStep(piece: seq<byte>, text: seq<byte>, more: seq<byte>)
    requires piece != [] && piece[0] != QUOTE && Character(piece + more) == Some(Spelled(text, |piece|))
    requires StringBody(more).Some?
    ensures StringBody(piece + more) == Some((text + StringBody(more).value.0, StringBody(more).value.1))
  {
    assert (piece + more)[|piece|..] == more;
  }

  /**
   * Written between quotes, any byte string reads back as itself with each undecodable byte
   * replaced by U+FFFD, and the literal ends at the closing quote and nowhere before it.
   */
  lemma {:induction false} EscapedReadsBack(s: seq<byte>, rest: seq<byte>)
    ensures StringBody(Escaped(s) + [QUOTE] + rest) == Some((Repaired(s), rest))
  {
    var after := [QUOTE] + rest;
    if s == [] {
      assert Escaped(s) + [QUOTE] + rest == after;
      assert after[1..] == rest;
    } else {
      hide Character, EscapedAscii, StringBody;
      var n := if RuneLength(s) == 0 then 1 else RuneLength(s);
      var piece := if s[0] < RUNE_SELF then EscapedAscii(s[0]) else if RuneLength(s) == 0 then ESCAPED_ERROR else s[..n];
      var text := if RuneLength(s) == 0 then REPLACEMENT else s[..n];
      EscapedReadsBack(s[n..], rest);
      var more := Escaped(s[n..]) + [QUOTE] + rest;
      assert Escaped(s) + [QUOTE] + rest == piece + more;
      if s[0] < RUNE_SELF {
        AsciiReadsBack(s[0], more);
        assert s[..1] == [s[0]];
      } else if RuneLength(s) == 0 {
        ErrorReadsBack(more);
      } else {
        RawReadsBack(s, more);
      }
      BodyStep(piece, text, more);
    }
  }

  /** Valid text survives exactly, and only valid text does. */
  lemma ValidTextSurvivesIff(s: seq<byte>, rest: seq<byte>)
    ensures StringBody(Escaped(s) + [QUOTE] + rest) == Some((s, rest)) <==> Valid(s)
  {
    EscapedReadsBack(s, rest);
    RepairedIsIdentityIff(s);
  }

  /** A byte that is written as it is. */
  predicate NeedsNoEscape(b: byte) {
    b >= 0x20 && b != QUOTE && b != BACKSLASH
  }

  /** How much of the text the first piece covers. */
  function PieceSize(s: seq<byte>): (n: nat)
    requires s != []
    ensures 1 <= n <= |s|
  {
    if RuneLength(s) == 0 then 1 else RuneLength(s)
  }

  predicate Unescaped(s: seq<byte>) {
    forall k :: 0 <= k < |s| ==> NeedsNoEscape(s[k])
  }

  /** The piece for the first character: no shorter than what it covers, and the same if it is as long. */
  function Piece(s: seq<byte>): (p: seq<byte>)
    requires s != []
    ensures |p| >= PieceSize(s)
  {
    if s[0] < RUNE_SELF then EscapedAscii(s[0]) else if RuneLength(s) == 0 then ESCAPED_ERROR else s[..RuneLength(s)]
  }

  lemma FirstPiece(s: seq<byte>)
    requires s != []
    ensures Escaped(s) == Piece(s) + Escaped(s[PieceSize(s)..])
    ensures Valid(s) <==> RuneLength(s) > 0 && Valid(s[PieceSize(s)..])
  {
    hide EscapedAscii;
    assert s[0] < RUNE_SELF ==> RuneLength(s) == 1;
  }

  lemma PieceIsCharacter(s: seq<byte>)
    requires s != []
    ensures Piece(s) == s[..PieceSize(s)] <==> RuneLength(s) > 0 && Unescaped(s[..PieceSize(s)])
    ensures |Piece(s)| == PieceSize(s) <==> Piece(s) == s[..PieceSize(s)]
  {
    if s[0] < RUNE_SELF {
      assert s[..1] == [s[0]];
      assert Unescaped([s[0]]) <==> NeedsNoEscape([s[0]][0]);
    } else if RuneLength(s) > 0 {
      assert Unescaped(s[..RuneLength(s)]);
    }
  }

  lemma UnescapedParts(a: seq<byte>, b: seq<byte>)
    ensures Unescaped(a + b) <==> Unescaped(a) && Unescaped(b)
  {
    if Unescaped(a + b) {
      assert forall k :: 0 <= k < |a| ==> a[k] == (a + b)[k];
      assert forall k :: 0 <= k < |b| ==> b[k] == (a + b)[|a| + k];
    }
  }

  /**
   * Nothing is escaped that need not be: the text is never shorter, and is as long exactly if
   * it is valid UTF-8 without control bytes, quotes and backslashes, which stays as it is.
   */
  lemma {:induction false} EscapedOnlyIfNeeded(s: seq<byte>)
    ensures |Escaped(s)| >= |s|
    ensures |Escaped(s)| == |s| <==> Valid(s) && Unescaped(s)
    ensures |Escaped(s)| == |s| ==> Escaped(s) == s
  {
    if s != [] {
      hide PieceSize, Piece, Valid, Escaped, Unescaped;
      var n := PieceSize(s);
      FirstPiece(s);
      PieceIsCharacter(s);
      EscapedOnlyIfNeeded(s[n..]);
      UnescapedParts(s[..n], s[n..]);
      assert s == s[..n] + s[n..];
    }
  }

  /** The spelling of each escape: the short form where the source has one, else four lower-case digits. */
  lemma EscapeSpelling(b: byte)
    requires b < RUNE_SELF
    ensures var e := EscapedAscii(b);
            && (NeedsNoEscape(b) <==> e == [b])
            && (!NeedsNoEscape(b) ==> |e| >= 2 && e[0] as int == '\\' as int)
            && (b as int == '"' as int || b as int == '\\' as int ==> e[1..] == [b])
            && (b as int == '\n' as int ==> |e| == 2 && e[1] as int == 'n' as int)
            && (b as int == '\r' as int ==> |e| == 2 && e[1] as int == 'r' as int)
            && (b as int == '\t' as int ==> |e| == 2 && e[1] as int == 't' as int)
            && (b < 0x20 && b !in [0x09, 0x0A, 0x0D] ==>
                  |e| == 6 && CodeUnit(e) == Some(b as int) && forall k :: 4 <= k < 6 ==> !(0x41 <= e[k] <= 0x46))
  {
    if b < 0x20 {
      HexDigitValue(b as int / 16);
      HexDigitValue(b as int % 16);
    }
  }

  /** No control byte is ever written raw. */
  lemma {:induction false} NoRawControl(s: seq<byte>)
    ensures forall k :: 0 <= k < |Escaped(s)| ==> Escaped(s)[k] >= 0x20
  {
    if s != [] {
      var n := if RuneLength(s) == 0 then 1 else RuneLength(s);
      NoRawControl(s[n..]);
      if s[0] < RUNE_SELF {
        assert forall k :: 0 <= k < |EscapedAscii(s[0])| ==> EscapedAscii(s[0])[k] >= 0x20;
      }
    }
  }

  /** The escaped text is itself valid UTF-8. */
  lemma {:induction false} EscapedIsValid(s: seq<byte>)
    ensures Valid(Escaped(s))
  {
    if s != [] {
      var n := if RuneLength(s) == 0 then 1 else RuneLength(s);
      EscapedIsValid(s[n..]);
      if s[0] < RUNE_SELF {
        AsciiPrefixKeepsValid(EscapedAscii(s[0]), Escaped(s[1..]));
      } else if RuneLength(s) == 0 {
        AsciiPrefixKeepsValid(ESCAPED_ERROR, Escaped(s[1..]));
      } else {
        RuneLengthOfPrefix(s, Escaped(s[n..]));
        assert Escaped(s)[n..] == Escaped(s[n..]);
      }
    }
  }

  lemma {:induction false} AsciiPrefixKeepsValid(a: seq<byte>, s: seq<byte>)
    requires Valid(s) && forall k :: 0 <= k < |a| ==> a[k] < RUNE_SELF
    ensures Valid(a + s)
  {
    if a == [] {
      assert a + s == s;
    } else {
      AsciiPrefixKeepsValid(a[1..], s);
      assert (a + s)[1..] == a[1..] + s;
    }
  }
}
