// JSON texts as sections 2 to 7 of RFC 8259 define them: a parser to read the log encoders'
// output with.
module JsonTexts {
  import opened Options
  import opened Utf8
  import opened LogStrings

  /** A JSON value. Members keep their order, and repeated names stay. */
  datatype Tree =
    | Null
    | Boolean(truth: bool)
    | Number(digits: seq<byte>)
    | Text(text: seq<byte>)
    | List(items: seq<Tree>)
    | Record(members: seq<Member>)

  datatype Member = Member(name: seq<byte>, value: Tree)

  datatype Parsed<T> = Parsed(value: T, rest: seq<byte>)

  const COMMA: byte := 0x2C
  const COLON: byte := 0x3A
  const OPEN_BRACE: byte := 0x7B
  const CLOSE_BRACE: byte := 0x7D
  const OPEN_BRACKET: byte := 0x5B
  const CLOSE_BRACKET: byte := 0x5D

  const TRUE: seq<byte> := [0x74, 0x72, 0x75, 0x65]
  const FALSE: seq<byte> := [0x66, 0x61, 0x6C, 0x73, 0x65]
  const NULL: seq<byte> := [0x6E, 0x75, 0x6C, 0x6C]

  function SkipSpace(s: seq<byte>): (r: seq<byte>)
    ensures |r| <= |s|
  {
    if s != [] && (s[0] == 0x20 || s[0] == 0x09 || s[0] == 0x0A || s[0] == 0x0D) then SkipSpace(s[1..]) else s
  }

  // ---- Numbers (section 6) ------------------------------------------------

  predicate IsDigit(b: byte) {
    0x30 <= b <= 0x39
  }

  /** How many digits there are at the front. */
  function Digits(s: seq<byte>): (n: nat)
    ensures n <= |s|
    ensures forall k :: 0 <= k < n ==> IsDigit(s[k])
    ensures n < |s| ==> !IsDigit(s[n])
  {
    if s != [] && IsDigit(s[0]) then 1 + Digits(s[1..]) else 0
  }

  function IntegerEnd(s: seq<byte>): (n: nat)
    ensures n <= |s|
  {
    var sign := if s != [] && s[0] == 0x2D then 1 else 0;
    var digits := Digits(s[sign..]);
    if digits == 0 then 0 else if s[sign] == 0x30 then sign + 1 else sign + digits
  }

  function FractionEnd(s: seq<byte>, i: nat): (n: nat)
    requires i <= |s|
    ensures i <= n <= |s|
  {
    if i < |s| && s[i] == 0x2E && Digits(s[i + 1..]) > 0 then i + 1 + Digits(s[i + 1..]) else i
  }

  /** How many bytes an optional sign and the digits after it take, and 0 if there are no digits. */
  function SignedDigits(s: seq<byte>): (n: nat)
    ensures n <= |s|
  {
    var sign := if s != [] && (s[0] == 0x2B || s[0] == 0x2D) then 1 else 0;
    if Digits(s[sign..]) > 0 then sign + Digits(s[sign..]) else 0
  }

  function ExponentEnd(s: seq<byte>, i: nat): (n: nat)
    requires i <= |s|
    ensures i <= n <= |s|
  {
    if i < |s| && (s[i] == 0x65 || s[i] == 0x45) && SignedDigits(s[i + 1..]) > 0 then i + 1 + SignedDigits(s[i + 1..]) else i
  }

  /** How many bytes the number at the front takes, and 0 if there is none. */
  function NumberLength(s: seq<byte>): (n: nat)
    ensures n <= |s|
  {
    var i := IntegerEnd(s);
    if i == 0 then 0 else ExponentEnd(s, FractionEnd(s, i))
  }

  predicate IsNumber(s: seq<byte>) {
    s != [] && NumberLength(s) == |s|
  }

  predicate AllDigits(s: seq<byte>) {
    forall k :: 0 <= k < |s| ==> IsDigit(s[k])
  }

  /** [ minus ] ( zero / ( digit1-9 *DIGIT ) ) */
  predicate IntegerPart(s: seq<byte>) {
    var digits := if s != [] && s[0] as int == '-' as int then s[1..] else s;
    digits != [] && AllDigits(digits) && (digits[0] as int == '0' as int ==> |digits| == 1)
  }

  /** [ decimal-point 1*DIGIT ] */
  predicate FractionPart(s: seq<byte>) {
    s == [] || (s[0] as int == '.' as int && |s| > 1 && AllDigits(s[1..]))
  }

  /** [ e [ minus / plus ] 1*DIGIT ] */
  predicate ExponentPart(s: seq<byte>) {
    s == [] || ((s[0] as int == 'e' as int || s[0] as int == 'E' as int) && SignedPart(s[1..]))
  }

  predicate SignedPart(s: seq<byte>) {
    var digits := if s != [] && (s[0] as int == '-' as int || s[0] as int == '+' as int) then s[1..] else s;
    digits != [] && AllDigits(digits)
  }

  predicate NumberParts(s: seq<byte>, i: nat, j: nat) {
    i <= j <= |s| && IntegerPart(s[..i]) && FractionPart(s[i..j]) && ExponentPart(s[j..])
  }

  lemma DigitsAre(s: seq<byte>, n: nat)
    requires n <= |s| && AllDigits(s[..n]) && (n < |s| ==> !IsDigit(s[n]))
    ensures Digits(s) == n
  {
    assert forall k :: 0 <= k < n ==> s[..n][k] == s[k];
  }

  lemma IntegerEndIff(s: seq<byte>, i: nat)
    requires i <= |s| && (i < |s| ==> !IsDigit(s[i]))
    ensures IntegerPart(s[..i]) ==> IntegerEnd(s) == i
    ensures IntegerEnd(s) == i > 0 ==> IntegerPart(s[..i])
  {
    if i > 0 {
      var sign := if s[0] == 0x2D then 1 else 0;
      assert s[..i][0] == s[0] && s[..i][sign..] == s[sign..i];
      if IntegerPart(s[..i]) {
        assert s[sign..][..i - sign] == s[sign..i];
        DigitsAre(s[sign..], i - sign);
      }
      if IntegerEnd(s) == i {
        assert i > sign && forall k :: 0 <= k < i - sign ==> s[sign..i][k] == s[sign..][k];
      }
    }
  }

  lemma FractionEndIff(s: seq<byte>, i: nat, j: nat)
    requires i <= j <= |s| && (j < |s| ==> !IsDigit(s[j]) && s[j] != 0x2E)
    ensures FractionEnd(s, i) == j <==> FractionPart(s[i..j])
  {
    if i < j {
      assert s[i..j][0] == s[i] && s[i..j][1..] == s[i + 1..j] == s[i + 1..][..j - i - 1];
      if FractionPart(s[i..j]) {
        DigitsAre(s[i + 1..], j - i - 1);
      }
    }
  }

  lemma SignedDigitsIff(s: seq<byte>)
    ensures SignedDigits(s) == |s| > 0 <==> SignedPart(s)
  {
    var sign := if s != [] && (s[0] == 0x2B || s[0] == 0x2D) then 1 else 0;
    var digits := s[sign..];
    if AllDigits(digits) {
      assert digits[..|digits|] == digits;
      DigitsAre(digits, |digits|);
    }
  }

  lemma ExponentEndIff(s: seq<byte>, j: nat)
    requires j <= |s|
    ensures ExponentEnd(s, j) == |s| <==> ExponentPart(s[j..])
  {
    if j < |s| {
      assert s[j..][0] == s[j] && s[j..][1..] == s[j + 1..];
      SignedDigitsIff(s[j + 1..]);
    }
  }

  /** IsNumber is the grammar of section 6 of RFC 8259. */
  lemma {:induction false} NumberGrammar(s: seq<byte>)
    ensures IsNumber(s) <==> exists i: nat, j: nat :: NumberParts(s, i, j)
  {
    if IsNumber(s) {
      var i := IntegerEnd(s);
      var j := FractionEnd(s, i);
      assert j < |s| ==> s[j] == 0x65 || s[j] == 0x45;
      assert i < j ==> s[i] == 0x2E;
      hide IntegerEnd, FractionEnd, ExponentEnd, IntegerPart, FractionPart, ExponentPart;
      IntegerEndIff(s, i);
      FractionEndIff(s, i, j);
      ExponentEndIff(s, j);
      assert NumberParts(s, i, j);
    }
    forall i: nat, j: nat | NumberParts(s, i, j)
      ensures IsNumber(s)
    {
      PartsMakeNumber(s, i, j);
    }
  }

  lemma PartsMakeNumber(s: seq<byte>, i: nat, j: nat)
    requires NumberParts(s, i, j)
    ensures IsNumber(s)
  {
    assert j < |s| ==> s[j] == s[j..][0];
    assert i < j ==> s[i] == s[i..j][0];
    assert i > 0;
    hide IntegerEnd, FractionEnd, ExponentEnd, IntegerPart, FractionPart;
    IntegerEndIff(s, i);
    FractionEndIff(s, i, j);
    ExponentEndIff(s, j);
  }

  /** What may follow a value inside a list or a record, or at the end. */
  predicate Delimited(rest: seq<byte>) {
    rest == [] || rest[0] == COMMA || rest[0] == CLOSE_BRACE || rest[0] == CLOSE_BRACKET
  }

  lemma {:induction false} DigitsStop(s: seq<byte>, rest: seq<byte>)
    requires rest == [] || !IsDigit(rest[0])
    ensures Digits(s + rest) == Digits(s)
  {
    if s == [] {
      assert s + rest == rest;
    } else if IsDigit(s[0]) {
      assert (s + rest)[1..] == s[1..] + rest;
      DigitsStop(s[1..], rest);
    }
  }

  lemma IntegerStops(s: seq<byte>, rest: seq<byte>)
    requires Delimited(rest) && s != []
    ensures IntegerEnd(s + rest) == IntegerEnd(s)
  {
    var sign := if s[0] == 0x2D then 1 else 0;
    assert (s + rest)[sign..] == s[sign..] + rest;
    DigitsStop(s[sign..], rest);
  }

  lemma FractionStops(s: seq<byte>, i: nat, rest: seq<byte>)
    requires Delimited(rest) && i <= |s|
    ensures FractionEnd(s + rest, i) == FractionEnd(s, i)
  {
    if i < |s| {
      assert (s + rest)[i + 1..] == s[i + 1..] + rest;
      DigitsStop(s[i + 1..], rest);
    }
  }

  lemma SignedDigitsStop(s: seq<byte>, rest: seq<byte>)
    requires Delimited(rest)
    ensures SignedDigits(s + rest) == SignedDigits(s)
  {
    var sign := if s != [] && (s[0] == 0x2B || s[0] == 0x2D) then 1 else 0;
    assert (s + rest)[sign..] == s[sign..] + rest;
    DigitsStop(s[sign..], rest);
  }

  lemma ExponentStops(s: seq<byte>, i: nat, rest: seq<byte>)
    requires Delimited(rest) && i <= |s|
    ensures ExponentEnd(s + rest, i) == ExponentEnd(s, i)
  {
    hide SignedDigits;
    if i < |s| {
      assert (s + rest)[i + 1..] == s[i + 1..] + rest;
      SignedDigitsStop(s[i + 1..], rest);
    }
  }

  lemma NumberStops(s: seq<byte>, rest: seq<byte>)
    requires Delimited(rest) && s != []
    ensures NumberLength(s + rest) == NumberLength(s)
  {
    IntegerStops(s, rest);
    var i := IntegerEnd(s);
    FractionStops(s, i, rest);
    ExponentStops(s, FractionEnd(s, i), rest);
  }

  /** Decimal digits without leading zeros. */
  function Decimal(n: nat): (s: seq<byte>)
    ensures s != [] && Digits(s) == |s|
    ensures s[0] == 0x30 ==> n == 0 && |s| == 1
  {
    if n < 10 then [(0x30 + n) as byte]
    else
      var front, last := Decimal(n / 10), [(0x30 + n % 10) as byte];
      DigitsJoin(front, last);
      front + last
  }

  lemma {:induction false} DigitsJoin(s: seq<byte>, t: seq<byte>)
    requires Digits(s) == |s|
    ensures Digits(s + t) == |s| + Digits(t)
  {
    if s == [] {
      assert s + t == t;
    } else {
      assert (s + t)[1..] == s[1..] + t;
      DigitsJoin(s[1..], t);
    }
  }

  function FormatInteger(v: int): seq<byte> {
    if v < 0 then [0x2D] + Decimal(-v) else Decimal(v)
  }

  lemma FormattedIsNumber(v: int)
    ensures IsNumber(FormatInteger(v))
  {
    var s := FormatInteger(v);
    var digits := if v < 0 then Decimal(-v) else Decimal(v);
    assert s[(if v < 0 then 1 else 0)..] == digits;
  }

  /** The number a string of decimal digits stands for. */
  function NaturalOf(s: seq<byte>): nat
    requires Digits(s) == |s|
  {
    if s == [] then 0
    else
      DigitsInit(s);
      NaturalOf(s[..|s| - 1]) * 10 + (s[|s| - 1] as int - 0x30)
  }

  lemma {:induction false} DigitsInit(s: seq<byte>)
    requires s != [] && Digits(s) == |s|
    ensures Digits(s[..|s| - 1]) == |s| - 1 && IsDigit(s[|s| - 1])
  {
    assert s[|s| - 1] == s[..][|s| - 1];
    if |s| > 1 {
      assert s[..|s| - 1][1..] == s[1..][..|s| - 2];
      DigitsInit(s[1..]);
    }
  }

  lemma {:induction false} DecimalReadsBack(n: nat)
    ensures NaturalOf(Decimal(n)) == n
  {
    if n < 10 {
      assert Decimal(n)[..0] == [];
    } else {
      DecimalReadsBack(n / 10);
      var s := Decimal(n);
      assert s[..|s| - 1] == Decimal(n / 10);
    }
  }

  /** A formatted integer is its sign and the digits of its magnitude. */
  lemma FormattedReadsBack(v: int)
    ensures var s := FormatInteger(v);
            if v < 0 then s[0] == 0x2D && Digits(s[1..]) == |s| - 1 && NaturalOf(s[1..]) == -v
            else Digits(s) == |s| && NaturalOf(s) == v
  {
    if v < 0 {
      DecimalReadsBack(-v);
      assert FormatInteger(v)[1..] == Decimal(-v);
    } else {
      DecimalReadsBack(v);
    }
  }

  // ---- Values (sections 3 to 5) -------------------------------------------

  function ParseLiteral(s: seq<byte>): (r: Option<Parsed<Tree>>)
    ensures r.Some? ==> |r.value.rest| < |s|
  {
    if TRUE <= s then Some(Parsed(Boolean(true), s[4..]))
    else if FALSE <= s then Some(Parsed(Boolean(false), s[5..]))
    else if NULL <= s then Some(Parsed(Null, s[4..]))
    else if NumberLength(s) > 0 then Some(Parsed(Number(s[..NumberLength(s)]), s[NumberLength(s)..]))
    else None
  }

  function ParseValue(text: seq<byte>): (r: Option<Parsed<Tree>>)
    ensures r.Some? ==> |r.value.rest| < |text|
    decreases |text|, 1
  {
    var s := SkipSpace(text);
    if s == [] then None
    else if s[0] == QUOTE then
      match StringBody(s[1..])
      case None => None
      case Some((v, rest)) => Some(Parsed(Text(v), rest))
    else if s[0] == OPEN_BRACKET then
      var t := SkipSpace(s[1..]);
      if t != [] && t[0] == CLOSE_BRACKET then Some(Parsed(List([]), t[1..]))
      else
        match ParseItems(t)
        case None => None
        case Some(p) => Some(Parsed(List(p.value), p.rest))
    else if s[0] == OPEN_BRACE then
      var t := SkipSpace(s[1..]);
      if t != [] && t[0] == CLOSE_BRACE then Some(Parsed(Record([]), t[1..]))
      else
        match ParseMembers(t)
        case None => None
        case Some(p) => Some(Parsed(Record(p.value), p.rest))
    else ParseLiteral(s)
  }

  /** One or more items up to the closing bracket. */
  function ParseItems(text: seq<byte>): (r: Option<Parsed<seq<Tree>>>)
    ensures r.Some? ==> |r.value.rest| < |text|
    decreases |text|, 2
  {
    match ParseValue(text)
    case None => None
    case Some(p) =>
      var s := SkipSpace(p.rest);
      if s != [] && s[0] == CLOSE_BRACKET then Some(Parsed([p.value], s[1..]))
      else if s != [] && s[0] == COMMA then
        match ParseItems(s[1..])
        case None => None
        case Some(more) => Some(Parsed([p.value] + more.value, more.rest))
      else None
  }

  function ParseMember(text: seq<byte>): (r: Option<Parsed<Member>>)
    ensures r.Some? ==> |r.value.rest| < |text|
    decreases |text|, 2
  {
    var s := SkipSpace(text);
    if s == [] || s[0] != QUOTE then None
    else
      match StringBody(s[1..])
      case None => None
      case Some((name, after)) =>
        var t := SkipSpace(after);
        if t == [] || t[0] != COLON then None
        else
          match ParseValue(t[1..])
          case None => None
          case Some(p) => Some(Parsed(Member(name, p.value), p.rest))
  }

  /** One or more members up to the closing brace. */
  function ParseMembers(text: seq<byte>): (r: Option<Parsed<seq<Member>>>)
    ensures r.Some? ==> |r.value.rest| < |text|
    decreases |text|, 3
  {
    match ParseMember(text)
    case None => None
    case Some(p) =>
      var s := SkipSpace(p.rest);
      if s != [] && s[0] == CLOSE_BRACE then Some(Parsed([p.value], s[1..]))
      else if s != [] && s[0] == COMMA then
        match ParseMembers(s[1..])
        case None => None
        case Some(more) => Some(Parsed([p.value] + more.value, more.rest))
      else None
  }

  /** A whole document: one value and nothing after it. */
  function ParseDocument(text: seq<byte>): Option<Tree> {
    match ParseValue(text)
    case None => None
    case Some(p) => if SkipSpace(p.rest) == [] then Some(p.value) else None
  }

  // ---- Texts that are read as a given value -------------------------------

  /** Wherever a value may stand, the text is read as this one, to its last byte. */
  ghost predicate Denotes(text: seq<byte>, tree: Tree) {
    forall rest :: Delimited(rest) ==> ParseValue(text + rest) == Some(Parsed(tree, rest))
  }

  ghost predicate DenotesMember(text: seq<byte>, member: Member) {
    forall rest :: Delimited(rest) ==> ParseMember(text + rest) == Some(Parsed(member, rest))
  }

  /** Texts with a comma between each two. */
  function Joined(texts: seq<seq<byte>>): seq<byte> {
    if texts == [] then [] else if |texts| == 1 then texts[0] else texts[0] + [COMMA] + Joined(texts[1..])
  }

  lemma LiteralDenotes(text: seq<byte>, tree: Tree)
    requires || (text == TRUE && tree == Boolean(true))
             || (text == FALSE && tree == Boolean(false))
             || (text == NULL && tree == Null)
    ensures Denotes(text, tree)
  {
    hide NumberLength, StringBody, ParseItems, ParseMembers;
    forall rest | Delimited(rest)
      ensures ParseValue(text + rest) == Some(Parsed(tree, rest))
    {
      var s := text + rest;
      assert s[..|text|] == text && s[|text|..] == rest;
      assert SkipSpace(s) == s;
      if text == TRUE {
        assert TRUE <= s;
      } else if text == FALSE {
        assert FALSE <= s && s[0] != TRUE[0];
      } else {
        assert NULL <= s && s[0] != TRUE[0] && s[0] != FALSE[0];
      }
    }
  }

  lemma NumberStart(s: seq<byte>)
    requires NumberLength(s) > 0
    ensures s[0] == 0x2D || IsDigit(s[0])
  {
  }

  lemma NumberIsRead(s: seq<byte>)
    requires NumberLength(s) > 0
    ensures ParseValue(s) == Some(Parsed(Number(s[..NumberLength(s)]), s[NumberLength(s)..]))
  {
    NumberStart(s);
    hide NumberLength, StringBody, ParseItems, ParseMembers;
    assert SkipSpace(s) == s;
    assert s[0] != TRUE[0] && s[0] != FALSE[0] && s[0] != NULL[0];
  }

  lemma {:induction false} NumberDenotes(text: seq<byte>)
    requires IsNumber(text)
    ensures Denotes(text, Number(text))
  {
    hide NumberLength, ParseValue;
    forall rest | Delimited(rest)
      ensures ParseValue(text + rest) == Some(Parsed(Number(text), rest))
    {
      NumberStops(text, rest);
      NumberIsRead(text + rest);
      assert (text + rest)[..|text|] == text && (text + rest)[|text|..] == rest;
    }
  }

  function Quoted(s: seq<byte>): seq<byte> {
    [QUOTE] + Escaped(s) + [QUOTE]
  }

  lemma QuotedIsRead(s: seq<byte>, rest: seq<byte>)
    ensures StringBody((Quoted(s) + rest)[1..]) == Some((Repaired(s), rest))
  {
    hide StringBody, Escaped, Repaired;
    EscapedReadsBack(s, rest);
    assert (Quoted(s) + rest)[1..] == Escaped(s) + [QUOTE] + rest;
  }

  lemma QuotedDenotes(s: seq<byte>)
    ensures Denotes(Quoted(s), Text(Repaired(s)))
  {
    hide StringBody, Escaped, Repaired, ParseItems, ParseMembers, ParseLiteral;
    forall rest | Delimited(rest)
      ensures ParseValue(Quoted(s) + rest) == Some(Parsed(Text(Repaired(s)), rest))
    {
      QuotedIsRead(s, rest);
      assert (Quoted(s) + rest)[0] == QUOTE;
      hide Quoted, Delimited;
      assert SkipSpace(Quoted(s) + rest) == Quoted(s) + rest;
    }
  }

  lemma MemberDenotes(name: seq<byte>, text: seq<byte>, tree: Tree)
    requires Denotes(text, tree)
    ensures DenotesMember(Quoted(name) + [COLON] + text, Member(Repaired(name), tree))
  {
    hide StringBody, Escaped, Repaired, ParseValue;
    forall rest | Delimited(rest)
      ensures ParseMember(Quoted(name) + [COLON] + text + rest) == Some(Parsed(Member(Repaired(name), tree), rest))
    {
      assert ParseValue(text + rest) == Some(Parsed(tree, rest));
      MemberIsRead(name, text, rest);
    }
  }

  lemma MemberIsRead(name: seq<byte>, text: seq<byte>, rest: seq<byte>)
    requires ParseValue(text + rest).Some?
    ensures ParseMember(Quoted(name) + [COLON] + text + rest)
              == Some(Parsed(Member(Repaired(name), ParseValue(text + rest).value.value), ParseValue(text + rest).value.rest))
  {
    hide StringBody, Escaped, Repaired, ParseValue;
    var after := [COLON] + (text + rest);
    QuotedIsRead(name, after);
    var s := Quoted(name) + after;
    assert Quoted(name) + [COLON] + text + rest == s;
    assert s[0] == QUOTE && SkipSpace(s) == s;
    assert SkipSpace(after) == after && after[1..] == text + rest;
  }

  lemma {:induction false} ItemsAreRead(texts: seq<seq<byte>>, trees: seq<Tree>, rest: seq<byte>)
    requires |texts| == |trees| > 0
    requires forall i :: 0 <= i < |texts| ==> Denotes(texts[i], trees[i])
    ensures ParseItems(Joined(texts) + [CLOSE_BRACKET] + rest) == Some(Parsed(trees, rest))
  {
    hide ParseValue;
    if |texts| == 1 {
      var after := [CLOSE_BRACKET] + rest;
      assert Joined(texts) + [CLOSE_BRACKET] + rest == texts[0] + after;
      assert Denotes(texts[0], trees[0]) && Delimited(after);
      assert SkipSpace(after) == after && after[1..] == rest;
      assert [trees[0]] == trees;
    } else {
      var more := Joined(texts[1..]) + [CLOSE_BRACKET] + rest;
      var after := [COMMA] + more;
      assert Joined(texts) + [CLOSE_BRACKET] + rest == texts[0] + after;
      assert Denotes(texts[0], trees[0]) && Delimited(after);
      assert SkipSpace(after) == after && after[1..] == more;
      ItemsAreRead(texts[1..], trees[1..], rest);
      assert [trees[0]] + trees[1..] == trees;
    }
  }

  lemma {:induction false} MembersAreRead(texts: seq<seq<byte>>, members: seq<Member>, rest: seq<byte>)
    requires |texts| == |members| > 0
    requires forall i :: 0 <= i < |texts| ==> DenotesMember(texts[i], members[i])
    ensures ParseMembers(Joined(texts) + [CLOSE_BRACE] + rest) == Some(Parsed(members, rest))
  {
    hide ParseMember;
    if |texts| == 1 {
      var after := [CLOSE_BRACE] + rest;
      assert Joined(texts) + [CLOSE_BRACE] + rest == texts[0] + after;
      assert DenotesMember(texts[0], members[0]) && Delimited(after);
      assert SkipSpace(after) == after && after[1..] == rest;
      assert [members[0]] == members;
    } else {
      var more := Joined(texts[1..]) + [CLOSE_BRACE] + rest;
      var after := [COMMA] + more;
      assert Joined(texts) + [CLOSE_BRACE] + rest == texts[0] + after;
      assert DenotesMember(texts[0], members[0]) && Delimited(after);
      assert SkipSpace(after) == after && after[1..] == more;
      MembersAreRead(texts[1..], members[1..], rest);
      assert [members[0]] + members[1..] == members;
    }
  }

  function Bracketed(texts: seq<seq<byte>>): seq<byte> {
    [OPEN_BRACKET] + Joined(texts) + [CLOSE_BRACKET]
  }

  function Braced(texts: seq<seq<byte>>): seq<byte> {
    [OPEN_BRACE] + Joined(texts) + [CLOSE_BRACE]
  }

  /** A text that starts with a value does not start with a closing bracket. */
  lemma ValueDoesNotClose(s: seq<byte>)
    requires ParseValue(s).Some?
    ensures var t := SkipSpace(s); t != [] && t[0] != CLOSE_BRACKET
  {
    hide StringBody, ParseItems, ParseMembers;
    var t := SkipSpace(s);
    if t != [] && t[0] == CLOSE_BRACKET && NumberLength(t) > 0 {
      NumberStart(t);
    }
  }

  lemma {:induction false} SkippingIsIdempotent(s: seq<byte>)
    ensures SkipSpace(SkipSpace(s)) == SkipSpace(s)
    ensures ParseValue(SkipSpace(s)) == ParseValue(s)
  {
    hide StringBody, ParseItems, ParseMembers, ParseLiteral;
    if s != [] && (s[0] == 0x20 || s[0] == 0x09 || s[0] == 0x0A || s[0] == 0x0D) {
      SkippingIsIdempotent(s[1..]);
    }
  }

  /** Leading space changes nothing for a list's items. */
  lemma ItemsSkipSpace(s: seq<byte>)
    requires ParseItems(s).Some?
    ensures ParseItems(SkipSpace(s)) == ParseItems(s)
    ensures SkipSpace(s) != [] && SkipSpace(s)[0] != CLOSE_BRACKET
  {
    ValueDoesNotClose(s);
    SkippingIsIdempotent(s);
    hide ParseValue;
  }

  lemma MembersSkipSpace(s: seq<byte>)
    requires ParseMembers(s).Some?
    ensures ParseMembers(SkipSpace(s)) == ParseMembers(s)
    ensures SkipSpace(s) != [] && SkipSpace(s)[0] != CLOSE_BRACE
  {
    hide ParseValue, StringBody;
    SkippingIsIdempotent(s);
    assert ParseMember(SkipSpace(s)) == ParseMember(s);
    assert SkipSpace(s)[0] == QUOTE;
    hide ParseMember;
  }

  lemma ListIsRead(t: seq<byte>)
    requires ParseItems(t).Some?
    ensures ParseValue([OPEN_BRACKET] + t) == Some(Parsed(List(ParseItems(t).value.value), ParseItems(t).value.rest))
  {
    ItemsSkipSpace(t);
    hide ParseItems, ParseMembers, StringBody, ParseLiteral;
    var s := [OPEN_BRACKET] + t;
    assert s[0] == OPEN_BRACKET && s[1..] == t && SkipSpace(s) == s;
  }

  lemma RecordIsRead(t: seq<byte>)
    requires ParseMembers(t).Some?
    ensures ParseValue([OPEN_BRACE] + t) == Some(Parsed(Record(ParseMembers(t).value.value), ParseMembers(t).value.rest))
  {
    MembersSkipSpace(t);
    hide ParseItems, ParseMembers, StringBody, ParseLiteral;
    var s := [OPEN_BRACE] + t;
    assert s[0] == OPEN_BRACE && s[1..] == t && SkipSpace(s) == s;
  }

  lemma EmptyIsRead(rest: seq<byte>)
    ensures ParseValue([OPEN_BRACKET, CLOSE_BRACKET] + rest) == Some(Parsed(List([]), rest))
    ensures ParseValue([OPEN_BRACE, CLOSE_BRACE] + rest) == Some(Parsed(Record([]), rest))
  {
    hide ParseItems, ParseMembers, StringBody, ParseLiteral;
    var s, t := [OPEN_BRACKET, CLOSE_BRACKET] + rest, [OPEN_BRACE, CLOSE_BRACE] + rest;
    assert SkipSpace(s) == s && s[1..] == [CLOSE_BRACKET] + rest && SkipSpace(s[1..]) == s[1..] && s[1..][1..] == rest;
    assert SkipSpace(t) == t && t[1..] == [CLOSE_BRACE] + rest && SkipSpace(t[1..]) == t[1..] && t[1..][1..] == rest;
  }

  /** A list of texts that denote values denotes the list of those values. */
  lemma BracketedDenotes(texts: seq<seq<byte>>, trees: seq<Tree>)
    requires |texts| == |trees| && forall i :: 0 <= i < |texts| ==> Denotes(texts[i], trees[i])
    ensures Denotes(Bracketed(texts), List(trees))
  {
    hide ParseValue, ParseItems, Denotes;
    forall rest | Delimited(rest)
      ensures ParseValue(Bracketed(texts) + rest) == Some(Parsed(List(trees), rest))
    {
      if texts == [] {
        EmptyIsRead(rest);
        assert Bracketed(texts) + rest == [OPEN_BRACKET, CLOSE_BRACKET] + rest && trees == [];
      } else {
        ItemsAreRead(texts, trees, rest);
        ListIsRead(Joined(texts) + [CLOSE_BRACKET] + rest);
        assert Bracketed(texts) + rest == [OPEN_BRACKET] + (Joined(texts) + [CLOSE_BRACKET] + rest);
      }
    }
    DenotesIntro(Bracketed(texts), List(trees));
  }

  lemma DenotesIntro(text: seq<byte>, tree: Tree)
    requires forall rest :: Delimited(rest) ==> ParseValue(text + rest) == Some(Parsed(tree, rest))
    ensures Denotes(text, tree)
  {
    hide ParseValue, Delimited;
  }

  lemma BracedDenotes(texts: seq<seq<byte>>, members: seq<Member>)
    requires |texts| == |members| && forall i :: 0 <= i < |texts| ==> DenotesMember(texts[i], members[i])
    ensures Denotes(Braced(texts), Record(members))
  {
    hide ParseValue, ParseMembers, Denotes, DenotesMember;
    forall rest | Delimited(rest)
      ensures ParseValue(Braced(texts) + rest) == Some(Parsed(Record(members), rest))
    {
      if texts == [] {
        EmptyIsRead(rest);
        assert Braced(texts) + rest == [OPEN_BRACE, CLOSE_BRACE] + rest && members == [];
      } else {
        MembersAreRead(texts, members, rest);
        RecordIsRead(Joined(texts) + [CLOSE_BRACE] + rest);
        assert Braced(texts) + rest == [OPEN_BRACE] + (Joined(texts) + [CLOSE_BRACE] + rest);
      }
    }
    DenotesIntro(Braced(texts), Record(members));
  }

  lemma DenotedIsDocument(text: seq<byte>, tree: Tree)
    requires Denotes(text, tree)
    ensures ParseDocument(text) == Some(tree)
  {
    hide ParseValue;
    assert Delimited([]) && text + [] == text;
    assert ParseValue(text + []) == Some(Parsed(tree, []));
  }
}
