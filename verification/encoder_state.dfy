// What the encoders print for a run of tokens (log/field_encoder.go).
module EncoderStates {
  import opened Options
  import opened Utf8
  import opened LogStrings
  import opened JsonTexts
  import opened LogFields

  datatype TokenType = Unknown | BegunObject | EndedObject | BegunArray | EndedArray | AKey | AValue

  predicate NeedsComma(last: TokenType) {
    last == EndedObject || last == EndedArray || last == AValue
  }

  function Separator(last: TokenType): seq<byte> {
    if NeedsComma(last) then [COMMA] else []
  }

  datatype JsonState = JsonState(out: seq<byte>, last: TokenType)

  function FeedJson(st: JsonState, t: Token): JsonState {
    match t
    case ObjectBegin => JsonState(st.out + Separator(st.last) + [OPEN_BRACE], BegunObject)
    case ObjectEnd => JsonState(st.out + [CLOSE_BRACE], EndedObject)
    case ArrayBegin => JsonState(st.out + Separator(st.last) + [OPEN_BRACKET], BegunArray)
    case ArrayEnd => JsonState(st.out + [CLOSE_BRACKET], EndedArray)
    case Key(key) => JsonState(st.out + Separator(st.last) + Quoted(key) + [COLON], AKey)
    case Scalar(v) => JsonState(st.out + Separator(st.last) + ScalarText(v), AValue)
  }

  function FeedAllJson(st: JsonState, ts: seq<Token>): JsonState
    decreases |ts|
  {
    if ts == [] then st else FeedAllJson(FeedJson(st, ts[0]), ts[1..])
  }

  lemma {:induction false} FeedJsonAppend(st: JsonState, a: seq<Token>, b: seq<Token>)
    ensures FeedAllJson(st, a + b) == FeedAllJson(FeedAllJson(st, a), b)
    decreases |a|
  {
    hide FeedJson;
    if a == [] {
      assert a + b == b;
    } else {
      assert (a + b)[1..] == a[1..] + b;
      FeedJsonAppend(FeedJson(st, a[0]), a[1..], b);
    }
  }

  lemma FeedJsonOne(st: JsonState, t: Token)
    ensures FeedAllJson(st, [t]) == FeedJson(st, t)
  {
    assert [t][1..] == [];
  }

  lemma {:induction false} JoinedConcat(a: seq<seq<byte>>, b: seq<seq<byte>>)
    requires a != [] && b != []
    ensures Joined(a + b) == Joined(a) + [COMMA] + Joined(b)
  {
    if |a| == 1 {
      assert (a + b)[1..] == b;
    } else {
      assert (a + b)[1..] == a[1..] + b;
      JoinedConcat(a[1..], b);
      assert Joined(a + b) == a[0] + [COMMA] + (Joined(a[1..]) + [COMMA] + Joined(b));
      assert Joined(a) == a[0] + [COMMA] + Joined(a[1..]);
    }
  }

  /** From st, the encoder has printed the texts as a list, and after any text the next needs a comma. */
  predicate PrintedList(st: JsonState, texts: seq<seq<byte>>, st': JsonState) {
    if texts == [] then st' == st
    else st'.out == st.out + Separator(st.last) + Joined(texts) && NeedsComma(st'.last)
  }

  lemma ListsJoin(st: JsonState, a: seq<seq<byte>>, mid: JsonState, b: seq<seq<byte>>, end: JsonState)
    requires PrintedList(st, a, mid) && PrintedList(mid, b, end)
    ensures PrintedList(st, a + b, end)
  {
    if a == [] {
      assert a + b == b;
    } else if b == [] {
      assert a + b == a;
    } else {
      JoinedConcat(a, b);
      assert end.out == st.out + Separator(st.last) + (Joined(a) + [COMMA] + Joined(b));
    }
  }

  lemma EnclosedPrints(st: JsonState, inner: seq<Token>, texts: seq<seq<byte>>, isList: bool)
    requires var begun := FeedJson(st, if isList then ArrayBegin else ObjectBegin);
             PrintedList(begun, texts, FeedAllJson(begun, inner))
    ensures var st' := FeedAllJson(st, (if isList then [ArrayBegin] else [ObjectBegin]) + inner
                                       + (if isList then [ArrayEnd] else [ObjectEnd]));
            && st'.out == st.out + Separator(st.last) + (if isList then Bracketed(texts) else Braced(texts))
            && NeedsComma(st'.last)
  {
    var b, e := if isList then ArrayBegin else ObjectBegin, if isList then ArrayEnd else ObjectEnd;
    var begun := FeedJson(st, b);
    FeedJsonAppend(st, [b] + inner, [e]);
    FeedJsonAppend(st, [b], inner);
    FeedJsonOne(st, b);
    FeedJsonOne(FeedAllJson(begun, inner), e);
    hide FeedAllJson;
  }

  /**
   * Whatever came before, a value is printed as its canonical text, with a comma before it
   * exactly if the last token calls for one.
   */
  lemma {:induction false} ValueIsPrinted(st: JsonState, v: Value)
    ensures PrintedList(st, [ValueText(v)], FeedAllJson(st, ValueTokens(v)))
    decreases v
  {
    hide FeedAllJson;
    match v
    case Array(items) =>
      ItemsArePrinted(FeedJson(st, ArrayBegin), items);
      EnclosedPrints(st, ItemsTokens(items), ItemTexts(items), true);
    case Object(fields) =>
      FieldsArePrinted(FeedJson(st, ObjectBegin), fields);
      EnclosedPrints(st, FieldsTokens(fields), MemberTexts(fields), false);
    case _ =>
      FeedJsonOne(st, Scalar(v));
  }

  lemma {:induction false} ItemsArePrinted(st: JsonState, items: seq<Value>)
    ensures PrintedList(st, ItemTexts(items), FeedAllJson(st, ItemsTokens(items)))
    decreases items
  {
    if items != [] {
      hide PrintedList, FeedJson;
      var mid := FeedAllJson(st, ValueTokens(items[0]));
      ValueIsPrinted(st, items[0]);
      ItemsArePrinted(mid, items[1..]);
      FeedJsonAppend(st, ValueTokens(items[0]), ItemsTokens(items[1..]));
      ListsJoin(st, [ValueText(items[0])], mid, ItemTexts(items[1..]), FeedAllJson(mid, ItemsTokens(items[1..])));
    }
  }

  lemma {:induction false} FieldsArePrinted(st: JsonState, fields: seq<Field>)
    ensures PrintedList(st, MemberTexts(fields), FeedAllJson(st, FieldsTokens(fields)))
    decreases fields
  {
    if fields != [] {
      hide PrintedList, FeedJson, FieldTokens;
      var mid := FeedAllJson(st, FieldTokens(fields[0]));
      FieldIsPrinted(st, fields[0]);
      FieldsArePrinted(mid, fields[1..]);
      FeedJsonAppend(st, FieldTokens(fields[0]), FieldsTokens(fields[1..]));
      ListsJoin(st, FieldTexts(fields[0]), mid, MemberTexts(fields[1..]), FeedAllJson(mid, FieldsTokens(fields[1..])));
    }
  }

  lemma {:induction false} FieldIsPrinted(st: JsonState, f: Field)
    ensures PrintedList(st, FieldTexts(f), FeedAllJson(st, FieldTokens(f)))
    decreases f
  {
    hide FeedAllJson;
    match f
    case Field(key, value) =>
      var keyed := FeedJson(st, Key(key));
      ValueIsPrinted(keyed, value);
      FeedJsonAppend(st, [Key(key)], ValueTokens(value));
      FeedJsonOne(st, Key(key));
    case FromMap(entries) => FieldsArePrinted(st, entries);
  }

  /** A log line: the fields between the encoder's begin and end. */
  function LineTokens(fields: seq<Field>): seq<Token> {
    [ObjectBegin] + FieldsTokens(fields) + [ObjectEnd]
  }

  /**
   * For every field tree a fresh JSON encoder prints one object, and reading it back by
   * RFC 8259 gives the same members and values in the same order.
   */
  lemma JsonLineReadsBack(fields: seq<Field>)
    requires PrintableFields(fields)
    ensures var line := FeedAllJson(JsonState([], Unknown), LineTokens(fields)).out;
            ParseDocument(line) == Some(Record(DenotedFields(fields)))
  {
    hide FeedAllJson, ParseDocument, PrintableFields, DenotedFields, Denoted, Denotes;
    var st := JsonState([], Unknown);
    FieldsArePrinted(FeedJson(st, ObjectBegin), fields);
    EnclosedPrints(st, FieldsTokens(fields), MemberTexts(fields), false);
    assert st.out + Separator(st.last) + Braced(MemberTexts(fields)) == Braced(MemberTexts(fields));
    LineDenotes(fields);
    DenotedIsDocument(Braced(MemberTexts(fields)), Record(DenotedFields(fields)));
  }

  lemma LineDenotes(fields: seq<Field>)
    requires PrintableFields(fields)
    ensures Denotes(Braced(MemberTexts(fields)), Record(DenotedFields(fields)))
  {
    hide DenotesMember, Braced, Denotes;
    MembersDenote(fields);
    BracedDenotes(MemberTexts(fields), DenotedFields(fields));
  }

  // ---- The text encoder ---------------------------------------------------

  /** The nesting counter is an int8. */
  function Int8(x: int): int {
    (x + 128) % 256 - 128
  }

  datatype TextState = TextState(out: seq<byte>, separator: seq<byte>, last: TokenType, depth: int, hasWritten: bool)

  function Inner(st: TextState): JsonState {
    JsonState(st.out, st.last)
  }

  function Delegated(st: TextState, t: Token): TextState {
    var inner := FeedJson(Inner(st), t);
    st.(out := inner.out, last := inner.last)
  }

  function Closed(st: TextState, t: Token): TextState {
    var done := Delegated(st.(depth := Int8(st.depth - 1)), t);
    if done.depth == 0 then done.(last := Unknown) else done
  }

  function FeedText(st: TextState, t: Token): TextState {
    match t
    case ObjectBegin => Delegated(st.(depth := Int8(st.depth + 1)), t)
    case ArrayBegin => Delegated(st.(depth := Int8(st.depth + 1)), t)
    case ObjectEnd => Closed(st, t)
    case ArrayEnd => Closed(st, t)
    case Key(key) =>
      if st.depth > 0 then Delegated(st, t)
      else st.(out := st.out + (if st.hasWritten then st.separator else []) + Escaped(key) + [EQUALS], hasWritten := true)
    case Scalar(v) =>
      if st.depth > 0 then Delegated(st, t) else st.(out := st.out + PlainText(v))
  }

  const EQUALS: byte := 0x3D

  function FeedAllText(st: TextState, ts: seq<Token>): TextState
    decreases |ts|
  {
    if ts == [] then st else FeedAllText(FeedText(st, ts[0]), ts[1..])
  }

  lemma {:induction false} FeedTextAppend(st: TextState, a: seq<Token>, b: seq<Token>)
    ensures FeedAllText(st, a + b) == FeedAllText(FeedAllText(st, a), b)
    decreases |a|
  {
    hide FeedText;
    if a == [] {
      assert a + b == b;
    } else {
      assert (a + b)[1..] == a[1..] + b;
      FeedTextAppend(FeedText(st, a[0]), a[1..], b);
    }
  }

  lemma FeedTextOne(st: TextState, t: Token)
    ensures FeedAllText(st, [t]) == FeedText(st, t)
  {
    assert [t][1..] == [];
  }

  lemma {:induction false} EnclosedFeeds(st: TextState, b: Token, inner: seq<Token>, e: Token)
    ensures FeedAllText(st, [b] + inner + [e]) == FeedText(FeedAllText(FeedText(st, b), inner), e)
  {
    hide FeedText;
    FeedTextAppend(st, [b] + inner, [e]);
    FeedTextAppend(st, [b], inner);
    FeedTextOne(st, b);
    FeedTextOne(FeedAllText(FeedText(st, b), inner), e);
  }

  /** How deep a token leads. */
  function Shift(d: int, t: Token): int {
    if t.ObjectBegin? || t.ArrayBegin? then d + 1 else if t.ObjectEnd? || t.ArrayEnd? then d - 1 else d
  }

  function ShiftAll(d: int, ts: seq<Token>): int
    decreases |ts|
  {
    if ts == [] then d else ShiftAll(Shift(d, ts[0]), ts[1..])
  }

  /** The tokens stay inside a structure and within what the counter can hold. */
  predicate Inside(d: int, ts: seq<Token>)
    decreases |ts|
  {
    1 <= d <= 127 && (ts == [] || Inside(Shift(d, ts[0]), ts[1..]))
  }

  lemma {:induction false} InsideAppend(d: int, a: seq<Token>, b: seq<Token>)
    requires Inside(d, a) && Inside(ShiftAll(d, a), b)
    ensures Inside(d, a + b) && ShiftAll(d, a + b) == ShiftAll(ShiftAll(d, a), b)
    decreases |a|
  {
    if a == [] {
      assert a + b == b;
    } else {
      assert (a + b)[1..] == a[1..] + b;
      InsideAppend(Shift(d, a[0]), a[1..], b);
    }
  }

  /** Inside a structure the text encoder is the JSON encoder, and counts. */
  lemma {:induction false} InsideIsJson(st: TextState, ts: seq<Token>)
    requires Inside(st.depth, ts)
    ensures var inner := FeedAllJson(Inner(st), ts);
            FeedAllText(st, ts) == st.(out := inner.out, last := inner.last, depth := ShiftAll(st.depth, ts))
    decreases |ts|
  {
    if ts != [] {
      var next := FeedText(st, ts[0]);
      assert 1 <= Shift(st.depth, ts[0]) <= 127;
      assert next == Delegated(st, ts[0]).(depth := Shift(st.depth, ts[0]));
      hide FeedText, FeedJson;
      InsideIsJson(next, ts[1..]);
    }
  }

  /** How many structures are nested in a value, itself included. */
  function Nesting(v: Value): nat {
    match v
    case Array(items) => 1 + NestingItems(items)
    case Object(fields) => 1 + NestingFields(fields)
    case _ => 0
  }

  function NestingItems(items: seq<Value>): nat {
    if items == [] then 0 else Max(Nesting(items[0]), NestingItems(items[1..]))
  }

  function NestingFields(fields: seq<Field>): nat {
    if fields == [] then 0 else Max(NestingField(fields[0]), NestingFields(fields[1..]))
  }

  function NestingField(f: Field): nat {
    match f
    case Field(_, value) => Nesting(value)
    case FromMap(entries) => NestingFields(entries)
  }

  function Max(a: nat, b: nat): nat {
    if a < b then b else a
  }

  ghost predicate Returns(d: int, ts: seq<Token>) {
    Inside(d, ts) && ShiftAll(d, ts) == d
  }

  lemma ReturnsAppend(d: int, a: seq<Token>, b: seq<Token>)
    requires Returns(d, a) && Returns(d, b)
    ensures Returns(d, a + b)
  {
    hide Inside, ShiftAll;
    InsideAppend(d, a, b);
  }

  lemma OneToken(d: int, t: Token)
    requires 1 <= d <= 127 && 1 <= Shift(d, t) <= 127
    ensures Inside(d, [t]) && ShiftAll(d, [t]) == Shift(d, t)
  {
    assert [t][1..] == [] && Inside(Shift(d, t), []) && ShiftAll(Shift(d, t), []) == Shift(d, t);
  }

  lemma EnclosedReturns(d: int, b: Token, inner: seq<Token>, e: Token)
    requires (b == ArrayBegin && e == ArrayEnd) || (b == ObjectBegin && e == ObjectEnd)
    requires 1 <= d && Returns(d + 1, inner)
    ensures Returns(d, [b] + inner + [e])
  {
    OneToken(d + 1, e);
    InsideAppend(d + 1, inner, [e]);
    var ts := [b] + inner + [e];
    assert ts[0] == b && ts[1..] == inner + [e];
  }

  lemma {:induction false} ValueReturns(d: int, v: Value)
    requires 1 <= d && d + Nesting(v) <= 127
    ensures Returns(d, ValueTokens(v))
    decreases v
  {
    match v
    case Array(items) =>
      ItemsReturn(d + 1, items);
      EnclosedReturns(d, ArrayBegin, ItemsTokens(items), ArrayEnd);
    case Object(fields) =>
      FieldsReturn(d + 1, fields);
      EnclosedReturns(d, ObjectBegin, FieldsTokens(fields), ObjectEnd);
    case _ => OneToken(d, Scalar(v));
  }

  lemma {:induction false} ItemsReturn(d: int, items: seq<Value>)
    requires 1 <= d && d + NestingItems(items) <= 127
    ensures Returns(d, ItemsTokens(items))
    decreases items
  {
    if items != [] {
      ValueReturns(d, items[0]);
      ItemsReturn(d, items[1..]);
      ReturnsAppend(d, ValueTokens(items[0]), ItemsTokens(items[1..]));
    }
  }

  lemma {:induction false} FieldsReturn(d: int, fields: seq<Field>)
    requires 1 <= d && d + NestingFields(fields) <= 127
    ensures Returns(d, FieldsTokens(fields))
    decreases fields
  {
    if fields != [] {
      FieldReturns(d, fields[0]);
      FieldsReturn(d, fields[1..]);
      ReturnsAppend(d, FieldTokens(fields[0]), FieldsTokens(fields[1..]));
    }
  }

  lemma {:induction false} FieldReturns(d: int, f: Field)
    requires 1 <= d && d + NestingField(f) <= 127
    ensures Returns(d, FieldTokens(f))
    decreases f
  {
    match f
    case Field(key, value) =>
      ValueReturns(d, value);
      OneToken(d, Key(key));
      ReturnsAppend(d, [Key(key)], ValueTokens(value));
    case FromMap(entries) => FieldsReturn(d, entries);
  }

  /** The deepest a run of tokens leads. */
  function Deepest(d: int, ts: seq<Token>): int
    decreases |ts|
  {
    if ts == [] then d
    else
      var rest := Deepest(Shift(d, ts[0]), ts[1..]);
      if rest > d then rest else d
  }

  lemma {:induction false} DeepestAppend(d: int, a: seq<Token>, b: seq<Token>)
    ensures ShiftAll(d, a + b) == ShiftAll(ShiftAll(d, a), b)
    ensures Deepest(d, a + b) ==
              (var first, second := Deepest(d, a), Deepest(ShiftAll(d, a), b); if second > first then second else first)
    ensures Deepest(d, a) >= ShiftAll(d, a)
    decreases |a|
  {
    if a == [] {
      assert a + b == b;
      StartsNoDeeper(d, b);
    } else {
      assert (a + b)[1..] == a[1..] + b;
      DeepestAppend(Shift(d, a[0]), a[1..], b);
    }
  }

  lemma StartsNoDeeper(d: int, ts: seq<Token>)
    ensures Deepest(d, ts) >= d
  {
  }

  lemma DeepestOne(d: int, t: Token)
    ensures ShiftAll(d, [t]) == Shift(d, t)
    ensures Deepest(d, [t]) == if Shift(d, t) > d then Shift(d, t) else d
  {
    assert [t][1..] == [];
  }

  lemma EnclosedDeepens(d: int, b: Token, inner: seq<Token>, e: Token, n: nat)
    requires (b == ArrayBegin && e == ArrayEnd) || (b == ObjectBegin && e == ObjectEnd)
    requires ShiftAll(d + 1, inner) == d + 1 && Deepest(d + 1, inner) == d + 1 + n
    ensures ShiftAll(d, [b] + inner + [e]) == d && Deepest(d, [b] + inner + [e]) == d + 1 + n
  {
    DeepestAppend(d, [b] + inner, [e]);
    DeepestAppend(d, [b], inner);
    DeepestOne(d, b);
    DeepestOne(d + 1, e);
    hide ShiftAll, Deepest;
  }

  /** The nesting of a value is how deep its tokens lead, and they lead back. */
  lemma {:induction false} NestingIsDepth(d: int, v: Value)
    ensures ShiftAll(d, ValueTokens(v)) == d && Deepest(d, ValueTokens(v)) == d + Nesting(v)
    decreases v
  {
    hide ShiftAll, Deepest;
    match v
    case Array(items) =>
      ItemsDepth(d + 1, items);
      EnclosedDeepens(d, ArrayBegin, ItemsTokens(items), ArrayEnd, NestingItems(items));
    case Object(fields) =>
      FieldsDepth(d + 1, fields);
      EnclosedDeepens(d, ObjectBegin, FieldsTokens(fields), ObjectEnd, NestingFields(fields));
    case _ => DeepestOne(d, Scalar(v));
  }

  lemma NoTokensNoDepth(d: int)
    ensures ShiftAll(d, []) == d && Deepest(d, []) == d
  {
  }

  lemma {:induction false} ItemsDepth(d: int, items: seq<Value>)
    ensures ShiftAll(d, ItemsTokens(items)) == d && Deepest(d, ItemsTokens(items)) == d + NestingItems(items)
    decreases items
  {
    hide ShiftAll, Deepest;
    if items == [] {
      NoTokensNoDepth(d);
    } else {
      NestingIsDepth(d, items[0]);
      ItemsDepth(d, items[1..]);
      DeepestAppend(d, ValueTokens(items[0]), ItemsTokens(items[1..]));
    }
  }

  lemma {:induction false} FieldsDepth(d: int, fields: seq<Field>)
    ensures ShiftAll(d, FieldsTokens(fields)) == d && Deepest(d, FieldsTokens(fields)) == d + NestingFields(fields)
    decreases fields
  {
    hide ShiftAll, Deepest;
    if fields == [] {
      NoTokensNoDepth(d);
    } else {
      FieldDepth(d, fields[0]);
      FieldsDepth(d, fields[1..]);
      DeepestAppend(d, FieldTokens(fields[0]), FieldsTokens(fields[1..]));
    }
  }

  lemma {:induction false} FieldDepth(d: int, f: Field)
    ensures ShiftAll(d, FieldTokens(f)) == d && Deepest(d, FieldTokens(f)) == d + NestingField(f)
    decreases f
  {
    hide ShiftAll, Deepest;
    match f
    case Field(key, value) =>
      NestingIsDepth(d, value);
      DeepestOne(d, Key(key));
      DeepestAppend(d, [Key(key)], ValueTokens(value));
    case FromMap(entries) => FieldsDepth(d, entries);
  }

  predicate AtTop(st: TextState) {
    st.depth == 0 && st.last == Unknown
  }

  lemma {:induction false} EnclosedAtTop(st: TextState, b: Token, inner: seq<Token>, e: Token)
    requires AtTop(st) && ((b == ArrayBegin && e == ArrayEnd) || (b == ObjectBegin && e == ObjectEnd))
    requires Returns(1, inner)
    ensures FeedAllText(st, [b] + inner + [e]) == st.(out := FeedAllJson(Inner(st), [b] + inner + [e]).out)
  {
    var begun := FeedText(st, b);
    assert begun == Delegated(st, b).(depth := 1);
    assert Inner(begun) == FeedJson(Inner(st), b);
    InsideIsJson(begun, inner);
    var mid := FeedAllText(begun, inner);
    assert FeedText(mid, e) == st.(out := FeedJson(Inner(mid), e).out);
    EnclosedFeeds(st, b, inner, e);
    FeedJsonAppend(Inner(st), [b] + inner, [e]);
    FeedJsonAppend(Inner(st), [b], inner);
    FeedJsonOne(Inner(st), b);
    FeedJsonOne(Inner(mid), e);
    hide FeedText, FeedJson, FeedAllText, FeedAllJson, Inside, ShiftAll;
  }

  /** What the text encoder prints for one value outside any structure. */
  function TopText(v: Value): seq<byte> {
    if IsScalar(v) then PlainText(v) else ValueText(v)
  }

  lemma StructureFeeds(st: TextState, v: Value)
    requires AtTop(st) && !IsScalar(v) && Nesting(v) <= 127
    ensures FeedAllText(st, ValueTokens(v)) == st.(out := FeedAllJson(Inner(st), ValueTokens(v)).out)
  {
    hide FeedAllText, FeedAllJson;
    match v
    case Array(items) =>
      ItemsReturn(1, items);
      EnclosedAtTop(st, ArrayBegin, ItemsTokens(items), ArrayEnd);
    case Object(fields) =>
      FieldsReturn(1, fields);
      EnclosedAtTop(st, ObjectBegin, FieldsTokens(fields), ObjectEnd);
  }

  lemma FreshJsonPrints(out: seq<byte>, v: Value)
    ensures FeedAllJson(JsonState(out, Unknown), ValueTokens(v)).out == out + ValueText(v)
  {
    ValueIsPrinted(JsonState(out, Unknown), v);
    assert Joined([ValueText(v)]) == ValueText(v);
    hide FeedAllJson, ValueText;
    assert out + [] + ValueText(v) == out + ValueText(v);
  }

  /**
   * Up to 127 levels deep, the text encoder prints a nested array or object byte for byte as
   * a fresh JSON encoder does, and is back at the top level afterwards.
   */
  lemma NestedIsPrintedAsJson(st: TextState, v: Value)
    requires AtTop(st) && Nesting(v) <= 127
    ensures FeedAllText(st, ValueTokens(v)) == st.(out := st.out + TopText(v))
    ensures !IsScalar(v) ==> TopText(v) == FeedAllJson(JsonState([], Unknown), ValueTokens(v)).out
  {
    hide FeedAllText, FeedAllJson, ValueText, Nesting, ValueTokens;
    if IsScalar(v) {
      ScalarFeeds(st, v);
    } else {
      StructureFeeds(st, v);
      FreshJsonPrints(st.out, v);
      FreshJsonPrints([], v);
      assert [] + ValueText(v) == ValueText(v);
    }
  }

  lemma ScalarFeeds(st: TextState, v: Value)
    requires AtTop(st) && IsScalar(v)
    ensures FeedAllText(st, ValueTokens(v)) == st.(out := st.out + PlainText(v))
  {
    hide PlainText;
    FeedTextOne(st, Scalar(v));
  }

  // ---- A whole line of text -----------------------------------------------

  /** The texts of a line's fields: key=value, with the key and a top-level string escaped. */
  function LineTexts(fields: seq<Field>): seq<seq<byte>> {
    if fields == [] then [] else LineTextsOf(fields[0]) + LineTexts(fields[1..])
  }

  function LineTextsOf(f: Field): seq<seq<byte>> {
    match f
    case Field(key, value) => [Escaped(key) + [EQUALS] + TopText(value)]
    case FromMap(entries) => LineTexts(entries)
  }

  /** The texts, each after a separator but the first if nothing has been written. */
  function Separated(hasWritten: bool, separator: seq<byte>, texts: seq<seq<byte>>): seq<byte>
    decreases |texts|
  {
    if texts == [] then [] else (if hasWritten then separator else []) + texts[0] + Separated(true, separator, texts[1..])
  }

  lemma {:induction false} SeparatedConcat(hasWritten: bool, separator: seq<byte>, a: seq<seq<byte>>, b: seq<seq<byte>>)
    ensures Separated(hasWritten, separator, a + b)
              == Separated(hasWritten, separator, a) + Separated(hasWritten || a != [], separator, b)
    decreases |a|
  {
    if a == [] {
      assert a + b == b;
    } else {
      assert (a + b)[1..] == a[1..] + b;
      SeparatedConcat(true, separator, a[1..], b);
    }
  }

  function Lined(st: TextState, texts: seq<seq<byte>>): TextState {
    st.(out := st.out + Separated(st.hasWritten, st.separator, texts), hasWritten := st.hasWritten || texts != [])
  }

  lemma LinedConcat(st: TextState, a: seq<seq<byte>>, b: seq<seq<byte>>)
    ensures Lined(Lined(st, a), b) == Lined(st, a + b)
  {
    SeparatedConcat(st.hasWritten, st.separator, a, b);
    hide Separated;
    assert Lined(Lined(st, a), b).out ==
           st.out + (Separated(st.hasWritten, st.separator, a) + Separated(st.hasWritten || a != [], st.separator, b));
  }

  /**
   * With values nested no deeper than 127, a line is its key=value texts with the separator
   * between each two, map fields expanded in place.
   */
  lemma {:induction false} TextLineIsPrinted(st: TextState, fields: seq<Field>)
    requires AtTop(st) && NestingFields(fields) <= 127
    ensures FeedAllText(st, FieldsTokens(fields)) == Lined(st, LineTexts(fields))
    decreases fields
  {
    hide FeedText, Lined;
    if fields == [] {
      NothingLined(st);
    } else {
      hide FieldTokens, LineTextsOf, FeedAllText;
      var mid := FeedAllText(st, FieldTokens(fields[0]));
      TextFieldIsPrinted(st, fields[0]);
      LinedAtTop(st, LineTextsOf(fields[0]));
      TextLineIsPrinted(mid, fields[1..]);
      FeedTextAppend(st, FieldTokens(fields[0]), FieldsTokens(fields[1..]));
      LinedConcat(st, LineTextsOf(fields[0]), LineTexts(fields[1..]));
    }
  }

  lemma NothingLined(st: TextState)
    ensures Lined(st, []) == st
  {
    assert st.out + [] == st.out;
  }

  lemma LinedAtTop(st: TextState, texts: seq<seq<byte>>)
    requires AtTop(st)
    ensures AtTop(Lined(st, texts))
  {
  }

  lemma {:induction false} TextFieldIsPrinted(st: TextState, f: Field)
    requires AtTop(st) && NestingField(f) <= 127
    ensures FeedAllText(st, FieldTokens(f)) == Lined(st, LineTextsOf(f))
    decreases f
  {
    match f
    case Field(key, value) =>
      hide FeedAllText, TopText, Nesting, Escaped;
      var keyed := FeedText(st, Key(key));
      FeedTextOne(st, Key(key));
      FeedTextAppend(st, [Key(key)], ValueTokens(value));
      NestedIsPrintedAsJson(keyed, value);
      assert Lined(st, LineTextsOf(f)).out == keyed.out + TopText(value) by {
        var text := Escaped(key) + [EQUALS] + TopText(value);
        assert [text][1..] == [] && Separated(true, st.separator, []) == [];
      }
    case FromMap(entries) => TextLineIsPrinted(st, entries);
  }

  /** What stands after the = of a top-level field: JSON, a bare float name, or the body of a JSON string. */
  ghost predicate TopMeans(text: seq<byte>, v: Value) {
    match v
    case String(s) => StringBody(text + [QUOTE]) == Some((Repaired(s), []))
    case Reflect(Failure(message)) => StringBody(text + [QUOTE]) == Some((Repaired(message), []))
    case Float64(NotANumber) => text == Ascii("NaN")
    case Float64(PositiveInfinity) => text == Ascii("+Inf")
    case Float64(NegativeInfinity) => text == Ascii("-Inf")
    case _ => Denotes(text, Denoted(v))
  }

  function Ascii(s: string): (bytes: seq<byte>)
    requires forall k :: 0 <= k < |s| ==> s[k] < 128 as char
  {
    seq(|s|, k requires 0 <= k < |s| => s[k] as byte)
  }

  /** A value at the top level of a text line can be read back, whatever it is. */
  lemma TopTextReadsBack(v: Value)
    requires Printable(v)
    ensures TopMeans(TopText(v), v)
  {
    hide Denotes, StringBody, Escaped, Denoted, ValueText;
    match v
    case String(s) => BareStringReadsBack(s);
    case Reflect(Failure(message)) => BareStringReadsBack(message);
    case Float64(NotANumber) => assert NAN == Ascii("NaN");
    case Float64(PositiveInfinity) => assert POSITIVE_INFINITY == Ascii("+Inf");
    case Float64(NegativeInfinity) => assert NEGATIVE_INFINITY == Ascii("-Inf");
    case Array(_) => ValueDenotes(v);
    case Object(_) => ValueDenotes(v);
    case _ => ScalarDenotes(v);
  }

  lemma BareStringReadsBack(s: seq<byte>)
    ensures StringBody(Escaped(s) + [QUOTE]) == Some((Repaired(s), []))
  {
    EscapedReadsBack(s, []);
    assert Escaped(s) + [QUOTE] + [] == Escaped(s) + [QUOTE];
  }

  /** The punctuation of a line. */
  lemma Punctuation()
    ensures [OPEN_BRACE, CLOSE_BRACE, OPEN_BRACKET, CLOSE_BRACKET, COLON, COMMA] == Ascii("{}[]:,")
    ensures [QUOTE, BACKSLASH, EQUALS] == Ascii("\"\\=")
    ensures TRUE == Ascii("true") && FALSE == Ascii("false")
  {
  }

  // ---- How deep the text encoder can go -----------------------------------

  /** An empty string inside n arrays. */
  function Deep(n: nat): Value {
    if n == 0 then String([]) else Array([Deep(n - 1)])
  }

  lemma {:induction false} DeepNests(n: nat)
    ensures Nesting(Deep(n)) == n && |ValueText(Deep(n))| == 2 * n + 2
  {
    if n > 0 {
      DeepNests(n - 1);
      assert Joined(ItemTexts([Deep(n - 1)])) == ValueText(Deep(n - 1)) by {
        assert [Deep(n - 1)][1..] == [];
      }
    }
  }

  lemma ArrayCounts(st: TextState)
    requires !NeedsComma(st.last)
    ensures var begun := FeedText(st, ArrayBegin);
            |begun.out| == |st.out| + 1 && begun.depth == Int8(st.depth + 1) && !NeedsComma(begun.last)
  {
  }

  lemma ArrayEndCounts(st: TextState)
    ensures var ended := FeedText(st, ArrayEnd);
            |ended.out| == |st.out| + 1 && ended.depth == Int8(st.depth - 1)
  {
  }

  lemma DeepTokens(n: nat)
    requires n > 0
    ensures ValueTokens(Deep(n)) == [ArrayBegin] + ValueTokens(Deep(n - 1)) + [ArrayEnd]
  {
    var items := [Deep(n - 1)];
    assert items[1..] == [] && ItemsTokens(items) == ValueTokens(items[0]) + ItemsTokens([]);
    assert Deep(n) == Array(items);
  }

  lemma BareStringVanishes(st: TextState)
    requires st.depth <= 0
    ensures FeedAllText(st, ValueTokens(Deep(0))) == st
  {
    FeedTextOne(st, Scalar(String([])));
  }

  /** The counter wraps at 128, and the string there loses its quotes. */
  lemma {:induction false} DeepPrints(st: TextState, n: nat)
    requires 1 <= n && st.depth + n == 128 && st.depth >= 0 && !NeedsComma(st.last)
    ensures var st' := FeedAllText(st, ValueTokens(Deep(n)));
            |st'.out| == |st.out| + 2 * n && st'.depth == st.depth
    decreases n
  {
    hide FeedAllText, FeedText, ValueTokens, Deep;
    var begun := FeedText(st, ArrayBegin);
    var inner := ValueTokens(Deep(n - 1));
    DeepTokens(n);
    EnclosedFeeds(st, ArrayBegin, inner, ArrayEnd);
    ArrayCounts(st);
    if n == 1 {
      BareStringVanishes(begun);
    } else {
      DeepPrints(begun, n - 1);
    }
    ArrayEndCounts(FeedAllText(begun, inner));
  }

  const NEW_TEXT := TextState([], [], Unknown, 0, false)

  ghost predicate PrintsAsJsonTo(d: nat) {
    forall v :: !IsScalar(v) && Nesting(v) <= d ==> FeedAllText(NEW_TEXT, ValueTokens(v)).out == ValueText(v)
  }

  /** 127 is exactly how deep the text encoder agrees with the JSON encoder on every value. */
  lemma PrintsAsJsonIff(d: nat)
    ensures PrintsAsJsonTo(d) <==> d <= 127
  {
    if d <= 127 {
      forall v | !IsScalar(v) && Nesting(v) <= d
        ensures FeedAllText(NEW_TEXT, ValueTokens(v)).out == ValueText(v)
      {
        NestedIsPrintedAsJson(NEW_TEXT, v);
        assert [] + ValueText(v) == ValueText(v);
      }
    } else {
      DeepNests(128);
      DeepPrints(NEW_TEXT, 128);
      assert !IsScalar(Deep(128));
    }
  }
}
