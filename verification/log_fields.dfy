// Structured log fields and the state of the encoders that print them
// (log/field.go, log/field_encoder.go).
//
// A field tells an encoder what to print by a run of tokens; the JSON encoder decides its
// commas from the last token alone. What comes out is compared with the JSON value the
// field stands for.
module LogFields {
  import opened Options
  import opened Utf8
  import opened LogStrings
  import opened JsonTexts

  /** A float as strconv prints it. */
  datatype Float = Finite(digits: seq<byte>) | NotANumber | PositiveInfinity | NegativeInfinity

  /** What json.Marshal makes of a value: some text that denotes a tree, or an error. */
  datatype Marshalled = Document(text: seq<byte>, tree: Tree) | Failure(message: seq<byte>)

  datatype Value =
    | Flag(truth: bool)
    | Int64(int64: int)
    | Uint64(uint64: nat)
    | Float64(float: Float)
    | String(text: seq<byte>)
    | Reflect(marshalled: Marshalled)
    | Array(items: seq<Value>)
    | Object(fields: seq<Field>)

  /** FromMap holds a map's entries in the order of its sorted keys. */
  datatype Field =
    | Field(key: seq<byte>, value: Value)
    | FromMap(entries: seq<Field>)

  predicate IsScalar(v: Value) {
    !v.Array? && !v.Object?
  }

  type ScalarValue = v: Value | IsScalar(v) witness Flag(false)

  // ---- The tokens of a field ----------------------------------------------

  datatype Token =
    | ObjectBegin
    | ObjectEnd
    | ArrayBegin
    | ArrayEnd
    | Key(key: seq<byte>)
    | Scalar(value: ScalarValue)

  function ValueTokens(v: Value): seq<Token> {
    match v
    case Array(items) => [ArrayBegin] + ItemsTokens(items) + [ArrayEnd]
    case Object(fields) => [ObjectBegin] + FieldsTokens(fields) + [ObjectEnd]
    case _ => [Scalar(v)]
  }

  function ItemsTokens(items: seq<Value>): seq<Token> {
    if items == [] then [] else ValueTokens(items[0]) + ItemsTokens(items[1..])
  }

  function FieldTokens(f: Field): seq<Token> {
    match f
    case Field(key, value) => [Key(key)] + ValueTokens(value)
    case FromMap(entries) => FieldsTokens(entries)
  }

  function FieldsTokens(fields: seq<Field>): seq<Token> {
    if fields == [] then [] else FieldTokens(fields[0]) + FieldsTokens(fields[1..])
  }

  // ---- What a field stands for --------------------------------------------

  const NAN: seq<byte> := [0x4E, 0x61, 0x4E]
  const POSITIVE_INFINITY: seq<byte> := [0x2B, 0x49, 0x6E, 0x66]
  const NEGATIVE_INFINITY: seq<byte> := [0x2D, 0x49, 0x6E, 0x66]

  function FormatFloat(f: Float): seq<byte> {
    match f
    case Finite(digits) => digits
    case NotANumber => NAN
    case PositiveInfinity => POSITIVE_INFINITY
    case NegativeInfinity => NEGATIVE_INFINITY
  }

  /** A scalar outside any JSON structure, as the text encoder prints it. */
  function PlainText(v: ScalarValue): seq<byte> {
    match v
    case Flag(b) => if b then TRUE else FALSE
    case Int64(i) => FormatInteger(i)
    case Uint64(u) => FormatInteger(u)
    case Float64(f) => FormatFloat(f)
    case String(s) => Escaped(s)
    case Reflect(Document(text, _)) => text
    case Reflect(Failure(message)) => Escaped(message)
  }

  /** A scalar as the JSON encoder prints it. */
  function ScalarText(v: ScalarValue): seq<byte> {
    match v
    case Float64(f) => if f.Finite? then FormatFloat(f) else [QUOTE] + FormatFloat(f) + [QUOTE]
    case String(s) => Quoted(s)
    case Reflect(Failure(message)) => Quoted(message)
    case _ => PlainText(v)
  }

  /** The JSON value a field's value stands for. */
  function Denoted(v: Value): Tree {
    match v
    case Flag(b) => Boolean(b)
    case Int64(i) => Number(FormatInteger(i))
    case Uint64(u) => Number(FormatInteger(u))
    case Float64(f) => if f.Finite? then Number(FormatFloat(f)) else Text(FormatFloat(f))
    case String(s) => Text(Repaired(s))
    case Reflect(Document(_, tree)) => tree
    case Reflect(Failure(message)) => Text(Repaired(message))
    case Array(items) => List(DenotedItems(items))
    case Object(fields) => Record(DenotedFields(fields))
  }

  function DenotedItems(items: seq<Value>): (trees: seq<Tree>)
    ensures |trees| == |items|
  {
    if items == [] then [] else [Denoted(items[0])] + DenotedItems(items[1..])
  }

  /** Members in order; a map's entries stand where the map field stood. */
  function DenotedFields(fields: seq<Field>): seq<Member> {
    if fields == [] then [] else DenotedField(fields[0]) + DenotedFields(fields[1..])
  }

  function DenotedField(f: Field): seq<Member> {
    match f
    case Field(key, value) => [Member(Repaired(key), Denoted(value))]
    case FromMap(entries) => DenotedFields(entries)
  }

  /** The canonical JSON text of a value. */
  function ValueText(v: Value): seq<byte> {
    match v
    case Array(items) => Bracketed(ItemTexts(items))
    case Object(fields) => Braced(MemberTexts(fields))
    case _ => ScalarText(v)
  }

  function ItemTexts(items: seq<Value>): (texts: seq<seq<byte>>)
    ensures |texts| == |items|
  {
    if items == [] then [] else [ValueText(items[0])] + ItemTexts(items[1..])
  }

  function MemberTexts(fields: seq<Field>): seq<seq<byte>> {
    if fields == [] then [] else FieldTexts(fields[0]) + MemberTexts(fields[1..])
  }

  function FieldTexts(f: Field): seq<seq<byte>> {
    match f
    case Field(key, value) => [Quoted(key) + [COLON] + ValueText(value)]
    case FromMap(entries) => MemberTexts(entries)
  }

  /** Floats and marshalled values are opaque, but what strconv and json.Marshal print is JSON. */
  ghost predicate Printable(v: Value) {
    match v
    case Float64(Finite(digits)) => IsNumber(digits)
    case Reflect(Document(text, tree)) => Denotes(text, tree)
    case Array(items) => PrintableItems(items)
    case Object(fields) => PrintableFields(fields)
    case _ => true
  }

  ghost predicate PrintableItems(items: seq<Value>) {
    items != [] ==> Printable(items[0]) && PrintableItems(items[1..])
  }

  ghost predicate PrintableFields(fields: seq<Field>) {
    fields != [] ==> PrintableField(fields[0]) && PrintableFields(fields[1..])
  }

  ghost predicate PrintableField(f: Field) {
    match f
    case Field(_, value) => Printable(value)
    case FromMap(entries) => PrintableFields(entries)
  }

  // ---- The canonical text denotes the value -------------------------------

  lemma AsciiNeedsNoEscape(s: seq<byte>)
    requires s == NAN || s == POSITIVE_INFINITY || s == NEGATIVE_INFINITY
    ensures Escaped(s) == s && Repaired(s) == s
  {
    var n := |s|;
    assert forall k :: 0 <= k < n ==> 0x20 <= s[k] < RUNE_SELF && s[k] != BACKSLASH && s[k] != QUOTE;
    PlainAsciiIsItself(s);
  }

  lemma {:induction false} PlainAsciiIsItself(s: seq<byte>)
    requires forall k :: 0 <= k < |s| ==> 0x20 <= s[k] < RUNE_SELF && s[k] != BACKSLASH && s[k] != QUOTE
    ensures Escaped(s) == s && Repaired(s) == s
  {
    if s != [] {
      PlainAsciiIsItself(s[1..]);
      assert s == [s[0]] + s[1..] && s[..1] == [s[0]];
    }
  }

  lemma {:induction false} ScalarDenotes(v: Value)
    requires IsScalar(v) && Printable(v)
    ensures Denotes(ScalarText(v), Denoted(v))
  {
    hide Denotes, Escaped, Repaired, FormatInteger, IsNumber;
    match v
    case Flag(b) => LiteralDenotes(if b then TRUE else FALSE, Boolean(b));
    case Int64(i) =>
      FormattedIsNumber(i);
      NumberDenotes(FormatInteger(i));
    case Uint64(u) =>
      FormattedIsNumber(u);
      NumberDenotes(FormatInteger(u));
    case Float64(f) =>
      if f.Finite? {
        NumberDenotes(f.digits);
      } else {
        AsciiNeedsNoEscape(FormatFloat(f));
        QuotedDenotes(FormatFloat(f));
      }
    case String(s) => QuotedDenotes(s);
    case Reflect(m) =>
      if m.Failure? {
        QuotedDenotes(m.message);
      }
  }

  /** The canonical text of any printable value is read as the value it stands for. */
  lemma {:induction false} ValueDenotes(v: Value)
    requires Printable(v)
    ensures Denotes(ValueText(v), Denoted(v))
  {
    hide Denotes, DenotesMember, Bracketed, Braced;
    match v
    case Array(items) =>
      ItemsDenote(items);
      BracketedDenotes(ItemTexts(items), DenotedItems(items));
    case Object(fields) =>
      MembersDenote(fields);
      BracedDenotes(MemberTexts(fields), DenotedFields(fields));
    case _ => ScalarDenotes(v);
  }

  lemma {:induction false} ItemsDenote(items: seq<Value>)
    requires PrintableItems(items)
    ensures forall i :: 0 <= i < |items| ==> Denotes(ItemTexts(items)[i], DenotedItems(items)[i])
  {
    hide Denotes;
    if items != [] {
      ValueDenotes(items[0]);
      ItemsDenote(items[1..]);
    }
  }

  lemma {:induction false} MembersDenote(fields: seq<Field>)
    requires PrintableFields(fields)
    ensures |MemberTexts(fields)| == |DenotedFields(fields)|
    ensures forall i :: 0 <= i < |MemberTexts(fields)| ==> DenotesMember(MemberTexts(fields)[i], DenotedFields(fields)[i])
  {
    hide DenotesMember;
    if fields != [] {
      FieldDenotes(fields[0]);
      MembersDenote(fields[1..]);
    }
  }

  lemma {:induction false} FieldDenotes(f: Field)
    requires PrintableField(f)
    ensures |FieldTexts(f)| == |DenotedField(f)|
    ensures forall i :: 0 <= i < |FieldTexts(f)| ==> DenotesMember(FieldTexts(f)[i], DenotedField(f)[i])
  {
    hide DenotesMember, Denotes, Quoted, Repaired;
    match f
    case Field(key, value) =>
      ValueDenotes(value);
      MemberDenotes(key, ValueText(value), Denoted(value));
    case FromMap(entries) => MembersDenote(entries);
  }
}
