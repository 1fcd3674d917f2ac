// The log encoders and the encoding of fields (log/field_encoder.go, log/field.go).
//
// Every method is proved against what EncoderStates says its tokens print.
module Encoders {
  import opened Options
  import opened Utf8
  import opened LogStrings
  import opened JsonTexts
  import opened LogFields
  import opened EncoderStates
  import opened OrderedKeys

  class JSONEncoder {
    const out: Buffer
    var last: TokenType

    constructor (out: Buffer)
      ensures this.out == out && last == Unknown
    {
      this.out, last := out, Unknown;
    }

    ghost function State(): JsonState
      reads this, out
    {
      JsonState(out.data, last)
    }

    method Reset()
      modifies this
      ensures last == Unknown
    {
      last := Unknown;
    }

    method AppendSeparator()
      modifies out
      ensures out.data == old(out.data) + Separator(last)
    {
      if last == EndedObject || last == EndedArray || last == AValue {
        out.WriteByte(COMMA);
      }
    }

    method AppendObjectBegin()
      modifies this, out
      ensures State() == FeedJson(old(State()), ObjectBegin)
    {
      AppendSeparator();
      last := BegunObject;
      out.WriteByte(OPEN_BRACE);
    }

    method AppendObjectEnd()
      modifies this, out
      ensures State() == FeedJson(old(State()), ObjectEnd)
    {
      last := EndedObject;
      out.WriteByte(CLOSE_BRACE);
    }

    method AppendArrayBegin()
      modifies this, out
      ensures State() == FeedJson(old(State()), ArrayBegin)
    {
      AppendSeparator();
      last := BegunArray;
      out.WriteByte(OPEN_BRACKET);
    }

    method AppendArrayEnd()
      modifies this, out
      ensures State() == FeedJson(old(State()), ArrayEnd)
    {
      last := EndedArray;
      out.WriteByte(CLOSE_BRACKET);
    }

    method AppendKey(key: seq<byte>)
      modifies this, out
      ensures State() == FeedJson(old(State()), Key(key))
    {
      hide Escaped;
      ghost var before := out.data + Separator(last);
      AppendSeparator();
      last := AKey;
      out.WriteByte(QUOTE);
      WriteLogString(out, key);
      out.WriteByte(QUOTE);
      out.WriteByte(COLON);
      assert out.data == before + Quoted(key) + [COLON];
    }

    method AppendBool(v: bool)
      modifies this, out
      ensures State() == FeedJson(old(State()), Scalar(Flag(v)))
    {
      AppendSeparator();
      last := AValue;
      out.WriteString(if v then TRUE else FALSE);
    }

    method AppendInt64(v: int)
      modifies this, out
      ensures State() == FeedJson(old(State()), Scalar(Int64(v)))
    {
      AppendSeparator();
      last := AValue;
      out.WriteString(FormatInteger(v));
    }

    method AppendUint64(v: nat)
      modifies this, out
      ensures State() == FeedJson(old(State()), Scalar(Uint64(v)))
    {
      AppendSeparator();
      last := AValue;
      out.WriteString(FormatInteger(v));
    }

    method AppendFloat64(v: Float)
      modifies this, out
      ensures State() == FeedJson(old(State()), Scalar(Float64(v)))
    {
      ghost var before := out.data + Separator(last);
      AppendSeparator();
      last := AValue;
      if !v.Finite? {
        out.WriteByte(QUOTE);
        out.WriteString(FormatFloat(v));
        out.WriteByte(QUOTE);
        assert out.data == before + ([QUOTE] + FormatFloat(v) + [QUOTE]);
        return;
      }
      out.WriteString(FormatFloat(v));
    }

    method AppendString(v: seq<byte>)
      modifies this, out
      ensures State() == FeedJson(old(State()), Scalar(String(v)))
    {
      hide Escaped;
      ghost var before := out.data + Separator(last);
      AppendSeparator();
      last := AValue;
      out.WriteByte(QUOTE);
      WriteLogString(out, v);
      out.WriteByte(QUOTE);
      assert out.data == before + Quoted(v);
    }

    /** A value that cannot be marshalled is logged as its error message. */
    method AppendReflect(v: Marshalled)
      modifies this, out
      ensures State() == FeedJson(old(State()), Scalar(Reflect(v)))
    {
      hide Escaped;
      ghost var before := out.data + Separator(last);
      AppendSeparator();
      last := AValue;
      if v.Failure? {
        out.WriteByte(QUOTE);
        WriteLogString(out, v.message);
        out.WriteByte(QUOTE);
        assert out.data == before + Quoted(v.message);
        return;
      }
      out.WriteString(v.text);
    }
  }

  class TextEncoder {
    const out: Buffer
    const separator: seq<byte>
    const jsonEncoder: JSONEncoder
    var jsonDepth: int
    var hasWritten: bool

    constructor (out: Buffer, separator: seq<byte>)
      ensures Valid() && fresh(jsonEncoder) && this.out == out
      ensures State() == TextState(out.data, separator, Unknown, 0, false)
    {
      this.out, this.separator := out, separator;
      jsonEncoder := new JSONEncoder(out);
      jsonDepth, hasWritten := 0, false;
    }

    ghost predicate Valid() {
      jsonEncoder.out == out
    }

    ghost function State(): TextState
      reads this, out, jsonEncoder
    {
      TextState(out.data, separator, jsonEncoder.last, jsonDepth, hasWritten)
    }

    method AppendObjectBegin()
      requires Valid()
      modifies this, out, jsonEncoder
      ensures State() == FeedText(old(State()), ObjectBegin)
    {
      jsonDepth := Int8(jsonDepth + 1);
      jsonEncoder.AppendObjectBegin();
    }

    method AppendObjectEnd()
      requires Valid()
      modifies this, out, jsonEncoder
      ensures State() == FeedText(old(State()), ObjectEnd)
    {
      jsonDepth := Int8(jsonDepth - 1);
      jsonEncoder.AppendObjectEnd();
      if jsonDepth == 0 {
        jsonEncoder.Reset();
      }
    }

    method AppendArrayBegin()
      requires Valid()
      modifies this, out, jsonEncoder
      ensures State() == FeedText(old(State()), ArrayBegin)
    {
      jsonDepth := Int8(jsonDepth + 1);
      jsonEncoder.AppendArrayBegin();
    }

    method AppendArrayEnd()
      requires Valid()
      modifies this, out, jsonEncoder
      ensures State() == FeedText(old(State()), ArrayEnd)
    {
      jsonDepth := Int8(jsonDepth - 1);
      jsonEncoder.AppendArrayEnd();
      if jsonDepth == 0 {
        jsonEncoder.Reset();
      }
    }

    method AppendKey(key: seq<byte>)
      requires Valid()
      modifies this, out, jsonEncoder
      ensures State() == FeedText(old(State()), Key(key))
    {
      hide Escaped, FeedJson;
      if jsonDepth > 0 {
        jsonEncoder.AppendKey(key);
        return;
      }
      ghost var before := out.data + (if hasWritten then separator else []);
      if hasWritten {
        out.WriteString(separator);
      } else {
        hasWritten := true;
        assert out.data == before;
      }
      WriteLogString(out, key);
      out.WriteByte(EQUALS);
    }

    method AppendBool(v: bool)
      requires Valid()
      modifies this, out, jsonEncoder
      ensures State() == FeedText(old(State()), Scalar(Flag(v)))
    {
      hide FeedJson;
      if jsonDepth > 0 {
        jsonEncoder.AppendBool(v);
        return;
      }
      out.WriteString(if v then TRUE else FALSE);
    }

    method AppendInt64(v: int)
      requires Valid()
      modifies this, out, jsonEncoder
      ensures State() == FeedText(old(State()), Scalar(Int64(v)))
    {
      hide FeedJson;
      if jsonDepth > 0 {
        jsonEncoder.AppendInt64(v);
        return;
      }
      out.WriteString(FormatInteger(v));
    }

    method AppendUint64(v: nat)
      requires Valid()
      modifies this, out, jsonEncoder
      ensures State() == FeedText(old(State()), Scalar(Uint64(v)))
    {
      hide FeedJson;
      if jsonDepth > 0 {
        jsonEncoder.AppendUint64(v);
        return;
      }
      out.WriteString(FormatInteger(v));
    }

    method AppendFloat64(v: Float)
      requires Valid()
      modifies this, out, jsonEncoder
      ensures State() == FeedText(old(State()), Scalar(Float64(v)))
    {
      hide FeedJson;
      if jsonDepth > 0 {
        jsonEncoder.AppendFloat64(v);
        return;
      }
      out.WriteString(FormatFloat(v));
    }

    method AppendString(v: seq<byte>)
      requires Valid()
      modifies this, out, jsonEncoder
      ensures State() == FeedText(old(State()), Scalar(String(v)))
    {
      hide FeedJson, Escaped;
      if jsonDepth > 0 {
        jsonEncoder.AppendString(v);
        return;
      }
      WriteLogString(out, v);
    }

    method AppendReflect(v: Marshalled)
      requires Valid()
      modifies this, out, jsonEncoder
      ensures State() == FeedText(old(State()), Scalar(Reflect(v)))
    {
      hide FeedJson, Escaped;
      if jsonDepth > 0 {
        jsonEncoder.AppendReflect(v);
        return;
      }
      if v.Failure? {
        WriteLogString(out, v.message);
        return;
      }
      out.WriteString(v.text);
    }
  }

  // ---- Encoding fields through either encoder -----------------------------

  /** The two implementations of the Encoder interface. */
  datatype Encoder = Json(json: JSONEncoder) | Plain(plain: TextEncoder)

  datatype EncoderState = OfJson(json: JsonState) | OfText(text: TextState)

  ghost predicate Usable(enc: Encoder) {
    enc.Plain? ==> enc.plain.Valid()
  }

  ghost function Footprint(enc: Encoder): set<object> {
    match enc
    case Json(e) => {e, e.out}
    case Plain(e) => {e, e.out, e.jsonEncoder}
  }

  ghost function Snapshot(enc: Encoder): EncoderState
    reads Footprint(enc)
  {
    match enc
    case Json(e) => OfJson(e.State())
    case Plain(e) => OfText(e.State())
  }

  function FeedAll(st: EncoderState, ts: seq<Token>): EncoderState {
    match st
    case OfJson(json) => OfJson(FeedAllJson(json, ts))
    case OfText(text) => OfText(FeedAllText(text, ts))
  }

  lemma FeedAppend(st: EncoderState, a: seq<Token>, b: seq<Token>)
    ensures FeedAll(st, a + b) == FeedAll(FeedAll(st, a), b)
  {
    match st
    case OfJson(json) => FeedJsonAppend(json, a, b);
    case OfText(text) => FeedTextAppend(text, a, b);
  }

  /** A call of the interface method the token names. */
  method Append(enc: Encoder, t: Token)
    requires Usable(enc)
    modifies Footprint(enc)
    ensures Snapshot(enc) == FeedAll(old(Snapshot(enc)), [t])
  {
    match enc
    case Json(e) =>
      AppendJson(e, t);
      FeedJsonOne(old(e.State()), t);
    case Plain(e) =>
      AppendText(e, t);
      FeedTextOne(old(e.State()), t);
  }

  method AppendJson(e: JSONEncoder, t: Token)
    modifies e, e.out
    ensures e.State() == FeedJson(old(e.State()), t)
  {
    hide FeedJson;
    match t
    case ObjectBegin => e.AppendObjectBegin();
    case ObjectEnd => e.AppendObjectEnd();
    case ArrayBegin => e.AppendArrayBegin();
    case ArrayEnd => e.AppendArrayEnd();
    case Key(key) => e.AppendKey(key);
    case Scalar(Flag(v)) => e.AppendBool(v);
    case Scalar(Int64(v)) => e.AppendInt64(v);
    case Scalar(Uint64(v)) => e.AppendUint64(v);
    case Scalar(Float64(v)) => e.AppendFloat64(v);
    case Scalar(String(v)) => e.AppendString(v);
    case Scalar(Reflect(v)) => e.AppendReflect(v);
  }

  method AppendText(e: TextEncoder, t: Token)
    requires e.Valid()
    modifies e, e.out, e.jsonEncoder
    ensures e.State() == FeedText(old(e.State()), t)
  {
    hide FeedText;
    match t
    case ObjectBegin => e.AppendObjectBegin();
    case ObjectEnd => e.AppendObjectEnd();
    case ArrayBegin => e.AppendArrayBegin();
    case ArrayEnd => e.AppendArrayEnd();
    case Key(key) => e.AppendKey(key);
    case Scalar(Flag(v)) => e.AppendBool(v);
    case Scalar(Int64(v)) => e.AppendInt64(v);
    case Scalar(Uint64(v)) => e.AppendUint64(v);
    case Scalar(Float64(v)) => e.AppendFloat64(v);
    case Scalar(String(v)) => e.AppendString(v);
    case Scalar(Reflect(v)) => e.AppendReflect(v);
  }

  /** The value of a field, after its key. */
  method EncodeValue(enc: Encoder, v: Value)
    requires Usable(enc)
    modifies Footprint(enc)
    ensures Snapshot(enc) == FeedAll(old(Snapshot(enc)), ValueTokens(v))
    decreases v
  {
    hide FeedAll;
    ghost var st := Snapshot(enc);
    match v
    case Array(items) =>
      Append(enc, ArrayBegin);
      EncodeArray(enc, items);
      Append(enc, ArrayEnd);
      FeedAppend(st, [ArrayBegin], ItemsTokens(items));
      FeedAppend(st, [ArrayBegin] + ItemsTokens(items), [ArrayEnd]);
    case Object(fields) =>
      Append(enc, ObjectBegin);
      EncodeFields(enc, fields);
      Append(enc, ObjectEnd);
      FeedAppend(st, [ObjectBegin], FieldsTokens(fields));
      FeedAppend(st, [ObjectBegin] + FieldsTokens(fields), [ObjectEnd]);
    case _ =>
      Append(enc, Scalar(v));
  }

  method EncodeArray(enc: Encoder, items: seq<Value>)
    requires Usable(enc)
    modifies Footprint(enc)
    ensures Snapshot(enc) == FeedAll(old(Snapshot(enc)), ItemsTokens(items))
    decreases items
  {
    hide FeedAll, ValueTokens;
    ghost var st := Snapshot(enc);
    FeedNothing(st);
    assert items[..0] == [];
    for k := 0 to |items|
      invariant Snapshot(enc) == FeedAll(st, ItemsTokens(items[..k]))
    {
      EncodeValue(enc, items[k]);
      assert items[..k + 1] == items[..k] + [items[k]];
      ItemsTokensAppend(items[..k], items[k]);
      FeedAppend(st, ItemsTokens(items[..k]), ValueTokens(items[k]));
    }
    assert items[..|items|] == items;
  }

  lemma FeedNothing(st: EncoderState)
    ensures FeedAll(st, []) == st
  {
  }

  lemma {:induction false} ItemsTokensAppend(items: seq<Value>, v: Value)
    ensures ItemsTokens(items + [v]) == ItemsTokens(items) + ValueTokens(v)
  {
    hide ValueTokens;
    if items == [] {
      assert [v][1..] == [] && ItemsTokens([v]) == ValueTokens(v) + ItemsTokens([]);
    } else {
      assert (items + [v])[1..] == items[1..] + [v];
      ItemsTokensAppend(items[1..], v);
    }
  }

  method EncodeField(enc: Encoder, f: Field)
    requires Usable(enc)
    modifies Footprint(enc)
    ensures Snapshot(enc) == FeedAll(old(Snapshot(enc)), FieldTokens(f))
    decreases f
  {
    hide FeedAll, ValueTokens;
    ghost var st := Snapshot(enc);
    match f
    case Field(key, value) =>
      Append(enc, Key(key));
      EncodeValue(enc, value);
      FeedAppend(st, [Key(key)], ValueTokens(value));
    case FromMap(entries) =>
      EncodeFields(enc, entries);
  }

  method EncodeFields(enc: Encoder, fields: seq<Field>)
    requires Usable(enc)
    modifies Footprint(enc)
    ensures Snapshot(enc) == FeedAll(old(Snapshot(enc)), FieldsTokens(fields))
    decreases fields
  {
    hide FeedAll, FieldTokens;
    ghost var st := Snapshot(enc);
    FeedNothing(st);
    assert fields[..0] == [];
    for k := 0 to |fields|
      invariant Snapshot(enc) == FeedAll(st, FieldsTokens(fields[..k]))
    {
      EncodeField(enc, fields[k]);
      assert fields[..k + 1] == fields[..k] + [fields[k]];
      FieldsTokensAppend(fields[..k], fields[k]);
      FeedAppend(st, FieldsTokens(fields[..k]), FieldTokens(fields[k]));
    }
    assert fields[..|fields|] == fields;
  }

  lemma {:induction false} FieldsTokensAppend(fields: seq<Field>, f: Field)
    ensures FieldsTokens(fields + [f]) == FieldsTokens(fields) + FieldTokens(f)
  {
    hide FieldTokens;
    if fields == [] {
      assert [f][1..] == [] && FieldsTokens([f]) == FieldTokens(f) + FieldsTokens([]);
    } else {
      assert (fields + [f])[1..] == fields[1..] + [f];
      FieldsTokensAppend(fields[1..], f);
    }
  }

  /** A map's entries under the given keys. */
  function EntriesOf(keys: seq<seq<byte>>, m: map<seq<byte>, Value>): (entries: seq<Field>)
    requires forall k :: k in keys ==> k in m
    ensures |entries| == |keys|
  {
    if keys == [] then [] else [Field(keys[0], m[keys[0]])] + EntriesOf(keys[1..], m)
  }

  lemma {:induction false} EntriesAppend(keys: seq<seq<byte>>, key: seq<byte>, m: map<seq<byte>, Value>)
    requires key in m && forall k :: k in keys ==> k in m
    ensures forall k :: k in keys + [key] ==> k in m
    ensures EntriesOf(keys + [key], m) == EntriesOf(keys, m) + [Field(key, m[key])]
  {
    if keys != [] {
      assert (keys + [key])[1..] == keys[1..] + [key];
      EntriesAppend(keys[1..], key, m);
    }
  }

  /** A map field: its entries as members of the surrounding object, in the order of the sorted keys. */
  method EncodeMap(enc: Encoder, m: map<seq<byte>, Value>) returns (keys: seq<seq<byte>>)
    requires Usable(enc)
    modifies Footprint(enc)
    ensures AreKeysOf(keys, m)
    ensures Snapshot(enc) == FeedAll(old(Snapshot(enc)), FieldTokens(FromMap(EntriesOf(keys, m))))
  {
    hide FeedAll, FieldTokens, Ascending;
    keys := MapKeys(m);
    ghost var st := Snapshot(enc);
    FeedNothing(st);
    assert keys[..0] == [] && EntriesOf(keys[..0], m) == [];
    for i := 0 to |keys|
      invariant forall k :: k in keys[..i] ==> k in m
      invariant Snapshot(enc) == FeedAll(st, FieldsTokens(EntriesOf(keys[..i], m)))
    {
      assert keys[i] in keys;
      EncodeField(enc, Field(keys[i], m[keys[i]]));
      assert keys[..i + 1] == keys[..i] + [keys[i]];
      EntriesAppend(keys[..i], keys[i], m);
      FieldsTokensAppend(EntriesOf(keys[..i], m), Field(keys[i], m[keys[i]]));
      FeedAppend(st, FieldsTokens(EntriesOf(keys[..i], m)), FieldTokens(Field(keys[i], m[keys[i]])));
    }
    assert keys[..|keys|] == keys;
    MapTokens(EntriesOf(keys, m));
  }

  lemma MapTokens(entries: seq<Field>)
    ensures FieldTokens(FromMap(entries)) == FieldsTokens(entries)
  {
  }

  /** A log line in JSON: whatever the fields, what is written reads back as their object. */
  method WriteJsonLine(out: Buffer, fields: seq<Field>)
    requires out.data == [] && PrintableFields(fields)
    modifies out
    ensures ParseDocument(out.data) == Some(Record(DenotedFields(fields)))
  {
    hide FeedAllJson, ParseDocument, PrintableFields, DenotedFields, FeedJson;
    var enc := new JSONEncoder(out);
    ghost var st := enc.State();
    enc.AppendObjectBegin();
    EncodeFields(Json(enc), fields);
    enc.AppendObjectEnd();
    LineFeeds(st, fields);
    JsonLineReadsBack(fields);
  }

  lemma LineFeeds(st: JsonState, fields: seq<Field>)
    ensures FeedAllJson(st, LineTokens(fields))
              == FeedJson(FeedAllJson(FeedJson(st, ObjectBegin), FieldsTokens(fields)), ObjectEnd)
  {
    hide FeedJson;
    var inner := FieldsTokens(fields);
    FeedJsonAppend(st, [ObjectBegin] + inner, [ObjectEnd]);
    FeedJsonAppend(st, [ObjectBegin], inner);
    FeedJsonOne(st, ObjectBegin);
    FeedJsonOne(FeedAllJson(FeedJson(st, ObjectBegin), inner), ObjectEnd);
  }
}
