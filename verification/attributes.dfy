/** The attribute encoder: `value`, `arrayValue` and `keyValues` turn the SDK's typed
    attribute values into OTLP `AnyValue`s. */
module Attributes {
  import opened Seqs
  import opened Numbers
  import opened Wire

  /** The dynamic type behind `attribute.Value.AsArray()`. The encoder knows five
      slice types; `OtherArray` is any other dynamic type. Go's `[]int` is taken on a
      64-bit platform, so its elements are `int64`-sized. */
  datatype ArrayPayload =
    | BoolSlice(bools: seq<bool>)
    | IntSlice(ints: seq<Int64>)
    | Int64Slice(int64s: seq<Int64>)
    | Float64Slice(float64s: seq<Float64>)
    | StringSlice(strings: seq<string>)
    | OtherArray

  /** `attribute.Value` by its `Type()`. `OtherAttr` is a value of any type the
      encoder does not switch on (INVALID among them), carried with the text its
      `Emit()` renders; a STRING value emits its own string. */
  datatype Value =
    | BoolAttr(b: bool)
    | Int64Attr(i: Int64)
    | Float64Attr(f: Float64)
    | StringAttr(s: string)
    | ArrayAttr(payload: ArrayPayload)
    | OtherAttr(emitted: string)

  /** One `attribute.KeyValue`; an attribute set is a sequence of them in iteration
      order. */
  datatype Attribute = Attribute(key: string, value: Value)

  /** The number of elements the encoder sees in an array payload. */
  function ArrayLength(a: ArrayPayload): nat
  {
    match a
    case BoolSlice(xs) => |xs|
    case IntSlice(xs) => |xs|
    case Int64Slice(xs) => |xs|
    case Float64Slice(xs) => |xs|
    case StringSlice(xs) => |xs|
    case OtherArray => 0
  }

  predicate IsScalar(v: AnyValue)
  {
    !v.ArrayValue?
  }

  /** `arrayValue`: a known slice type is encoded element by element, in order, with
      the scalar rule for its element type; any other dynamic type gives no elements. */
  function ArrayValues(a: ArrayPayload): (r: seq<AnyValue>)
    ensures |r| == ArrayLength(a)
    ensures forall i | 0 <= i < |r| :: IsScalar(r[i])
    ensures a.BoolSlice? ==> forall i | 0 <= i < |r| :: r[i] == BoolValue(a.bools[i])
    ensures a.IntSlice? ==> forall i | 0 <= i < |r| :: r[i] == IntValue(a.ints[i])
    ensures a.Int64Slice? ==> forall i | 0 <= i < |r| :: r[i] == IntValue(a.int64s[i])
    ensures a.Float64Slice? ==> forall i | 0 <= i < |r| :: r[i] == DoubleValue(a.float64s[i])
    ensures a.StringSlice? ==> forall i | 0 <= i < |r| :: r[i] == StringValue(a.strings[i])
  {
    match a
    case BoolSlice(xs) => MapSeq(xs, (x: bool) => BoolValue(x))
    case IntSlice(xs) => MapSeq(xs, (x: Int64) => IntValue(x))
    case Int64Slice(xs) => MapSeq(xs, (x: Int64) => IntValue(x))
    case Float64Slice(xs) => MapSeq(xs, (x: Float64) => DoubleValue(x))
    case StringSlice(xs) => MapSeq(xs, (x: string) => StringValue(x))
    case OtherArray => []
  }

  /** `value`: BOOL, INT64, FLOAT64 and ARRAY go to the matching variant; every other
      type is sent as a string, its emitted text. */
  function EncodeValue(v: Value): (r: AnyValue)
    ensures r.BoolValue? <==> v.BoolAttr?
    ensures r.IntValue? <==> v.Int64Attr?
    ensures r.DoubleValue? <==> v.Float64Attr?
    ensures r.ArrayValue? <==> v.ArrayAttr?
    ensures r.StringValue? <==> v.StringAttr? || v.OtherAttr?
    ensures v.StringAttr? ==> r.stringValue == v.s
    ensures v.OtherAttr? ==> r.stringValue == v.emitted
    ensures v.ArrayAttr? ==> r.values == ArrayValues(v.payload)
  {
    match v
    case BoolAttr(b) => BoolValue(b)
    case Int64Attr(i) => IntValue(i)
    case Float64Attr(f) => DoubleValue(f)
    case ArrayAttr(a) => ArrayValue(ArrayValues(a))
    case StringAttr(s) => StringValue(s)
    case OtherAttr(e) => StringValue(e)
  }

  /** `keyValues`: one key/value per attribute, in iteration order. An empty set
      gives Go's nil list, which is the empty sequence here and is produced for
      nothing else. */
  function KeyValues(attrs: seq<Attribute>): (r: seq<KeyValue>)
    ensures |r| == |attrs|
    ensures r == [] <==> attrs == []
    ensures forall i | 0 <= i < |attrs| ::
      r[i].key == attrs[i].key && r[i].value == EncodeValue(attrs[i].value)
  {
    if |attrs| == 0 then []
    else [KeyValue(attrs[0].key, EncodeValue(attrs[0].value))] + KeyValues(attrs[1..])
  }

  // ---------------------------------------------------------------------------
  // What the encoding forgets, stated through a decoder.

  /** The value a receiver reads back: an `int` slice becomes an `int64` slice, an
      emitted value becomes a string, and an array with no elements (whatever its
      element type, or an unknown dynamic type) becomes `OtherArray`. */
  function Canonical(v: Value): Value
  {
    match v
    case OtherAttr(e) => StringAttr(e)
    case ArrayAttr(a) =>
      if ArrayLength(a) == 0 then ArrayAttr(OtherArray)
      else if a.IntSlice? then ArrayAttr(Int64Slice(a.ints))
      else v
    case _ => v
  }

  function DecodeArray(vs: seq<AnyValue>): ArrayPayload
  {
    if |vs| == 0 then OtherArray
    else if forall i | 0 <= i < |vs| :: vs[i].BoolValue? then
      BoolSlice(seq(|vs|, i requires 0 <= i < |vs| && vs[i].BoolValue? => vs[i].boolValue))
    else if forall i | 0 <= i < |vs| :: vs[i].IntValue? then
      Int64Slice(seq(|vs|, i requires 0 <= i < |vs| && vs[i].IntValue? => vs[i].intValue))
    else if forall i | 0 <= i < |vs| :: vs[i].DoubleValue? then
      Float64Slice(seq(|vs|, i requires 0 <= i < |vs| && vs[i].DoubleValue? => vs[i].doubleValue))
    else if forall i | 0 <= i < |vs| :: vs[i].StringValue? then
      StringSlice(seq(|vs|, i requires 0 <= i < |vs| && vs[i].StringValue? => vs[i].stringValue))
    else OtherArray
  }

  /** Reads an `AnyValue` back as an attribute value. */
  function DecodeValue(a: AnyValue): Value
  {
    match a
    case BoolValue(b) => BoolAttr(b)
    case IntValue(i) => Int64Attr(i)
    case DoubleValue(d) => Float64Attr(d)
    case StringValue(s) => StringAttr(s)
    case ArrayValue(vs) => ArrayAttr(DecodeArray(vs))
  }

  /** Decoding an encoded value gives back its canonical form: the encoding loses
      exactly what `Canonical` forgets and nothing more. */
  lemma DecodeEncode(v: Value)
    ensures DecodeValue(EncodeValue(v)) == Canonical(v)
  {
    match v
    case ArrayAttr(a) =>
      var vs := ArrayValues(a);
      if ArrayLength(a) != 0 {
        match a
        case BoolSlice(xs) =>
          assert DecodeArray(vs) == BoolSlice(xs);
        case IntSlice(xs) =>
          assert !vs[0].BoolValue?;
          assert DecodeArray(vs) == Int64Slice(xs);
        case Int64Slice(xs) =>
          assert !vs[0].BoolValue?;
          assert DecodeArray(vs) == Int64Slice(xs);
        case Float64Slice(xs) =>
          assert !vs[0].BoolValue? && !vs[0].IntValue?;
          assert DecodeArray(vs) == Float64Slice(xs);
        case StringSlice(xs) =>
          assert !vs[0].BoolValue? && !vs[0].IntValue? && !vs[0].DoubleValue?;
          assert DecodeArray(vs) == StringSlice(xs);
      }
    case _ =>
  }

  /** Two attribute values encode alike exactly when they have the same canonical
      form. */
  lemma EncodeValueInjective(v: Value, w: Value)
    ensures EncodeValue(v) == EncodeValue(w) <==> Canonical(v) == Canonical(w)
  {
    DecodeEncode(v);
    DecodeEncode(w);
    if Canonical(v) == Canonical(w) {
      CanonicalEncodesAlike(v);
      CanonicalEncodesAlike(w);
    }
  }

  /** A value and its canonical form have the same encoding. */
  lemma CanonicalEncodesAlike(v: Value)
    ensures EncodeValue(Canonical(v)) == EncodeValue(v)
  {
    match v
    case ArrayAttr(a) =>
      if ArrayLength(a) != 0 && a.IntSlice? {
        assert ArrayValues(Int64Slice(a.ints)) == ArrayValues(a);
      }
    case _ =>
  }

  /** An encoded attribute list read back gives the keys in order and the canonical
      form of every value. */
  lemma DecodeKeyValues(attrs: seq<Attribute>)
    ensures forall i | 0 <= i < |attrs| ::
      KeyValues(attrs)[i].key == attrs[i].key
      && DecodeValue(KeyValues(attrs)[i].value) == Canonical(attrs[i].value)
  {
    forall i | 0 <= i < |attrs|
      ensures DecodeValue(KeyValues(attrs)[i].value) == Canonical(attrs[i].value)
    {
      DecodeEncode(attrs[i].value);
    }
  }
}
