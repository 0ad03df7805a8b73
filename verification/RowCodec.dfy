/** The tagged JSON in which rows are parked. JSON text stands for its tree; the platform's own conversions
(base64, ISO dates, decimal bigints) are parameters that undo each other. */
module RowCodec {
  import opened Changes

  datatype Number = Finite(value: real) | NegativeZero | NotANumber | Infinity | MinusInfinity

  datatype Field = Field(name: string, value: Value)

  datatype Value =
    | Unchanged // the mark of a column left out
    | Undefined
    | Null
    | Bool(flag: bool)
    | Num(number: Number)
    | BigInt(big: int)
    | Text(text: string)
    | Date(time: Option<int>) // none is an invalid date
    | Bytes(bytes: seq<nat>, isBuffer: bool) // a Buffer, or another byte array
    | List(items: seq<Value>)
    | Object(fields: seq<Field>)
    | Foreign(json: Option<Value>, shown: string) // a driver's wrapper type: its toJSON(), and its String()

  datatype JField = JField(name: string, value: Json)

  datatype Json =
    | JNull
    | JBool(flag: bool)
    | JNumber(value: real)
    | JText(text: string)
    | JList(items: seq<Json>)
    | JObject(fields: seq<JField>)

  datatype Platform = Platform(
    decimal: int -> string, parseDecimal: string -> int,
    iso: int -> string, parseDate: string -> Option<int>,
    base64: seq<nat> -> string, parseBase64: string -> seq<nat>)

  ghost predicate Inverse(p: Platform) {
    && (forall n :: p.parseDecimal(p.decimal(n)) == n)
    && (forall t :: p.parseDate(p.iso(t)).Some? && p.parseDate(p.iso(t)).value == t)
    && (forall b :: p.parseBase64(p.base64(b)) == b)
  }

  const TAGS := {"$bytes", "$date", "$bigint", "$literal", "$unchanged"}

  /** The one name whose assignment changes the object's prototype instead of adding a field. */
  const PROTO := "__proto__"

  function Tagged(tag: string, j: Json): Json {
    JObject([JField(tag, j)])
  }

  predicate LooksLikeTag(names: seq<string>) {
    |names| == 1 && names[0] in TAGS
  }

  function Names(fields: seq<Field>): seq<string> {
    seq(|fields|, i requires 0 <= i < |fields| => fields[i].name)
  }

  function JNames(fields: seq<JField>): seq<string> {
    seq(|fields|, i requires 0 <= i < |fields| => fields[i].name)
  }

  function Encode(p: Platform, v: Value): Json
    decreases v, 1
  {
    match v
    case Unchanged => Tagged("$unchanged", JBool(true))
    case Undefined => JNull
    case Null => JNull
    case Bool(b) => JBool(b)
    case Num(n) => EncodeNumber(n)
    case BigInt(n) => Tagged("$bigint", JText(p.decimal(n)))
    case Text(t) => JText(t)
    case Date(t) => if t.Some? then Tagged("$date", JText(p.iso(t.value))) else JNull
    case Bytes(b, _) => Tagged("$bytes", JText(p.base64(b)))
    case List(items) => JList(EncodeList(p, items))
    case Object(fields) =>
      var out := JObject(EncodeFields(p, fields));
      if LooksLikeTag(Names(fields)) then Tagged("$literal", out) else out
    case Foreign(json, shown) => if json.Some? then Encode(p, json.value) else JText(shown)
  }

  function EncodeNumber(n: Number): Json {
    match n
    case Finite(x) => JNumber(x)
    case NegativeZero => JNumber(0.0) // JSON has no sign for zero
    case NotANumber => Tagged("$literal", JText("NaN"))
    case Infinity => Tagged("$literal", JText("Infinity"))
    case MinusInfinity => Tagged("$literal", JText("-Infinity"))
  }

  function EncodeList(p: Platform, items: seq<Value>): seq<Json>
    decreases items, 0
  {
    if items == [] then [] else [Encode(p, items[0])] + EncodeList(p, items[1..])
  }

  function EncodeFields(p: Platform, fields: seq<Field>): seq<JField>
    decreases fields, 0
  {
    if fields == [] then []
    else
      (if fields[0].name == PROTO then [] else [JField(fields[0].name, Encode(p, fields[0].value))])
      + EncodeFields(p, fields[1..])
  }

  function Decode(p: Platform, j: Json): Value
    decreases j, 1
  {
    match j
    case JNull => Null
    case JBool(b) => Bool(b)
    case JNumber(x) => Num(Finite(x))
    case JText(t) => Text(t)
    case JList(items) => List(DecodeList(p, items))
    case JObject(fields) =>
      if LooksLikeTag(JNames(fields)) then DecodeTag(p, fields) else Object(DecodeFields(p, fields))
  }

  function DecodeTag(p: Platform, fields: seq<JField>): Value
    requires |fields| == 1
    decreases fields, 1
  {
    var tag, payload := fields[0].name, fields[0].value;
    if tag == "$unchanged" then Unchanged
    else if tag == "$bytes" && payload.JText? then Bytes(p.parseBase64(payload.text), true)
    else if tag == "$date" && payload.JText? then Date(p.parseDate(payload.text))
    else if tag == "$bigint" && payload.JText? then BigInt(p.parseDecimal(payload.text))
    else if tag == "$literal" && payload == JText("NaN") then Num(NotANumber)
    else if tag == "$literal" && payload == JText("Infinity") then Num(Infinity)
    else if tag == "$literal" && payload == JText("-Infinity") then Num(MinusInfinity)
    else if tag == "$literal" && payload.JObject? then Object(DecodeFields(p, payload.fields)) // its keys are data
    else Object(DecodeFields(p, fields))
  }

  function DecodeList(p: Platform, items: seq<Json>): seq<Value>
    decreases items, 0
  {
    if items == [] then [] else [Decode(p, items[0])] + DecodeList(p, items[1..])
  }

  function DecodeFields(p: Platform, fields: seq<JField>): seq<Field>
    decreases fields, 0
  {
    if fields == [] then []
    else
      (if fields[0].name == PROTO then [] else [Field(fields[0].name, Decode(p, fields[0].value))])
      + DecodeFields(p, fields[1..])
  }

  /* ----- what survives ----- */

  /** Nothing in the value is undefined, minus zero, an invalid date, a byte array that is not a Buffer, a
  driver's wrapper type, or a field named `__proto__`. */
  predicate Lossless(v: Value)
    decreases v, 1
  {
    match v
    case Undefined => false
    case Num(n) => !n.NegativeZero?
    case Date(t) => t.Some?
    case Bytes(_, isBuffer) => isBuffer
    case List(items) => LosslessList(items)
    case Object(fields) => LosslessFields(fields)
    case Foreign(_, _) => false
    case _ => true
  }

  predicate LosslessList(items: seq<Value>)
    decreases items, 0
  {
    items == [] || (Lossless(items[0]) && LosslessList(items[1..]))
  }

  predicate LosslessFields(fields: seq<Field>)
    decreases fields, 0
  {
    fields == [] || (fields[0].name != PROTO && Lossless(fields[0].value) && LosslessFields(fields[1..]))
  }

  lemma {:induction false} SameNames(p: Platform, fields: seq<Field>)
    requires LosslessFields(fields)
    ensures JNames(EncodeFields(p, fields)) == Names(fields)
    decreases |fields|
  {
    if fields != [] {
      SameNames(p, fields[1..]);
      assert Names(fields) == [fields[0].name] + Names(fields[1..]);
      var first := JField(fields[0].name, Encode(p, fields[0].value));
      assert EncodeFields(p, fields) == [first] + EncodeFields(p, fields[1..]);
      assert JNames([first] + EncodeFields(p, fields[1..])) == [first.name] + JNames(EncodeFields(p, fields[1..]));
    }
  }

  lemma {:induction false} RoundTrip(p: Platform, v: Value)
    requires Inverse(p) && Lossless(v)
    ensures Decode(p, Encode(p, v)) == v
    decreases v, 1
  {
    match v
    case List(items) => RoundTripList(p, items);
    case Object(fields) =>
      RoundTripFields(p, fields);
      SameNames(p, fields);
      var out := EncodeFields(p, fields);
      if LooksLikeTag(Names(fields)) {
        assert JNames([JField("$literal", JObject(out))]) == ["$literal"];
      }
    case Unchanged => assert JNames([JField("$unchanged", JBool(true))]) == ["$unchanged"];
    case Num(n) =>
      if n.NotANumber? {
        assert JNames([JField("$literal", JText("NaN"))]) == ["$literal"];
      } else if n.Infinity? {
        assert JNames([JField("$literal", JText("Infinity"))]) == ["$literal"];
      } else if n.MinusInfinity? {
        assert JNames([JField("$literal", JText("-Infinity"))]) == ["$literal"];
      }
    case BigInt(n) => assert JNames([JField("$bigint", JText(p.decimal(n)))]) == ["$bigint"];
    case Date(t) =>
      assert JNames([JField("$date", JText(p.iso(t.value)))]) == ["$date"];
      assert p.parseDate(p.iso(t.value)).Some? && p.parseDate(p.iso(t.value)).value == t.value;
    case Bytes(b, _) => assert JNames([JField("$bytes", JText(p.base64(b)))]) == ["$bytes"];
    case _ =>
  }

  lemma {:induction false} RoundTripList(p: Platform, items: seq<Value>)
    requires Inverse(p) && LosslessList(items)
    ensures DecodeList(p, EncodeList(p, items)) == items
    decreases items, 0
  {
    if items != [] {
      RoundTrip(p, items[0]);
      RoundTripList(p, items[1..]);
      assert EncodeList(p, items)[1..] == EncodeList(p, items[1..]);
    }
  }

  lemma {:induction false} RoundTripFields(p: Platform, fields: seq<Field>)
    requires Inverse(p) && LosslessFields(fields)
    ensures DecodeFields(p, EncodeFields(p, fields)) == fields
    decreases fields, 0
  {
    if fields != [] {
      RoundTrip(p, fields[0].value);
      RoundTripFields(p, fields[1..]);
      assert EncodeFields(p, fields)[1..] == EncodeFields(p, fields[1..]);
      assert fields[0] == Field(fields[0].name, fields[0].value);
    }
  }

  /* ----- and nothing else does ----- */

  lemma NeverForeign(p: Platform, j: Json)
    ensures !Decode(p, j).Foreign? && !Decode(p, j).Undefined?
    ensures Decode(p, j).Num? ==> !Decode(p, j).number.NegativeZero?
    ensures Decode(p, j).Bytes? ==> Decode(p, j).isBuffer
  {
  }

  lemma {:induction false} NoProto(p: Platform, fields: seq<JField>)
    ensures forall f :: f in DecodeFields(p, fields) ==> f.name != PROTO
    decreases |fields|
  {
    if fields != [] {
      NoProto(p, fields[1..]);
    }
  }

  lemma ObjectHasNoProto(p: Platform, j: Json)
    requires Decode(p, j).Object?
    ensures forall f :: f in Decode(p, j).fields ==> f.name != PROTO
  {
    NoProto(p, j.fields);
    if LooksLikeTag(JNames(j.fields)) && j.fields[0].value.JObject? {
      NoProto(p, j.fields[0].value.fields);
    }
  }

  lemma {:induction false} Lossy(p: Platform, v: Value)
    requires Inverse(p) && !Lossless(v)
    ensures Decode(p, Encode(p, v)) != v
    decreases v, 1
  {
    NeverForeign(p, Encode(p, v));
    match v
    case List(items) => LossyList(p, items);
    case Object(fields) =>
      if f :| f in fields && f.name == PROTO {
        if Decode(p, Encode(p, v)).Object? {
          ObjectHasNoProto(p, Encode(p, v));
        }
      } else {
        LossyFields(p, fields);
        NamesWithoutProto(p, fields);
        if LooksLikeTag(Names(fields)) {
          assert JNames([JField("$literal", JObject(EncodeFields(p, fields)))]) == ["$literal"];
        }
      }
    case _ =>
  }

  lemma {:induction false} NamesWithoutProto(p: Platform, fields: seq<Field>)
    requires forall f :: f in fields ==> f.name != PROTO
    ensures JNames(EncodeFields(p, fields)) == Names(fields)
    decreases |fields|
  {
    if fields != [] {
      assert fields[0] in fields && forall f :: f in fields[1..] ==> f in fields;
      NamesWithoutProto(p, fields[1..]);
      assert Names(fields) == [fields[0].name] + Names(fields[1..]);
      var first := JField(fields[0].name, Encode(p, fields[0].value));
      assert JNames([first] + EncodeFields(p, fields[1..])) == [first.name] + JNames(EncodeFields(p, fields[1..]));
    }
  }

  lemma {:induction false} LossyList(p: Platform, items: seq<Value>)
    requires Inverse(p) && !LosslessList(items)
    ensures DecodeList(p, EncodeList(p, items)) != items
    decreases items, 0
  {
    assert EncodeList(p, items)[1..] == EncodeList(p, items[1..]);
    var first, rest := Decode(p, Encode(p, items[0])), DecodeList(p, EncodeList(p, items[1..]));
    assert DecodeList(p, EncodeList(p, items)) == [first] + rest;
    assert items == [items[0]] + items[1..];
    if !Lossless(items[0]) {
      Lossy(p, items[0]);
      assert ([first] + rest)[0] != items[0];
    } else {
      LossyList(p, items[1..]);
      assert ([first] + rest)[1..] == rest;
    }
  }

  lemma {:induction false} LossyFields(p: Platform, fields: seq<Field>)
    requires Inverse(p) && !LosslessFields(fields) && forall f :: f in fields ==> f.name != PROTO
    ensures DecodeFields(p, EncodeFields(p, fields)) != fields
    decreases fields, 0
  {
    assert fields[0] in fields && forall f :: f in fields[1..] ==> f in fields;
    assert EncodeFields(p, fields)[1..] == EncodeFields(p, fields[1..]);
    var first := Field(fields[0].name, Decode(p, Encode(p, fields[0].value)));
    var rest := DecodeFields(p, EncodeFields(p, fields[1..]));
    assert DecodeFields(p, EncodeFields(p, fields)) == [first] + rest;
    if !Lossless(fields[0].value) {
      Lossy(p, fields[0].value);
      assert ([first] + rest)[0] != fields[0];
    } else {
      LossyFields(p, fields[1..]);
      assert ([first] + rest)[1..] == rest;
    }
  }

  /** The codec returns a value if and only if it is lossless, at whatever depth, objects that look like tags
  included. */
  lemma ExactlyTheLossless(p: Platform, v: Value)
    requires Inverse(p)
    ensures Decode(p, Encode(p, v)) == v <==> Lossless(v)
  {
    if Lossless(v) {
      RoundTrip(p, v);
    } else {
      Lossy(p, v);
    }
  }

  /** So no two lossless values are parked as the same text. */
  lemma Injective(p: Platform, v: Value, w: Value)
    requires Inverse(p) && Lossless(v) && Lossless(w) && Encode(p, v) == Encode(p, w)
    ensures v == w
  {
    RoundTrip(p, v);
    RoundTrip(p, w);
  }

  /* ----- row lists ----- */

  datatype Rows = Rows(rows: seq<Value>) | NotAList | NotAnObject

  function EncodeRows(p: Platform, rows: seq<Value>): Json {
    JList(EncodeList(p, rows))
  }

  function DecodeRows(p: Platform, j: Json): Rows {
    if !j.JList? then NotAList
    else
      var rows := DecodeList(p, j.items);
      if forall r :: r in rows ==> r.Object? then Rows(rows) else NotAnObject
  }

  /** A parked row list comes back as it was if and only if its rows are lossless. */
  lemma RowsRoundTrip(p: Platform, rows: seq<Value>)
    requires Inverse(p) && forall r :: r in rows ==> r.Object?
    ensures DecodeRows(p, EncodeRows(p, rows)) == Rows(rows) <==> LosslessList(rows)
  {
    if LosslessList(rows) {
      RoundTripList(p, rows);
    } else {
      LossyList(p, rows);
    }
  }
}
