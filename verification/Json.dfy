/**
 * JSON documents as the dispatcher and the workers handle them: Python dicts in insertion
 * order (`JObject`), the value such a dict denotes (`Meaning`), and `json.dumps` with
 * `ensure_ascii=True`, compact separators and `sort_keys=True` (`Dumps`).
 */
module Json {
  import opened Common
  import opened Text

  datatype Json =
    | JNull
    | JBool(b: bool)
    | JInt(n: int)
    | JString(s: string)
    | JArray(items: seq<Json>)
    | JObject(fields: seq<Field>)

  /** One entry of a dict; a dict keeps its entries in insertion order. */
  datatype Field = Field(key: string, value: Json)

  /** What a JSON text denotes: an object is a finite map, without an order. */
  datatype Value =
    | VNull
    | VBool(b: bool)
    | VInt(n: int)
    | VString(s: string)
    | VArray(items: seq<Value>)
    | VObject(fields: map<string, Value>)

  ghost predicate DistinctKeys(fields: seq<Field>) {
    forall i, j :: 0 <= i < j < |fields| ==> fields[i].key != fields[j].key
  }

  /** Python dicts never hold a key twice. */
  ghost predicate WellFormed(v: Json) {
    match v
    case JArray(items) => forall i | 0 <= i < |items| :: WellFormed(items[i])
    case JObject(fields) => DistinctKeys(fields) && forall i | 0 <= i < |fields| :: WellFormed(fields[i].value)
    case _ => true
  }

  function Keys(fields: seq<Field>): set<string> {
    set i | 0 <= i < |fields| :: fields[i].key
  }

  predicate IsFirstAt(fields: seq<Field>, key: string, i: nat) {
    i < |fields| && fields[i].key == key && forall j :: 0 <= j < i ==> fields[j].key != key
  }

  lemma {:induction false} FirstIndexExists(fields: seq<Field>, key: string, i: nat)
    requires i < |fields| && fields[i].key == key
    ensures exists k | 0 <= k < |fields| :: IsFirstAt(fields, key, k)
  {
    if IsFirstAt(fields, key, i) {
    } else {
      var j :| 0 <= j < i && fields[j].key == key;
      FirstIndexExists(fields, key, j);
    }
  }

  function IndexOf(fields: seq<Field>, key: string): (i: nat)
    requires key in Keys(fields)
    ensures i < |fields| && fields[i].key == key
    ensures forall j :: 0 <= j < i ==> fields[j].key != key
  {
    assert exists k | 0 <= k < |fields| :: IsFirstAt(fields, key, k) by {
      var i :| 0 <= i < |fields| && fields[i].key == key;
      FirstIndexExists(fields, key, i);
    }
    var i :| 0 <= i < |fields| && IsFirstAt(fields, key, i);
    i
  }

  /** A key is found at its first position. */
  lemma FoundAt(fields: seq<Field>, i: nat)
    requires i < |fields| && forall j :: 0 <= j < i ==> fields[j].key != fields[i].key
    ensures fields[i].key in Keys(fields) && IndexOf(fields, fields[i].key) == i
    ensures Get(fields, fields[i].key) == Some(fields[i].value)
  {
  }

  /** `dict.get(key)`. */
  function Get(fields: seq<Field>, key: string): (r: Option<Json>)
    ensures r.Some? <==> key in Keys(fields)
  {
    if key in Keys(fields) then Some(fields[IndexOf(fields, key)].value) else None
  }

  ghost function Meaning(v: Json): Value
    decreases v
  {
    match v
    case JNull => VNull
    case JBool(b) => VBool(b)
    case JInt(n) => VInt(n)
    case JString(s) => VString(s)
    case JArray(items) => VArray(MeaningItems(items))
    case JObject(fields) =>
      VObject(map key | key in Keys(fields) :: Meaning(fields[IndexOf(fields, key)].value))
  }

  ghost function MeaningItems(items: seq<Json>): (r: seq<Value>)
    ensures |r| == |items| && forall i :: 0 <= i < |items| ==> r[i] == Meaning(items[i])
    decreases items
  {
    seq(|items|, i requires 0 <= i < |items| => Meaning(items[i]))
  }

  // ---- sort_keys ----

  function InsertField(f: Field, sorted: seq<Field>): seq<Field> {
    if sorted == [] || StringLeq(f.key, sorted[0].key) then [f] + sorted
    else [sorted[0]] + InsertField(f, sorted[1..])
  }

  function SortFields(fields: seq<Field>): seq<Field> {
    if fields == [] then [] else InsertField(fields[0], SortFields(fields[1..]))
  }

  /** The document with the entries of every object in key order. */
  function Canon(v: Json): Json
    decreases v
  {
    match v
    case JArray(items) => JArray(CanonItems(items))
    case JObject(fields) => JObject(SortFields(CanonFields(fields)))
    case _ => v
  }

  function CanonItems(items: seq<Json>): (r: seq<Json>)
    ensures |r| == |items| && forall i :: 0 <= i < |items| ==> r[i] == Canon(items[i])
    decreases items
  {
    seq(|items|, i requires 0 <= i < |items| => Canon(items[i]))
  }

  function CanonFields(fields: seq<Field>): (r: seq<Field>)
    ensures |r| == |fields|
    ensures forall i :: 0 <= i < |fields| ==> r[i] == Field(fields[i].key, Canon(fields[i].value))
    decreases fields
  {
    seq(|fields|, i requires 0 <= i < |fields| => Field(fields[i].key, Canon(fields[i].value)))
  }

  // ---- Encoding, RFC 8259 ----

  /** A character inside a string, section 7; characters outside ASCII become UTF-16 escapes. */
  function EscapeChar(c: char): string {
    if c == '\"' then "\\\""
    else if c == '\\' then "\\\\"
    else if c == '\n' then "\\n"
    else if c == '\r' then "\\r"
    else if c == '\t' then "\\t"
    else if c as int == 12 then "\\f"
    else if c as int == 8 then "\\b"
    else if ' ' <= c <= '~' then [c]
    else if c as int < 0x10000 then "\\u" + HexText(c as int, 4)
    else
      "\\u" + HexText(0xD800 + (c as int - 0x10000) / 1024, 4) +
      "\\u" + HexText(0xDC00 + (c as int - 0x10000) % 1024, 4)
  }

  function StringTail(s: string): string {
    if s == [] then "\"" else EscapeChar(s[0]) + StringTail(s[1..])
  }

  function StringText(s: string): string {
    "\"" + StringTail(s)
  }

  function Encode(v: Json): string
    decreases v
  {
    match v
    case JNull => "null"
    case JBool(b) => if b then "true" else "false"
    case JInt(n) => IntText(n)
    case JString(s) => StringText(s)
    case JArray(items) => "[" + if items == [] then "]" else Encode(items[0]) + ItemsTail(items[1..])
    case JObject(fields) => "{" + if fields == [] then "}" else EncodeField(fields[0]) + FieldsTail(fields[1..])
  }

  function EncodeField(f: Field): string
    decreases f
  {
    StringText(f.key) + ":" + Encode(f.value)
  }

  function ItemsTail(items: seq<Json>): string
    decreases items
  {
    if items == [] then "]" else "," + Encode(items[0]) + ItemsTail(items[1..])
  }

  function FieldsTail(fields: seq<Field>): string
    decreases fields
  {
    if fields == [] then "}" else "," + EncodeField(fields[0]) + FieldsTail(fields[1..])
  }

  /** `json.dumps(v, ensure_ascii=True, separators=(",", ":"), sort_keys=True)`. */
  function Dumps(v: Json): string {
    Encode(Canon(v))
  }
}
