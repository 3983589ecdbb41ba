/** `Dumps` is a faithful name for a JSON value: equal texts, equal values, and conversely. */
module JsonInjectivity {
  import opened Text
  import opened Json

  // ---- Part 1: two documents sort to the same document iff they denote the same value ----

  lemma {:induction false} InsertFieldElements(f: Field, sorted: seq<Field>)
    ensures forall g :: g in InsertField(f, sorted) <==> g == f || g in sorted
  {
    if sorted != [] && !StringLeq(f.key, sorted[0].key) {
      InsertFieldElements(f, sorted[1..]);
      assert sorted == [sorted[0]] + sorted[1..];
    }
  }

  lemma {:induction false} SortFieldsElements(fields: seq<Field>)
    ensures forall g :: g in SortFields(fields) <==> g in fields
  {
    if fields != [] {
      SortFieldsElements(fields[1..]);
      InsertFieldElements(fields[0], SortFields(fields[1..]));
      assert fields == [fields[0]] + fields[1..];
    }
  }

  /** Keys strictly increase. */
  ghost predicate StrictlySorted(fields: seq<Field>) {
    forall i, j :: 0 <= i < j < |fields| ==> fields[i].key != fields[j].key && StringLeq(fields[i].key, fields[j].key)
  }

  lemma {:induction false} InsertFieldSorted(f: Field, sorted: seq<Field>)
    requires StrictlySorted(sorted) && forall g :: g in sorted ==> g.key != f.key
    ensures StrictlySorted(InsertField(f, sorted))
  {
    if sorted == [] {
    } else if StringLeq(f.key, sorted[0].key) {
      forall i | 1 <= i < |sorted| ensures StringLeq(f.key, sorted[i].key) {
        StringLeqTransitive(f.key, sorted[0].key, sorted[i].key);
      }
    } else {
      var rest := InsertField(f, sorted[1..]);
      InsertFieldSorted(f, sorted[1..]);
      InsertFieldElements(f, sorted[1..]);
      StringLeqTotal(f.key, sorted[0].key);
      forall i | 0 <= i < |rest| ensures rest[i].key != sorted[0].key && StringLeq(sorted[0].key, rest[i].key) {
        assert rest[i] in rest;
      }
    }
  }

  lemma {:induction false} SortFieldsSorted(fields: seq<Field>)
    requires DistinctKeys(fields)
    ensures StrictlySorted(SortFields(fields))
  {
    if fields != [] {
      SortFieldsSorted(fields[1..]);
      SortFieldsElements(fields[1..]);
      InsertFieldSorted(fields[0], SortFields(fields[1..]));
    }
  }

  /** Two strictly sorted lists with the same elements are the same list. */
  lemma {:induction false} SortedUnique(a: seq<Field>, b: seq<Field>)
    requires StrictlySorted(a) && StrictlySorted(b)
    requires forall g :: g in a <==> g in b
    ensures a == b
  {
    assert b != [] ==> b[0] in a;
    if a != [] {
      assert a[0] in b && (b != [] ==> b[0] in a);
      StringLeqTotal(a[0].key, b[0].key);
      assert a[0] == b[0];
      var x, y := a[1..], b[1..];
      assert a == [a[0]] + x && b == [b[0]] + y;
      forall g ensures g in x <==> g in y {
        assert (g in x ==> g in a && g != a[0]) && (g in y ==> g in b && g != b[0]);
        assert g in a ==> g == a[0] || g in x;
        assert g in b ==> g == b[0] || g in y;
      }
      SortedUnique(x, y);
    }
  }

  ghost predicate Agree(v: Json, w: Json) {
    Canon(v) == Canon(w) <==> Meaning(v) == Meaning(w)
  }

  lemma {:induction false} CanonMeaning(v: Json, w: Json)
    requires WellFormed(v) && WellFormed(w)
    ensures Agree(v, w)
    decreases v
  {
    match v
    case JArray(xs) =>
      if w.JArray? {
        forall i | 0 <= i < |xs| && i < |w.items| ensures Agree(xs[i], w.items[i]) {
          CanonMeaning(xs[i], w.items[i]);
        }
        ArraysAgree(xs, w.items);
      }
    case JObject(fs) =>
      if w.JObject? {
        forall i, j | 0 <= i < |fs| && 0 <= j < |w.fields| ensures Agree(fs[i].value, w.fields[j].value) {
          CanonMeaning(fs[i].value, w.fields[j].value);
        }
        ObjectsAgree(fs, w.fields);
      }
    case _ =>
  }

  lemma ArraysAgree(xs: seq<Json>, ys: seq<Json>)
    requires forall i :: 0 <= i < |xs| && i < |ys| ==> Agree(xs[i], ys[i])
    ensures Agree(JArray(xs), JArray(ys))
  {
    if |xs| == |ys| {
      assert CanonItems(xs) == CanonItems(ys) <==> forall i :: 0 <= i < |xs| ==> Canon(xs[i]) == Canon(ys[i]);
      assert MeaningItems(xs) == MeaningItems(ys) <==> forall i :: 0 <= i < |xs| ==> Meaning(xs[i]) == Meaning(ys[i]);
    }
  }

  lemma ObjectsAgree(fs: seq<Field>, gs: seq<Field>)
    requires DistinctKeys(fs) && DistinctKeys(gs)
    requires forall i, j :: 0 <= i < |fs| && 0 <= j < |gs| ==> Agree(fs[i].value, gs[j].value)
    ensures Agree(JObject(fs), JObject(gs))
  {
    ObjectCanon(fs, gs);
    ObjectMeaning(fs, gs);
  }

  /** Each entry of one dict has a matching entry, under `same`, in the other. */
  ghost predicate Matched(fs: seq<Field>, gs: seq<Field>, same: (Json, Json) -> bool) {
    && (forall i :: 0 <= i < |fs| ==> fs[i].key in Keys(gs) && same(fs[i].value, gs[IndexOf(gs, fs[i].key)].value))
    && (forall j :: 0 <= j < |gs| ==> gs[j].key in Keys(fs))
  }

  lemma ObjectMeaning(fs: seq<Field>, gs: seq<Field>)
    requires DistinctKeys(fs) && DistinctKeys(gs)
    ensures Meaning(JObject(fs)) == Meaning(JObject(gs)) <==> Matched(fs, gs, (x, y) => Meaning(x) == Meaning(y))
  {
    var p, q := Meaning(JObject(fs)).fields, Meaning(JObject(gs)).fields;
    assert p.Keys == Keys(fs) && q.Keys == Keys(gs);
    forall i | 0 <= i < |fs| ensures fs[i].key in p && p[fs[i].key] == Meaning(fs[i].value) {
      FoundAt(fs, i);
    }
  }

  lemma ObjectCanon(fs: seq<Field>, gs: seq<Field>)
    requires DistinctKeys(fs) && DistinctKeys(gs)
    ensures Canon(JObject(fs)) == Canon(JObject(gs)) <==> Matched(fs, gs, (x, y) => Canon(x) == Canon(y))
  {
    var a, b := CanonFields(fs), CanonFields(gs);
    SortFieldsElements(a);
    SortFieldsElements(b);
    if forall f :: f in a <==> f in b {
      SortFieldsSorted(a);
      SortFieldsSorted(b);
      SortedUnique(SortFields(a), SortFields(b));
    }
    assert Canon(JObject(fs)) == Canon(JObject(gs)) <==> forall f :: f in a <==> f in b;
    if Matched(fs, gs, (x, y) => Canon(x) == Canon(y)) {
      MatchedEntries(fs, gs);
    }
    if forall f :: f in a <==> f in b {
      EntriesMatched(fs, gs);
    }
  }

  /** Matched dicts have the same entries, once the values are sorted. */
  lemma MatchedEntries(fs: seq<Field>, gs: seq<Field>)
    requires DistinctKeys(gs) && Matched(fs, gs, (x, y) => Canon(x) == Canon(y))
    ensures forall f :: f in CanonFields(fs) <==> f in CanonFields(gs)
  {
    var a, b := CanonFields(fs), CanonFields(gs);
    forall i | 0 <= i < |a| ensures a[i] in b {
      assert b[IndexOf(gs, fs[i].key)] == a[i];
    }
    forall j | 0 <= j < |b| ensures b[j] in a {
      FoundAt(gs, j);
      assert a[IndexOf(fs, gs[j].key)] == b[j];
    }
  }

  lemma EntriesMatched(fs: seq<Field>, gs: seq<Field>)
    requires DistinctKeys(fs) && DistinctKeys(gs)
    requires forall f :: f in CanonFields(fs) <==> f in CanonFields(gs)
    ensures Matched(fs, gs, (x, y) => Canon(x) == Canon(y))
  {
    var a, b := CanonFields(fs), CanonFields(gs);
    forall i | 0 <= i < |fs|
      ensures fs[i].key in Keys(gs) && Canon(fs[i].value) == Canon(gs[IndexOf(gs, fs[i].key)].value)
    {
      assert a[i] in b;
      var j :| 0 <= j < |b| && b[j] == a[i];
      FoundAt(gs, j);
    }
    forall j | 0 <= j < |gs| ensures gs[j].key in Keys(fs) {
      assert b[j] in a;
      var i :| 0 <= i < |a| && a[i] == b[j];
      FoundAt(fs, i);
    }
  }

  // ---- Part 2: the encoding of sorted documents is injective ----

  /** What may follow a value inside a larger text. */
  ghost predicate Ends(x: string) {
    x == [] || x[0] in {',', ']', '}'}
  }

  /** The first character of a value tells its kind. */
  lemma EncodeLead(v: Json)
    ensures |Encode(v)| > 0
    ensures v.JNull? <==> Encode(v)[0] == 'n'
    ensures v.JBool? && v.b <==> Encode(v)[0] == 't'
    ensures v.JBool? && !v.b <==> Encode(v)[0] == 'f'
    ensures v.JInt? <==> Encode(v)[0] == '-' || IsDigit(Encode(v)[0])
    ensures v.JString? <==> Encode(v)[0] == '\"'
    ensures v.JArray? <==> Encode(v)[0] == '['
    ensures v.JObject? <==> Encode(v)[0] == '{'
  {
    if v.JInt? {
      var m := if v.n < 0 then -v.n else v.n;
      assert NatText(m)[0] in NatText(m);
    }
  }

  lemma Hex4Injective(a: nat, b: nat, x: string, y: string)
    requires a < 0x10000 && b < 0x10000
    requires HexText(a, 4) + x == HexText(b, 4) + y
    ensures a == b && x == y
  {
    assert HexText(a, 4) == (HexText(a, 4) + x)[..4] && HexText(b, 4) == (HexText(b, 4) + y)[..4];
    assert x == (HexText(a, 4) + x)[4..] && y == (HexText(b, 4) + y)[4..];
    assert Pow16(4) == 0x10000;
    HexTextInjective(a, b, 4);
  }

  /** The UTF-16 code units of a character, RFC 8259 section 7. */
  ghost function Units(c: char): (u: seq<nat>)
    ensures 1 <= |u| <= 2 && u[0] < 0x10000 && (|u| == 2 ==> u[1] < 0x10000)
  {
    if c as int < 0x10000 then [c as int]
    else [0xD800 + (c as int - 0x10000) / 1024, 0xDC00 + (c as int - 0x10000) % 1024]
  }

  lemma UnitsInjective(c: char, d: char)
    requires Units(c)[0] == Units(d)[0] && (|Units(c)| == |Units(d)| == 2 ==> Units(c)[1] == Units(d)[1])
    ensures c == d
  {
  }

  ghost predicate UnicodeEscaped(c: char) {
    !(' ' <= c <= '~') && c !in {'\n', '\r', '\t'} && c as int != 12 && c as int != 8
  }

  lemma UnicodeEscape(c: char, x: string)
    requires UnicodeEscaped(c)
    ensures EscapeChar(c) + x == "\\u" + (HexText(Units(c)[0], 4) +
      if |Units(c)| == 1 then x else "\\u" + (HexText(Units(c)[1], 4) + x))
  {
  }

  lemma UnicodeEscapePrefix(c: char, d: char, x: string, y: string)
    requires UnicodeEscaped(c) && UnicodeEscaped(d)
    requires EscapeChar(c) + x == EscapeChar(d) + y
    ensures c == d && x == y
  {
    UnicodeEscape(c, x);
    UnicodeEscape(d, y);
    var p := if |Units(c)| == 1 then x else "\\u" + (HexText(Units(c)[1], 4) + x);
    var q := if |Units(d)| == 1 then y else "\\u" + (HexText(Units(d)[1], 4) + y);
    assert HexText(Units(c)[0], 4) + p == (EscapeChar(c) + x)[2..];
    assert HexText(Units(d)[0], 4) + q == (EscapeChar(d) + y)[2..];
    Hex4Injective(Units(c)[0], Units(d)[0], p, q);
    if |Units(c)| == |Units(d)| == 2 {
      assert HexText(Units(c)[1], 4) + x == p[2..] && HexText(Units(d)[1], 4) + y == q[2..];
      Hex4Injective(Units(c)[1], Units(d)[1], x, y);
    }
    UnitsInjective(c, d);
  }

  lemma {:induction false} EscapePrefix(c: char, d: char, x: string, y: string)
    requires EscapeChar(c) + x == EscapeChar(d) + y
    ensures c == d && x == y
  {
    var s, t := EscapeChar(c) + x, EscapeChar(d) + y;
    assert s[0] == EscapeChar(c)[0] && t[0] == EscapeChar(d)[0];
    if UnicodeEscaped(c) && UnicodeEscaped(d) {
      UnicodeEscapePrefix(c, d, x, y);
    } else if |EscapeChar(c)| > 1 && |EscapeChar(d)| > 1 {
      assert s[1] == EscapeChar(c)[1] && t[1] == EscapeChar(d)[1];
      assert c == d;
      assert x == s[2..] && y == t[2..];
    } else {
      assert c == d;
      assert x == s[1..] && y == t[1..];
    }
  }

  lemma Behead(c: char, d: char, p: string, q: string)
    requires [c] + p == [d] + q
    ensures c == d && p == q
  {
    assert ([c] + p)[0] == c && ([d] + q)[0] == d;
    assert ([c] + p)[1..] == p && ([d] + q)[1..] == q;
  }

  lemma Associate(p: string, q: string, r: string)
    ensures (p + q) + r == p + (q + r)
  {
  }

  lemma EscapeLead(c: char)
    ensures |EscapeChar(c)| > 0 && EscapeChar(c)[0] != '\"'
  {
  }

  lemma Lead(p: string, q: string)
    requires |p| > 0
    ensures (p + q)[0] == p[0]
  {
  }

  /** The text of the rest of a string, with what follows it: a quote ends it at once. */
  lemma StringTailUnfold(s: string, x: string)
    ensures StringTail(s) + x == if s == [] then ['\"'] + x else EscapeChar(s[0]) + (StringTail(s[1..]) + x)
    ensures (StringTail(s) + x)[0] == '\"' <==> s == []
  {
    if s != [] {
      Associate(EscapeChar(s[0]), StringTail(s[1..]), x);
      EscapeLead(s[0]);
      Lead(EscapeChar(s[0]), StringTail(s[1..]) + x);
    }
  }

  lemma {:induction false} StringTailPrefix(s: string, t: string, x: string, y: string)
    requires StringTail(s) + x == StringTail(t) + y
    ensures s == t && x == y
  {
    StringTailUnfold(s, x);
    StringTailUnfold(t, y);
    if s == [] {
      Behead('\"', '\"', x, y);
    } else {
      EscapePrefix(s[0], t[0], StringTail(s[1..]) + x, StringTail(t[1..]) + y);
      StringTailPrefix(s[1..], t[1..], x, y);
      assert s == [s[0]] + s[1..] && t == [t[0]] + t[1..];
    }
  }

  lemma StringTextPrefix(s: string, t: string, x: string, y: string)
    requires StringText(s) + x == StringText(t) + y
    ensures s == t && x == y
  {
    Associate("\"", StringTail(s), x);
    Associate("\"", StringTail(t), y);
    Behead('\"', '\"', StringTail(s) + x, StringTail(t) + y);
    StringTailPrefix(s, t, x, y);
  }

  lemma {:induction false} EncodePrefix(v: Json, w: Json, x: string, y: string)
    requires Encode(v) + x == Encode(w) + y && Ends(x) && Ends(y)
    ensures v == w && x == y
    decreases v, 1
  {
    EncodeLead(v);
    EncodeLead(w);
    var s, t := Encode(v) + x, Encode(w) + y;
    assert s[0] == Encode(v)[0] && t[0] == Encode(w)[0];
    match v
    case JNull => assert x == s[4..] && y == t[4..];
    case JBool(b) =>
      assert v == w;
      assert x == s[|Encode(v)|..] && y == t[|Encode(v)|..];
    case JInt(n) => IntTextPrefix(n, w.n, x, y);
    case JString(str) => StringTextPrefix(str, w.s, x, y);
    case JArray(items) => ArrayPrefix(items, w.items, x, y);
    case JObject(fields) => ObjectPrefix(fields, w.fields, x, y);
  }

  ghost function ArrayRest(items: seq<Json>, x: string): string {
    if items == [] then [']'] + x else Encode(items[0]) + (ItemsTail(items[1..]) + x)
  }

  lemma ArrayUnfold(items: seq<Json>, x: string)
    ensures Encode(JArray(items)) + x == ['['] + ArrayRest(items, x)
    ensures ArrayRest(items, x)[0] == ']' <==> items == []
    ensures items != [] ==> Ends(ItemsTail(items[1..]) + x)
  {
    if items != [] {
      EncodeLead(items[0]);
    }
  }

  lemma {:induction false} ArrayPrefix(a: seq<Json>, b: seq<Json>, x: string, y: string)
    requires Encode(JArray(a)) + x == Encode(JArray(b)) + y
    ensures a == b && x == y
    decreases a, 1
  {
    ArrayUnfold(a, x);
    ArrayUnfold(b, y);
    Behead('[', '[', ArrayRest(a, x), ArrayRest(b, y));
    if a == [] {
      Behead(']', ']', x, y);
    } else {
      EncodePrefix(a[0], b[0], ItemsTail(a[1..]) + x, ItemsTail(b[1..]) + y);
      ItemsTailPrefix(a[1..], b[1..], x, y);
      assert a == [a[0]] + a[1..] && b == [b[0]] + b[1..];
    }
  }

  ghost function ItemsRest(items: seq<Json>, x: string): string {
    if items == [] then x else Encode(items[0]) + (ItemsTail(items[1..]) + x)
  }

  lemma ItemsUnfold(items: seq<Json>, x: string)
    ensures ItemsTail(items) + x == [if items == [] then ']' else ','] + ItemsRest(items, x)
    ensures items != [] ==> Ends(ItemsTail(items[1..]) + x)
  {
    if items != [] {
      Associate("," + Encode(items[0]), ItemsTail(items[1..]), x);
      Associate(",", Encode(items[0]), ItemsTail(items[1..]) + x);
    }
  }

  lemma {:induction false} ItemsTailPrefix(a: seq<Json>, b: seq<Json>, x: string, y: string)
    requires ItemsTail(a) + x == ItemsTail(b) + y
    ensures a == b && x == y
    decreases a, 0
  {
    ItemsUnfold(a, x);
    ItemsUnfold(b, y);
    Behead(if a == [] then ']' else ',', if b == [] then ']' else ',', ItemsRest(a, x), ItemsRest(b, y));
    if a != [] {
      EncodePrefix(a[0], b[0], ItemsTail(a[1..]) + x, ItemsTail(b[1..]) + y);
      ItemsTailPrefix(a[1..], b[1..], x, y);
      assert a == [a[0]] + a[1..] && b == [b[0]] + b[1..];
    }
  }

  lemma FieldUnfold(f: Field, x: string)
    ensures EncodeField(f) + x == StringText(f.key) + ([':'] + (Encode(f.value) + x))
  {
  }

  lemma {:induction false} FieldPrefix(f: Field, g: Field, x: string, y: string)
    requires EncodeField(f) + x == EncodeField(g) + y && Ends(x) && Ends(y)
    ensures f == g && x == y
    decreases f, 0
  {
    FieldUnfold(f, x);
    FieldUnfold(g, y);
    StringTextPrefix(f.key, g.key, [':'] + (Encode(f.value) + x), [':'] + (Encode(g.value) + y));
    Behead(':', ':', Encode(f.value) + x, Encode(g.value) + y);
    EncodePrefix(f.value, g.value, x, y);
  }

  ghost function ObjectRest(fields: seq<Field>, x: string): string {
    if fields == [] then ['}'] + x else EncodeField(fields[0]) + (FieldsTail(fields[1..]) + x)
  }

  lemma ObjectUnfold(fields: seq<Field>, x: string)
    ensures Encode(JObject(fields)) + x == ['{'] + ObjectRest(fields, x)
    ensures ObjectRest(fields, x)[0] == '}' <==> fields == []
    ensures fields != [] ==> Ends(FieldsTail(fields[1..]) + x)
  {
  }

  lemma {:induction false} ObjectPrefix(a: seq<Field>, b: seq<Field>, x: string, y: string)
    requires Encode(JObject(a)) + x == Encode(JObject(b)) + y
    ensures a == b && x == y
    decreases a, 1
  {
    ObjectUnfold(a, x);
    ObjectUnfold(b, y);
    Behead('{', '{', ObjectRest(a, x), ObjectRest(b, y));
    if a == [] {
      Behead('}', '}', x, y);
    } else {
      FieldPrefix(a[0], b[0], FieldsTail(a[1..]) + x, FieldsTail(b[1..]) + y);
      FieldsTailPrefix(a[1..], b[1..], x, y);
      assert a == [a[0]] + a[1..] && b == [b[0]] + b[1..];
    }
  }

  ghost function FieldsRest(fields: seq<Field>, x: string): string {
    if fields == [] then x else EncodeField(fields[0]) + (FieldsTail(fields[1..]) + x)
  }

  lemma FieldsUnfold(fields: seq<Field>, x: string)
    ensures FieldsTail(fields) + x == [if fields == [] then '}' else ','] + FieldsRest(fields, x)
    ensures fields != [] ==> Ends(FieldsTail(fields[1..]) + x)
  {
    if fields != [] {
      Associate("," + EncodeField(fields[0]), FieldsTail(fields[1..]), x);
      Associate(",", EncodeField(fields[0]), FieldsTail(fields[1..]) + x);
    }
  }

  lemma {:induction false} FieldsTailPrefix(a: seq<Field>, b: seq<Field>, x: string, y: string)
    requires FieldsTail(a) + x == FieldsTail(b) + y
    ensures a == b && x == y
    decreases a, 0
  {
    FieldsUnfold(a, x);
    FieldsUnfold(b, y);
    Behead(if a == [] then '}' else ',', if b == [] then '}' else ',', FieldsRest(a, x), FieldsRest(b, y));
    if a != [] {
      FieldPrefix(a[0], b[0], FieldsTail(a[1..]) + x, FieldsTail(b[1..]) + y);
      FieldsTailPrefix(a[1..], b[1..], x, y);
      assert a == [a[0]] + a[1..] && b == [b[0]] + b[1..];
    }
  }

  /** The two parts together: `json.dumps` names values one to one. */
  lemma {:induction false} DumpsFaithful(v: Json, w: Json)
    requires WellFormed(v) && WellFormed(w)
    ensures Dumps(v) == Dumps(w) <==> Meaning(v) == Meaning(w)
  {
    CanonMeaning(v, w);
    if Dumps(v) == Dumps(w) {
      assert Dumps(v) + [] == Dumps(w) + [];
      EncodePrefix(Canon(v), Canon(w), [], []);
    }
  }
}
