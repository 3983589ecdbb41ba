/**
 * Commands, their context, and `canonical_request_hash`. SHA-256 is taken as injective: the
 * canonical text stands for its digest.
 */
module CommandRequests {
  import opened Common
  import opened Json
  import opened JsonInjectivity
  import opened Uuids

  /** `dump` is the dict `model_dump(mode="json")` returns, with the transport ids in it. */
  datatype Command = Command(
    commandType: string,
    commandId: Uuid,
    idempotencyKey: Uuid,
    correlationId: Option<Uuid>,
    dump: seq<Field>)

  datatype Context = Context(tenant: Uuid, actor: Uuid, actorKind: string, receivedAt: int)

  const TRANSPORT_KEYS: set<string> := {"command_id", "idempotency_key", "correlation_id"}

  function Semantic(dump: seq<Field>): seq<Field> {
    if dump == [] then []
    else (if dump[0].key in TRANSPORT_KEYS then [] else [dump[0]]) + Semantic(dump[1..])
  }

  function RequestDocument(c: Command): Json {
    JObject([Field("command_type", JString(c.commandType)), Field("payload", JObject(Semantic(c.dump)))])
  }

  function RequestText(c: Command): string {
    Dumps(RequestDocument(c))
  }

  /** The ids under which a command travels; a client that retries may draw new ones. */
  ghost predicate IsTransportId(key: string) {
    key == "command_id" || key == "idempotency_key" || key == "correlation_id"
  }

  /** The two dumps hold the same value, or none, under every key but the transport ids. */
  ghost predicate SamePayload(a: seq<Field>, b: seq<Field>) {
    forall key | !IsTransportId(key) :: EntryMeaning(a, key) == EntryMeaning(b, key)
  }

  ghost function EntryMeaning(fields: seq<Field>, key: string): Option<Value> {
    match Get(fields, key)
    case Some(v) => Some(Meaning(v))
    case None => None
  }

  lemma GetHead(fields: seq<Field>, key: string)
    requires fields != []
    ensures Get(fields, key) == if fields[0].key == key then Some(fields[0].value) else Get(fields[1..], key)
  {
    var rest := fields[1..];
    if fields[0].key == key {
      FoundAt(fields, 0);
    } else if key in Keys(rest) {
      var i := IndexOf(rest, key);
      assert fields[i + 1] == rest[i];
      assert forall j :: 0 <= j < i + 1 ==> fields[j].key != key by {
        forall j | 0 < j < i + 1 ensures fields[j].key != key {
          assert fields[j] == rest[j - 1];
        }
      }
      FoundAt(fields, i + 1);
    } else {
      forall j | 0 <= j < |fields| ensures fields[j].key != key {
        if j > 0 {
          assert fields[j] == rest[j - 1];
        }
      }
    }
  }

  /** Dropping the transport ids changes what is found under them, and nothing else. */
  lemma {:induction false} SemanticGet(dump: seq<Field>, key: string)
    ensures Get(Semantic(dump), key) == if IsTransportId(key) then None else Get(dump, key)
  {
    if dump != [] {
      SemanticGet(dump[1..], key);
      GetHead(dump, key);
      if dump[0].key !in TRANSPORT_KEYS {
        var s := [dump[0]] + Semantic(dump[1..]);
        assert s[1..] == Semantic(dump[1..]);
        GetHead(s, key);
      } else {
        assert Semantic(dump) == Semantic(dump[1..]);
      }
    }
  }

  lemma {:induction false} SemanticIsSubset(dump: seq<Field>)
    ensures forall f :: f in Semantic(dump) ==> f in dump
  {
    if dump != [] {
      SemanticIsSubset(dump[1..]);
    }
  }

  lemma {:induction false} SemanticDistinct(dump: seq<Field>)
    requires DistinctKeys(dump)
    ensures DistinctKeys(Semantic(dump))
  {
    if dump != [] {
      SemanticDistinct(dump[1..]);
      var rest := Semantic(dump[1..]);
      SemanticIsSubset(dump[1..]);
      if dump[0].key !in TRANSPORT_KEYS {
        forall j | 0 <= j < |rest| ensures rest[j].key != dump[0].key {
          assert rest[j] in dump[1..];
        }
        assert Semantic(dump) == [dump[0]] + rest;
      } else {
        assert Semantic(dump) == rest;
      }
    }
  }

  lemma DocumentWellFormed(c: Command)
    requires WellFormed(JObject(c.dump))
    ensures WellFormed(RequestDocument(c))
  {
    SemanticDistinct(c.dump);
    SemanticIsSubset(c.dump);
    var s := Semantic(c.dump);
    forall i | 0 <= i < |s| ensures WellFormed(s[i].value) {
      assert s[i] in c.dump;
    }
    assert WellFormed(JObject(s));
    var fields := RequestDocument(c).fields;
    assert |fields| == 2 && fields[0].key == "command_type" && fields[1].key == "payload";
    assert WellFormed(fields[0].value) && WellFormed(fields[1].value);
  }

  lemma ObjectMeaningByKey(a: seq<Field>, b: seq<Field>)
    ensures Meaning(JObject(a)) == Meaning(JObject(b)) <==> forall key :: EntryMeaning(a, key) == EntryMeaning(b, key)
  {
    var m, n := Meaning(JObject(a)).fields, Meaning(JObject(b)).fields;
    assert m.Keys == Keys(a) && n.Keys == Keys(b);
    if forall key :: EntryMeaning(a, key) == EntryMeaning(b, key) {
      forall key ensures (key in m <==> key in n) && (key in m ==> m[key] == n[key]) {
        assert EntryMeaning(a, key) == EntryMeaning(b, key);
      }
      assert m == n;
    }
    if m == n {
      forall key ensures EntryMeaning(a, key) == EntryMeaning(b, key) {
        assert key in m <==> key in n;
      }
    }
  }

  lemma DocumentMeaning(c: Command, d: Command)
    ensures Meaning(RequestDocument(c)) == Meaning(RequestDocument(d)) <==>
      c.commandType == d.commandType && Meaning(JObject(Semantic(c.dump))) == Meaning(JObject(Semantic(d.dump)))
  {
    DocumentEntries(c);
    DocumentEntries(d);
    ObjectMeaningByKey(RequestDocument(c).fields, RequestDocument(d).fields);
    var f, g := RequestDocument(c).fields, RequestDocument(d).fields;
    if Meaning(RequestDocument(c)) == Meaning(RequestDocument(d)) {
      assert EntryMeaning(f, "command_type") == EntryMeaning(g, "command_type");
      assert EntryMeaning(f, "payload") == EntryMeaning(g, "payload");
    }
  }

  lemma DocumentEntries(c: Command)
    ensures var f := RequestDocument(c).fields;
      && EntryMeaning(f, "command_type") == Some(VString(c.commandType))
      && EntryMeaning(f, "payload") == Some(Meaning(JObject(Semantic(c.dump))))
      && forall key :: key != "command_type" && key != "payload" ==> EntryMeaning(f, key) == None
  {
    var f := RequestDocument(c).fields;
    assert f[0].key == "command_type" && f[1].key == "payload";
    FoundAt(f, 0);
    FoundAt(f, 1);
  }

  /**
   * Two commands have the same request text, and so the same request hash, iff they have the
   * same type and equal payloads, whatever the order of their fields and their transport ids.
   */
  lemma {:induction false} RequestTextFaithful(c: Command, d: Command)
    requires WellFormed(JObject(c.dump)) && WellFormed(JObject(d.dump))
    ensures RequestText(c) == RequestText(d) <==> c.commandType == d.commandType && SamePayload(c.dump, d.dump)
  {
    DocumentWellFormed(c);
    DocumentWellFormed(d);
    DumpsFaithful(RequestDocument(c), RequestDocument(d));
    DocumentMeaning(c, d);
    var s, t := Semantic(c.dump), Semantic(d.dump);
    ObjectMeaningByKey(s, t);
    forall key ensures EntryMeaning(s, key) == (if IsTransportId(key) then None else EntryMeaning(c.dump, key))
      && EntryMeaning(t, key) == (if IsTransportId(key) then None else EntryMeaning(d.dump, key))
    {
      SemanticGet(c.dump, key);
      SemanticGet(d.dump, key);
    }
    if SamePayload(c.dump, d.dump) {
      forall key ensures EntryMeaning(s, key) == EntryMeaning(t, key) {
      }
    }
    if forall key :: EntryMeaning(s, key) == EntryMeaning(t, key) {
      forall key | !IsTransportId(key) ensures EntryMeaning(c.dump, key) == EntryMeaning(d.dump, key) {
        assert EntryMeaning(s, key) == EntryMeaning(t, key);
      }
    }
  }
}
