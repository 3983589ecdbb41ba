/**
 * What each worker's payload check lets through, whoever stored the payload, entry by entry.
 */
module PayloadContracts {
  import opened Common
  import opened Json
  import opened Uuids
  import opened EventContracts

  /** `payload[key]`, if the payload is a dict that has the key. */
  ghost function Entry(payload: Json, key: string): Option<Json> {
    if payload.JObject? then Get(payload.fields, key) else None
  }

  ghost predicate IsText(v: Option<Json>) {
    v.Some? && v.value.JString?
  }

  /** The text of a UUID. */
  ghost predicate IsId(v: Option<Json>) {
    IsText(v) && Parse(v.value.s).Some?
  }

  /** `isinstance(v, int)`, which also holds of booleans. */
  ghost predicate IsInt(v: Option<Json>) {
    v.Some? && (v.value.JInt? || v.value.JBool?)
  }

  ghost predicate IsCount(v: Option<Json>) {
    IsInt(v) && (v.value.JInt? ==> v.value.n >= 0)
  }

  /** A dict with these keys and no others. */
  ghost predicate HasOnly(payload: Json, keys: seq<string>) {
    payload.JObject? && forall key :: Entry(payload, key).Some? <==> key in keys
  }

  lemma OnlyKeys(payload: Json, keys: seq<string>)
    ensures HasOnly(payload, keys) <==> payload.JObject? && Keys(payload.fields) == Elements(keys)
  {
    if HasOnly(payload, keys) {
      forall key ensures key in Keys(payload.fields) <==> key in Elements(keys) {
        assert Entry(payload, key).Some? <==> key in keys;
      }
    }
  }

  /** The webhook wants the package, a digest of 64 characters and the download; it ignores the rest. */
  lemma {:induction false} WebhookContract(payload: Json)
    ensures WebhookAccepts(payload) <==>
      && IsText(Entry(payload, "submission_package_id")) && Entry(payload, "delivery") == Some(JString("DOWNLOAD"))
      && IsText(Entry(payload, "archive_sha256")) && |Entry(payload, "archive_sha256").value.s| == 64
  {
  }

  /** The mail worker wants the package's id and the notice, and nothing else. */
  lemma {:induction false} MailContract(payload: Json)
    ensures SmtpAccepts(payload) <==>
      && HasOnly(payload, ["submission_package_id", "delivery"])
      && IsId(Entry(payload, "submission_package_id"))
      && Entry(payload, "delivery") == Some(JString("EXPORT_READY"))
  {
    OnlyKeys(payload, ["submission_package_id", "delivery"]);
  }

  ghost predicate IsIngestion(payload: Json) {
    && HasOnly(payload, ["ingestion_run_id", "observation_count", "request_hash"])
    && IsText(Entry(payload, "ingestion_run_id"))
    && IsInt(Entry(payload, "observation_count"))
    && IsText(Entry(payload, "request_hash")) && |Entry(payload, "request_hash").value.s| == 64
  }

  ghost predicate IsQualification(payload: Json) {
    && HasOnly(payload, ["qualification_id", "observation_id", "decision", "reason_code"])
    && IsText(Entry(payload, "qualification_id")) && IsText(Entry(payload, "observation_id"))
    && IsText(Entry(payload, "reason_code"))
    && (|| Entry(payload, "decision") == Some(JString("QUALIFIED"))
        || Entry(payload, "decision") == Some(JString("REJECTED"))
        || Entry(payload, "decision") == Some(JString("SNOOZED")))
  }

  lemma IngestionContract(payload: Json)
    ensures BusAccepts("opportunity.boamp.ingestion.recorded", payload) <==> IsIngestion(payload)
  {
    OnlyKeys(payload, ["ingestion_run_id", "observation_count", "request_hash"]);
  }

  lemma QualificationContract(payload: Json)
    ensures BusAccepts("opportunity.boamp.qualification.recorded", payload) <==> IsQualification(payload)
  {
    var keys := ["qualification_id", "observation_id", "decision", "reason_code"];
    OnlyKeys(payload, keys);
    assert keys[0] in keys && keys[1] in keys && keys[2] in keys && keys[3] in keys;
    assert "opportunity.boamp.qualification.recorded" != BOAMP_INGESTION_TOPIC;
  }

  /** On each of its two topics the bus takes exactly what that topic is for; on others nothing. */
  lemma {:induction false} BusContract(topic: string, payload: Json)
    ensures BusAccepts(topic, payload) <==>
      || (topic == "opportunity.boamp.ingestion.recorded" && IsIngestion(payload))
      || (topic == "opportunity.boamp.qualification.recorded" && IsQualification(payload))
  {
    IngestionContract(payload);
    QualificationContract(payload);
  }

  // ---- The cockpit ----

  ghost predicate IsCockpitData(data: Json, tenant: Uuid) {
    && HasOnly(data, ["storage_object_id", "tenant_id", "consultation_id", "state"])
    && Entry(data, "tenant_id") == Some(JString(Format(tenant)))
    && IsId(Entry(data, "storage_object_id")) && IsId(Entry(data, "consultation_id"))
    && (|| Entry(data, "state") == Some(JString("PENDING_SCAN"))
        || Entry(data, "state") == Some(JString("SCANNED"))
        || Entry(data, "state") == Some(JString("REJECTED")))
  }

  ghost predicate IsEnvelope(payload: Json) {
    && HasOnly(payload, ["event_id", "event_type", "aggregate_type", "aggregate_id", "aggregate_revision", "data"])
    && IsId(Entry(payload, "event_id")) && IsId(Entry(payload, "aggregate_id"))
    && (|| Entry(payload, "event_type") == Some(JString("DCE_STAGING_QUARANTINE_RECORDED"))
        || Entry(payload, "event_type") == Some(JString("DCE_STAGING_SCAN_RECORDED")))
    && Entry(payload, "aggregate_type") == Some(JString("DCE_STAGED_OBJECT"))
    && IsCount(Entry(payload, "aggregate_revision"))
  }

  lemma CockpitDataContract(data: seq<Field>, tenant: Uuid)
    ensures SafeCockpitData(data, tenant) <==> IsCockpitData(JObject(data), tenant)
  {
    OnlyKeys(JObject(data), ["storage_object_id", "tenant_id", "consultation_id", "state"]);
  }

  lemma EnvelopeContract(payload: Json)
    ensures ReadEnvelope(payload).Some? <==>
      IsEnvelope(payload) && Entry(payload, "data").Some? && Entry(payload, "data").value.JObject?
    ensures ReadEnvelope(payload).Some? ==>
      var e := ReadEnvelope(payload).value;
      && Some(JObject(e.payload)) == Entry(payload, "data")
      && Some(e.eventId) == Parse(Entry(payload, "event_id").value.s)
      && Some(e.aggregateId) == Parse(Entry(payload, "aggregate_id").value.s)
      && Some(JString(e.eventType)) == Entry(payload, "event_type")
      && Some(JString(e.aggregateType)) == Entry(payload, "aggregate_type")
      && Some(e.aggregateRevision) == IntOf(Entry(payload, "aggregate_revision").value)
  {
    OnlyKeys(payload, ["event_id", "event_type", "aggregate_type", "aggregate_id", "aggregate_revision", "data"]);
  }

  /** The cockpit worker takes an envelope of one of its two events with the tenant's own, allowed data. */
  lemma {:induction false} CockpitContract(payload: Json, tenant: Uuid)
    ensures SafeEvent(payload, tenant).Some? <==>
      IsEnvelope(payload) && Entry(payload, "data").Some? && IsCockpitData(Entry(payload, "data").value, tenant)
    ensures SafeEvent(payload, tenant).Some? ==> SafeEvent(payload, tenant) == ReadEnvelope(payload)
  {
    EnvelopeContract(payload);
    if ReadEnvelope(payload).Some? {
      CockpitDataContract(ReadEnvelope(payload).value.payload, tenant);
    }
  }

  // ---- Retention ----

  /**
   * A retention message with textual ids names an object exactly if its data hold the ids of an
   * object and of a tenant; other entries do not matter.
   */
  lemma {:induction false} RetentionContract(payload: Json, data: Json)
    requires Entry(payload, "data") == Some(data)
    requires var stored, tenant := Entry(data, "storage_object_id"), Entry(data, "tenant_id");
      (stored.Some? ==> !stored.value.JInt?) && (tenant.Some? ==> !tenant.value.JInt?)
    ensures var stored, tenant := Entry(data, "storage_object_id"), Entry(data, "tenant_id");
      RetentionTargetOf(payload) ==
        if IsId(stored) && IsId(tenant) then
          Some(RetentionTarget(Parse(stored.value.s).value, Parse(tenant.value.s).value))
        else None
  {
  }

  lemma {:induction false} NoDataNoTarget(payload: Json)
    requires Entry(payload, "data") == None
    ensures RetentionTargetOf(payload) == None
  {
  }
}
