/**
 * The envelope the dispatcher writes for a domain event, and what each outbox worker accepts
 * of a stored payload: cockpit_projection.py, submission_export_webhook.py,
 * submission_export_smtp.py, opportunity_event_bus.py and dce_retention.py.
 */
module EventContracts {
  import opened Common
  import opened Text
  import opened Json
  import opened Uuids

  const COCKPIT_TOPIC := "cockpit_projection"
  const RETENTION_TOPIC := "dce_staging_retention"
  const WEBHOOK_TOPIC := "submission.package.exported"
  const SMTP_TOPIC := "submission.package.exported.smtp"
  const BOAMP_INGESTION_TOPIC := "opportunity.boamp.ingestion.recorded"
  const BOAMP_QUALIFICATION_TOPIC := "opportunity.boamp.qualification.recorded"

  const STAGED_OBJECT := "DCE_STAGED_OBJECT"

  /** `PendingDomainEvent`: a fact about to become one event and one outbox message. */
  datatype PendingEvent = PendingEvent(
    aggregateType: string,
    aggregateId: Uuid,
    aggregateRevision: int,
    eventType: string,
    payload: seq<Field>,
    topic: string,
    payloadVersion: int)

  function EventPayload(e: PendingEvent, eventId: Uuid): Json {
    JObject([
      Field("event_id", JString(Format(eventId))),
      Field("event_type", JString(e.eventType)),
      Field("aggregate_type", JString(e.aggregateType)),
      Field("aggregate_id", JString(Format(e.aggregateId))),
      Field("aggregate_revision", JInt(e.aggregateRevision)),
      Field("data", JObject(e.payload))])
  }

  function UuidOf(v: Json): Option<Uuid> {
    if v.JString? then Parse(v.s) else None
  }

  /** `isinstance(v, int)` also holds of booleans. */
  function IntOf(v: Json): Option<int> {
    match v
    case JInt(n) => Some(n)
    case JBool(b) => Some(if b then 1 else 0)
    case _ => None
  }

  function At(fields: seq<Field>, key: string): Json
    requires key in Keys(fields)
  {
    Get(fields, key).value
  }

  // ---- Cockpit projection ----

  const ENVELOPE_KEYS: set<string> :=
    {"event_id", "event_type", "aggregate_type", "aggregate_id", "aggregate_revision", "data"}
  const COCKPIT_EVENT_TYPES: set<string> := {"DCE_STAGING_QUARANTINE_RECORDED", "DCE_STAGING_SCAN_RECORDED"}
  const COCKPIT_DATA_KEYS: set<string> := {"storage_object_id", "tenant_id", "consultation_id", "state"}
  const COCKPIT_STATES: set<string> := {"PENDING_SCAN", "SCANNED", "REJECTED"}

  datatype SafeCockpitEvent = SafeCockpitEvent(
    eventId: Uuid,
    eventType: string,
    aggregateType: string,
    aggregateId: Uuid,
    aggregateRevision: int,
    payload: seq<Field>)

  /** The data a cockpit event may carry for one tenant. */
  predicate SafeCockpitData(data: seq<Field>, tenant: Uuid) {
    && Keys(data) == COCKPIT_DATA_KEYS
    && At(data, "tenant_id") == JString(Format(tenant))
    && UuidOf(At(data, "storage_object_id")).Some?
    && UuidOf(At(data, "consultation_id")).Some?
    && var state := At(data, "state");
       state.JString? && state.s in COCKPIT_STATES
  }

  /** The identity, type, aggregate, revision and data of an envelope of the right shape. */
  function ReadEnvelope(payload: Json): Option<SafeCockpitEvent> {
    if !payload.JObject? || Keys(payload.fields) != ENVELOPE_KEYS then None
    else
      var fields := payload.fields;
      var eventId, aggregateId := UuidOf(At(fields, "event_id")), UuidOf(At(fields, "aggregate_id"));
      var eventType, aggregateType := At(fields, "event_type"), At(fields, "aggregate_type");
      var revision, data := IntOf(At(fields, "aggregate_revision")), At(fields, "data");
      if eventId.None? || aggregateId.None? then None
      else if !eventType.JString? || eventType.s !in COCKPIT_EVENT_TYPES then None
      else if aggregateType != JString(STAGED_OBJECT) || revision.None? || revision.value < 0 then None
      else if !data.JObject? then None
      else Some(SafeCockpitEvent(
                  eventId.value, eventType.s, STAGED_OBJECT, aggregateId.value, revision.value, data.fields))
  }

  /** `_safe_event`: None refuses the payload. */
  function SafeEvent(payload: Json, tenant: Uuid): Option<SafeCockpitEvent> {
    var event := ReadEnvelope(payload);
    if event.Some? && SafeCockpitData(event.value.payload, tenant) then event else None
  }

  /** The events whose type and aggregate the cockpit contract allows. */
  predicate CockpitKnows(e: PendingEvent) {
    e.eventType in COCKPIT_EVENT_TYPES && e.aggregateType == STAGED_OBJECT && e.aggregateRevision >= 0
  }

  ghost function Decoded(e: PendingEvent, id: Uuid): SafeCockpitEvent {
    SafeCockpitEvent(id, e.eventType, e.aggregateType, e.aggregateId, e.aggregateRevision, e.payload)
  }

  lemma EnvelopeKeys(e: PendingEvent, id: Uuid)
    ensures var fields := EventPayload(e, id).fields;
      |fields| == 6 && DistinctKeys(fields) && Keys(fields) == ENVELOPE_KEYS
  {
    var fields := EventPayload(e, id).fields;
    assert fields[0].key == "event_id" && fields[1].key == "event_type" && fields[2].key == "aggregate_type";
    assert fields[3].key == "aggregate_id" && fields[4].key == "aggregate_revision" && fields[5].key == "data";
  }

  lemma {:induction false} EnvelopeFields(e: PendingEvent, id: Uuid)
    ensures var fields := EventPayload(e, id).fields;
      && Keys(fields) == ENVELOPE_KEYS
      && Get(fields, "event_id") == Some(JString(Format(id)))
      && Get(fields, "event_type") == Some(JString(e.eventType))
      && Get(fields, "aggregate_type") == Some(JString(e.aggregateType))
      && Get(fields, "aggregate_id") == Some(JString(Format(e.aggregateId)))
      && Get(fields, "aggregate_revision") == Some(JInt(e.aggregateRevision))
      && Get(fields, "data") == Some(JObject(e.payload))
  {
    var fields := EventPayload(e, id).fields;
    EnvelopeKeys(e, id);
    FoundAt(fields, 0);
    FoundAt(fields, 1);
    FoundAt(fields, 2);
    FoundAt(fields, 3);
    FoundAt(fields, 4);
    FoundAt(fields, 5);
  }

  /** Decoding any dict that holds the six entries, in whatever order. */
  lemma DecodeEntries(fields: seq<Field>, e: PendingEvent, id: Uuid)
    requires Keys(fields) == ENVELOPE_KEYS
    requires Get(fields, "event_id") == Some(JString(Format(id)))
    requires Get(fields, "event_type") == Some(JString(e.eventType))
    requires Get(fields, "aggregate_type") == Some(JString(e.aggregateType))
    requires Get(fields, "aggregate_id") == Some(JString(Format(e.aggregateId)))
    requires Get(fields, "aggregate_revision") == Some(JInt(e.aggregateRevision))
    requires Get(fields, "data") == Some(JObject(e.payload))
    ensures ReadEnvelope(JObject(fields)) == if CockpitKnows(e) then Some(Decoded(e, id)) else None
  {
    ParseFormat(id);
    ParseFormat(e.aggregateId);
  }

  lemma EnvelopeReadsBack(e: PendingEvent, id: Uuid)
    ensures ReadEnvelope(EventPayload(e, id)) == if CockpitKnows(e) then Some(Decoded(e, id)) else None
  {
    EnvelopeFields(e, id);
    DecodeEntries(EventPayload(e, id).fields, e, id);
  }

  /** The worker reads back exactly the event the dispatcher wrote, and refuses all others. */
  lemma {:induction false} EnvelopeRoundTrip(e: PendingEvent, id: Uuid, tenant: Uuid)
    ensures SafeEvent(EventPayload(e, id), tenant) ==
      if CockpitKnows(e) && SafeCockpitData(e.payload, tenant) then Some(Decoded(e, id)) else None
  {
    EnvelopeReadsBack(e, id);
  }

  // ---- The other workers ----

  /** The webhook's `_safe_payload`: other keys are tolerated and dropped. */
  predicate WebhookAccepts(payload: Json) {
    && payload.JObject?
    && var fields := payload.fields;
       && {"submission_package_id", "archive_sha256", "delivery"} <= Keys(fields)
       && At(fields, "delivery") == JString("DOWNLOAD")
       && At(fields, "submission_package_id").JString?
       && At(fields, "archive_sha256").JString?
       && |At(fields, "archive_sha256").s| == 64
  }

  predicate SmtpAccepts(payload: Json) {
    && payload.JObject?
    && var fields := payload.fields;
       && Keys(fields) == {"submission_package_id", "delivery"}
       && At(fields, "delivery") == JString("EXPORT_READY")
       && UuidOf(At(fields, "submission_package_id")).Some?
  }

  predicate BusAccepts(topic: string, payload: Json) {
    && payload.JObject?
    && var fields := payload.fields;
       if topic == BOAMP_INGESTION_TOPIC then
         && Keys(fields) == {"ingestion_run_id", "observation_count", "request_hash"}
         && At(fields, "ingestion_run_id").JString?
         && IntOf(At(fields, "observation_count")).Some?
         && At(fields, "request_hash").JString?
         && |At(fields, "request_hash").s| == 64
       else if topic == BOAMP_QUALIFICATION_TOPIC then
         && Keys(fields) == {"qualification_id", "observation_id", "decision", "reason_code"}
         && (forall key :: key in Keys(fields) ==> At(fields, key).JString?)
         && At(fields, "decision").s in {"QUALIFIED", "REJECTED", "SNOOZED"}
       else false
  }

  // ---- What the other writers put on these topics ----

  /** submission/application/service.py, for the webhook. */
  function ExportPayload(package: Uuid, manifest: string, archive: string): Json {
    JObject([
      Field("submission_package_id", JString(Format(package))),
      Field("manifest_sha256", JString(manifest)),
      Field("archive_sha256", JString(archive)),
      Field("delivery", JString("DOWNLOAD"))])
  }

  /** The same export, for the notification mail. */
  function ExportMailPayload(package: Uuid): Json {
    JObject([
      Field("submission_package_id", JString(Format(package))),
      Field("delivery", JString("EXPORT_READY"))])
  }

  /** opportunity/infrastructure/boamp_observation_repository.py. */
  function IngestionPayload(run: Uuid, observations: int, requestHash: string): Json {
    JObject([
      Field("ingestion_run_id", JString(Format(run))),
      Field("observation_count", JInt(observations)),
      Field("request_hash", JString(requestHash))])
  }

  /** opportunity/infrastructure/boamp_qualification_repository.py. */
  function QualificationPayload(qualification: Uuid, observation: Uuid, decision: string, reason: string): Json {
    JObject([
      Field("qualification_id", JString(Format(qualification))),
      Field("observation_id", JString(Format(observation))),
      Field("decision", JString(decision)),
      Field("reason_code", JString(reason))])
  }

  /** The webhook worker accepts an export exactly when its digest has 64 characters. */
  lemma {:induction false} ExportAccepted(package: Uuid, manifest: string, archive: string)
    ensures WebhookAccepts(ExportPayload(package, manifest, archive)) <==> |archive| == 64
  {
    var fields := ExportPayload(package, manifest, archive).fields;
    assert fields[0].key == "submission_package_id" && fields[1].key == "manifest_sha256";
    assert fields[2].key == "archive_sha256" && fields[3].key == "delivery";
    FoundAt(fields, 0);
    FoundAt(fields, 2);
    FoundAt(fields, 3);
  }

  /** The mail worker accepts every export notification. */
  lemma {:induction false} ExportMailAccepted(package: Uuid)
    ensures SmtpAccepts(ExportMailPayload(package))
  {
    var fields := ExportMailPayload(package).fields;
    assert fields[0].key == "submission_package_id" && fields[1].key == "delivery";
    FoundAt(fields, 0);
    FoundAt(fields, 1);
    ParseFormat(package);
  }

  /** The bus worker accepts an ingestion exactly when its request hash has 64 characters. */
  lemma {:induction false} IngestionAccepted(run: Uuid, observations: int, requestHash: string)
    ensures BusAccepts(BOAMP_INGESTION_TOPIC, IngestionPayload(run, observations, requestHash)) <==> |requestHash| == 64
  {
    var fields := IngestionPayload(run, observations, requestHash).fields;
    assert fields[0].key == "ingestion_run_id" && fields[1].key == "observation_count";
    assert fields[2].key == "request_hash";
    FoundAt(fields, 0);
    FoundAt(fields, 1);
    FoundAt(fields, 2);
  }

  /** The bus worker accepts a qualification exactly when it knows the decision. */
  lemma {:induction false} QualificationAccepted(
    qualification: Uuid, observation: Uuid, decision: string, reason: string)
    ensures BusAccepts(BOAMP_QUALIFICATION_TOPIC, QualificationPayload(qualification, observation, decision, reason))
       <==> decision in {"QUALIFIED", "REJECTED", "SNOOZED"}
  {
    var fields := QualificationPayload(qualification, observation, decision, reason).fields;
    assert fields[0].key == "qualification_id" && fields[1].key == "observation_id";
    assert fields[2].key == "decision" && fields[3].key == "reason_code";
    FoundAt(fields, 0);
    FoundAt(fields, 1);
    FoundAt(fields, 2);
    FoundAt(fields, 3);
    assert BOAMP_QUALIFICATION_TOPIC != BOAMP_INGESTION_TOPIC;
  }

  /** An envelope of the dispatcher is refused on every topic of these writers. */
  lemma {:induction false} EnvelopesRefusedElsewhere(e: PendingEvent, id: Uuid, topic: string)
    ensures !WebhookAccepts(EventPayload(e, id)) && !SmtpAccepts(EventPayload(e, id))
    ensures !BusAccepts(topic, EventPayload(e, id))
  {
    EnvelopeKeys(e, id);
    assert "data" in ENVELOPE_KEYS && "submission_package_id" !in ENVELOPE_KEYS;
  }

  /** `UUID(str(payload.get(key)))` of the retention worker. */
  function UuidPayload(data: Json, key: string): Option<Uuid> {
    if !data.JObject? || key !in Keys(data.fields) then None
    else match At(data.fields, key)
         case JString(s) => Parse(s)
         case JInt(n) => Parse(IntText(n))
         case _ => None
  }

  datatype RetentionTarget = RetentionTarget(objectId: Uuid, tenant: Uuid)

  function RetentionTargetOf(payload: Json): Option<RetentionTarget> {
    var data := if payload.JObject? && "data" in Keys(payload.fields) then At(payload.fields, "data") else JObject([]);
    var objectId, tenant := UuidPayload(data, "storage_object_id"), UuidPayload(data, "tenant_id");
    if objectId.Some? && tenant.Some? then Some(RetentionTarget(objectId.value, tenant.value)) else None
  }

  // ---- The events of the staging handlers, backend/app/modules/dce/application/handlers.py ----

  datatype StagingFact =
    | Prepared
    | UploadClaimed
    | QuarantineRecorded(actualSize: int, expectedSize: int, contentAllowed: bool)
    | UploadRejected
    | Expired
    | ScanRecorded(actualSize: int, expectedSize: int, verdict: string)

  /** The state the handler gives the object, where the event repeats it. */
  function FactState(f: StagingFact): Option<string> {
    match f
    case QuarantineRecorded(actual, expected, allowed) =>
      Some(if actual != expected || !allowed then "REJECTED" else "QUARANTINED")
    case ScanRecorded(actual, expected, verdict) =>
      Some(if actual != expected then "REJECTED" else if verdict == "CLEAN" then "CLEAN" else "REJECTED")
    case _ => None
  }

  function FactType(f: StagingFact): string {
    match f
    case Prepared => "DCE_STAGING_PREPARED"
    case UploadClaimed => "DCE_STAGING_UPLOAD_CLAIMED"
    case QuarantineRecorded(_, _, _) => "DCE_STAGING_QUARANTINE_RECORDED"
    case UploadRejected => "DCE_STAGING_UPLOAD_REJECTED"
    case Expired => "DCE_STAGING_EXPIRED"
    case ScanRecorded(_, _, _) => "DCE_STAGING_SCAN_RECORDED"
  }

  function FactTopic(f: StagingFact): string {
    match f
    case UploadRejected => RETENTION_TOPIC
    case Expired => RETENTION_TOPIC
    case _ => if FactState(f) == Some("REJECTED") then RETENTION_TOPIC else COCKPIT_TOPIC
  }

  function StagingEvent(f: StagingFact, objectId: Uuid, tenant: Uuid, consultation: Uuid): PendingEvent {
    var data := [
      Field("storage_object_id", JString(Format(objectId))),
      Field("tenant_id", JString(Format(tenant))),
      Field("consultation_id", JString(Format(consultation)))];
    PendingEvent(
      STAGED_OBJECT, objectId, 0, FactType(f),
      data + (if FactState(f).Some? then [Field("state", JString(FactState(f).value))] else []),
      FactTopic(f), 1)
  }

  lemma StagingData(f: StagingFact, objectId: Uuid, tenant: Uuid, consultation: Uuid)
    ensures var fields := StagingEvent(f, objectId, tenant, consultation).payload;
      && Get(fields, "storage_object_id") == Some(JString(Format(objectId)))
      && Get(fields, "tenant_id") == Some(JString(Format(tenant)))
      && Get(fields, "state") == (if FactState(f).Some? then Some(JString(FactState(f).value)) else None)
  {
    var fields := StagingEvent(f, objectId, tenant, consultation).payload;
    assert fields[0].key == "storage_object_id" && fields[1].key == "tenant_id" && fields[2].key == "consultation_id";
    FoundAt(fields, 0);
    FoundAt(fields, 1);
    if FactState(f).Some? {
      assert fields[3] == Field("state", JString(FactState(f).value));
      FoundAt(fields, 3);
    }
  }

  lemma RefusedState(data: seq<Field>, state: Option<string>, tenant: Uuid)
    requires Get(data, "state") == (if state.Some? then Some(JString(state.value)) else None)
    requires state.Some? ==> state.value !in COCKPIT_STATES
    ensures !SafeCockpitData(data, tenant)
  {
  }

  lemma CockpitFactState(f: StagingFact)
    requires FactTopic(f) == COCKPIT_TOPIC
    ensures FactState(f).Some? ==> FactState(f).value !in COCKPIT_STATES
  {
  }

  /**
   * The two contracts do not meet: QUARANTINED and CLEAN, the only states the handlers send to
   * the cockpit, are not among the states the cockpit worker allows. Every cockpit message of
   * the staging handlers is refused.
   */
  lemma {:induction false} StagingCockpitEventsRefused(
    f: StagingFact, id: Uuid, objectId: Uuid, tenant: Uuid, consultation: Uuid)
    requires FactTopic(f) == COCKPIT_TOPIC
    ensures SafeEvent(EventPayload(StagingEvent(f, objectId, tenant, consultation), id), tenant) == None
  {
    var e := StagingEvent(f, objectId, tenant, consultation);
    StagingData(f, objectId, tenant, consultation);
    CockpitFactState(f);
    RefusedState(e.payload, FactState(f), tenant);
    EnvelopeRoundTrip(e, id, tenant);
  }

  lemma ReadTarget(fields: seq<Field>, data: seq<Field>, objectId: Uuid, tenant: Uuid)
    requires Get(fields, "data") == Some(JObject(data))
    requires Get(data, "storage_object_id") == Some(JString(Format(objectId)))
    requires Get(data, "tenant_id") == Some(JString(Format(tenant)))
    ensures RetentionTargetOf(JObject(fields)) == Some(RetentionTarget(objectId, tenant))
  {
    ParseFormat(objectId);
    ParseFormat(tenant);
  }

  /** A retention message names the object and the tenant it was written for. */
  lemma {:induction false} StagingRetentionRoundTrip(
    f: StagingFact, id: Uuid, objectId: Uuid, tenant: Uuid, consultation: Uuid)
    ensures RetentionTargetOf(EventPayload(StagingEvent(f, objectId, tenant, consultation), id))
         == Some(RetentionTarget(objectId, tenant))
  {
    var e := StagingEvent(f, objectId, tenant, consultation);
    EnvelopeFields(e, id);
    StagingData(f, objectId, tenant, consultation);
    ReadTarget(EventPayload(e, id).fields, e.payload, objectId, tenant);
  }

  /** The fact leaves its object REJECTED or EXPIRED: nothing will be made of its bytes any more. */
  predicate ClosesObject(f: StagingFact) {
    match f
    case Prepared => false
    case UploadClaimed => false
    case QuarantineRecorded(actual, expected, allowed) => !(actual == expected && allowed)
    case UploadRejected => true
    case Expired => true
    case ScanRecorded(actual, expected, verdict) => !(actual == expected && verdict == "CLEAN")
  }

  /** The retention worker hears of exactly the facts that close an object, the cockpit of the others. */
  lemma {:induction false} RetentionHearsExactly(
    f: StagingFact, objectId: Uuid, tenant: Uuid, consultation: Uuid)
    ensures var e := StagingEvent(f, objectId, tenant, consultation);
      && e.topic == (if ClosesObject(f) then "dce_staging_retention" else "cockpit_projection")
      && e.aggregateId == objectId && e.aggregateType == "DCE_STAGED_OBJECT" && e.aggregateRevision == 0
  {
  }
}
