/**
 * The code that writes events and messages without the dispatcher: the export of a submission
 * package, and the recording of BOAMP ingestions and qualifications.
 */
module OtherWriters {
  import opened Common
  import opened Json
  import opened Uuids
  import opened EventContracts
  import opened RetryPolicy
  import opened Outbox
  import opened StagedObjects
  import opened Dispatcher

  function PendingRow(
    tenant: Uuid, eventId: Uuid, topic: string, payload: Json, dedupeKey: string, createdAt: int, next: Option<int>
  ): Row
  {
    Row(tenant, eventId, topic, 1, payload, dedupeKey, createdAt, Pending, 0, next, None, None)
  }

  /** The message of an export for the webhook; it is due at the time of the export. */
  function ExportMessage(tenant: Uuid, eventId: Uuid, package: Uuid, manifest: string, archive: string, now: int): Row {
    PendingRow(tenant, eventId, WEBHOOK_TOPIC, ExportPayload(package, manifest, archive),
               "submission-export:" + Format(eventId), now, Some(now))
  }

  function ExportMailMessage(tenant: Uuid, eventId: Uuid, package: Uuid, now: int): Row {
    PendingRow(tenant, eventId, SMTP_TOPIC, ExportMailPayload(package),
               "submission-export-email:" + Format(eventId), now, Some(now))
  }

  // ---- The transactions ----

  function OtherEvent(
    id: Uuid, tenant: Uuid, aggregateType: string, aggregateId: Uuid, revision: int, eventType: string, payload: Json,
    actor: Uuid, commandId: Option<Uuid>, correlationId: Option<Uuid>): DomainEvent
  {
    DomainEvent(ByOtherCode, id, tenant, aggregateType, aggregateId, revision, eventType, 1, payload, Some(actor),
                commandId, correlationId, None)
  }

  /** One event without a command, and two messages for it. */
  function ExportWrite(
    tenant: Uuid, actor: Uuid, eventId: Uuid, first: MessageId, second: MessageId, package: Uuid, revision: int,
    manifest: string, archive: string, correlationId: Option<Uuid>, now: int): OtherWrite
  {
    OtherWrite(
      [OtherEvent(eventId, tenant, "SubmissionPackage", package, revision, "SubmissionPackageExported",
                  ExportPayload(package, manifest, archive), actor, None, correlationId)],
      [first, second],
      [ExportMessage(tenant, eventId, package, manifest, archive, now),
       ExportMailMessage(tenant, eventId, package, now)],
      map[])
  }

  function IngestionWrite(
    tenant: Uuid, actor: Uuid, eventId: Uuid, message: MessageId, run: Uuid, stored: Json, observations: int,
    requestHash: string, commandId: Option<Uuid>, correlationId: Option<Uuid>, now: int): OtherWrite
  {
    OtherWrite(
      [OtherEvent(eventId, tenant, "BoampIngestionRun", run, 0, "BoampIngestionRecorded", stored, actor, commandId,
                  correlationId)],
      [message],
      [PendingRow(tenant, eventId, BOAMP_INGESTION_TOPIC, IngestionPayload(run, observations, requestHash),
                  "boamp-ingestion:" + Format(tenant) + ":" + Format(run), now, None)],
      map[])
  }

  function QualificationWrite(
    tenant: Uuid, actor: Uuid, eventId: Uuid, message: MessageId, qualification: Uuid, observation: Uuid, stored: Json,
    decision: string, reason: string, commandId: Uuid, correlationId: Option<Uuid>, now: int): OtherWrite
  {
    OtherWrite(
      [OtherEvent(eventId, tenant, "BoampOpportunityQualification", qualification, 0, "BoampOpportunityQualified",
                  stored, actor, Some(commandId), correlationId)],
      [message],
      [PendingRow(tenant, eventId, BOAMP_QUALIFICATION_TOPIC,
                  QualificationPayload(qualification, observation, decision, reason),
                  "boamp-qualification:" + Format(tenant) + ":" + Format(qualification), now, None)],
      map[])
  }

  lemma TopicsApart()
    ensures WEBHOOK_TOPIC !in DISPATCH_TOPICS && SMTP_TOPIC !in DISPATCH_TOPICS && WEBHOOK_TOPIC != SMTP_TOPIC
    ensures BOAMP_INGESTION_TOPIC !in DISPATCH_TOPICS && BOAMP_QUALIFICATION_TOPIC !in DISPATCH_TOPICS
  {
    assert WEBHOOK_TOPIC[0] == 's' && SMTP_TOPIC[0] == 's' && BOAMP_INGESTION_TOPIC[0] == 'o';
    assert BOAMP_QUALIFICATION_TOPIC[0] == 'o' && COCKPIT_TOPIC[0] == 'c' && RETENTION_TOPIC[0] == 'd';
    assert |WEBHOOK_TOPIC| != |SMTP_TOPIC|;
  }

  /** A write of one event and no other rows is let through iff its primary keys are unused. */
  ghost predicate KeysUnused(db: Db, eventId: Uuid, ids: seq<MessageId>) {
    && (forall k :: 0 <= k < |db.events| ==> db.events[k].id != eventId)
    && (forall i :: 0 <= i < |ids| ==> ids[i] !in db.outbox)
    && (forall i, j :: 0 <= i < j < |ids| ==> ids[i] != ids[j])
  }

  lemma OneEventAllowed(p: Platform, db: Db, w: OtherWrite)
    requires |w.events| == 1 && w.events[0].writer == ByOtherCode && w.writes == map[] && |w.ids| == |w.rows|
    requires forall i :: 0 <= i < |w.rows| ==>
               Fresh(w.rows[i]) && w.rows[i].topic !in DISPATCH_TOPICS && MessageOf(w.rows[i], w.events[0])
    requires forall i, j :: 0 <= i < j < |w.rows| ==> w.rows[i].topic != w.rows[j].topic
    requires StorageKeysUnique(db.roots) && p.otherConstraints(db.roots, map[])
    ensures OtherWriteAllowed(p, db, w) <==> KeysUnused(db, w.events[0].id, w.ids)
  {
    assert db.roots + w.writes == db.roots;
    forall i | 0 <= i < |w.rows| ensures exists k :: 0 <= k < |w.events| && MessageOf(w.rows[i], w.events[k]) {
      assert MessageOf(w.rows[i], w.events[0]);
    }
    if KeysUnused(db, w.events[0].id, w.ids) {
      assert OtherEventsAllowed(db, w.events) && OtherMessagesAllowed(db, w);
    }
  }

  /** An export is stored iff its ids are unused, and both workers accept what is stored. */
  lemma {:induction false} ExportAllowed(
    p: Platform, db: Db, tenant: Uuid, actor: Uuid, eventId: Uuid, first: MessageId, second: MessageId, package: Uuid,
    revision: int, manifest: string, archive: string, correlationId: Option<Uuid>, now: int)
    requires StorageKeysUnique(db.roots) && p.otherConstraints(db.roots, map[]) && |archive| == 64
    ensures var w := ExportWrite(tenant, actor, eventId, first, second, package, revision, manifest, archive,
                                 correlationId, now);
      && (OtherWriteAllowed(p, db, w) <==> KeysUnused(db, eventId, [first, second]))
      && WebhookAccepts(w.rows[0].payload) && SmtpAccepts(w.rows[1].payload)
  {
    TopicsApart();
    ExportAccepted(package, manifest, archive);
    ExportMailAccepted(package);
    OneEventAllowed(
      p, db,
      ExportWrite(tenant, actor, eventId, first, second, package, revision, manifest, archive, correlationId, now));
  }

  /** A recorded ingestion is stored iff its ids are unused, and the bus accepts it. */
  lemma {:induction false} IngestionAllowed(
    p: Platform, db: Db, tenant: Uuid, actor: Uuid, eventId: Uuid, message: MessageId, run: Uuid, stored: Json,
    observations: int, requestHash: string, commandId: Option<Uuid>, correlationId: Option<Uuid>, now: int)
    requires StorageKeysUnique(db.roots) && p.otherConstraints(db.roots, map[]) && |requestHash| == 64
    ensures var w := IngestionWrite(
                       tenant, actor, eventId, message, run, stored, observations, requestHash, commandId,
                       correlationId, now);
      && (OtherWriteAllowed(p, db, w) <==> KeysUnused(db, eventId, [message]))
      && BusAccepts(w.rows[0].topic, w.rows[0].payload)
  {
    TopicsApart();
    IngestionAccepted(run, observations, requestHash);
    OneEventAllowed(
      p, db,
      IngestionWrite(tenant, actor, eventId, message, run, stored, observations, requestHash, commandId,
                     correlationId, now));
  }

  /** A recorded qualification is stored iff its ids are unused, and the bus accepts it. */
  lemma {:induction false} QualificationAllowed(
    p: Platform, db: Db, tenant: Uuid, actor: Uuid, eventId: Uuid, message: MessageId, qualification: Uuid,
    observation: Uuid, stored: Json, decision: string, reason: string, commandId: Uuid,
    correlationId: Option<Uuid>, now: int)
    requires StorageKeysUnique(db.roots) && p.otherConstraints(db.roots, map[])
    requires decision in {"QUALIFIED", "REJECTED", "SNOOZED"}
    ensures var w := QualificationWrite(
                       tenant, actor, eventId, message, qualification, observation, stored, decision, reason, commandId,
                       correlationId, now);
      && (OtherWriteAllowed(p, db, w) <==> KeysUnused(db, eventId, [message]))
      && BusAccepts(w.rows[0].topic, w.rows[0].payload)
  {
    TopicsApart();
    QualificationAccepted(qualification, observation, decision, reason);
    OneEventAllowed(
      p, db,
      QualificationWrite(tenant, actor, eventId, message, qualification, observation, stored, decision, reason,
                         commandId, correlationId, now));
  }

  // ---- What these transactions leave behind ----

  /** The tables after one event and its messages. */
  ghost predicate Leaves(before: Db, after: Db, event: DomainEvent, ids: seq<MessageId>, rows: seq<Row>) {
    && |ids| == |rows| && after.receipts == before.receipts && after.roots == before.roots
    && after.events == before.events + [event]
    && (forall i :: 0 <= i < |ids| ==> ids[i] in after.outbox && after.outbox[ids[i]] == rows[i])
    && (forall m :: m in before.outbox ==> m in after.outbox && after.outbox[m] == before.outbox[m])
  }

  lemma OneEventLeaves(p: Platform, db: Db, w: OtherWrite)
    requires |w.events| == 1 && w.writes == map[] && OtherWriteAllowed(p, db, w)
    ensures Leaves(db, Written(p, db, w), w.events[0], w.ids, w.rows)
  {
    assert w.events == [w.events[0]];
    AddAllKeys(db.outbox, w.ids, w.rows);
    forall i | 0 <= i < |w.ids| ensures AddAll(db.outbox, w.ids, w.rows)[w.ids[i]] == w.rows[i] {
      AddAllAt(db.outbox, w.ids, w.rows, i);
    }
  }

  /** An export leaves an event without a command, and both messages due at once, under their own keys. */
  lemma {:induction false} ExportLeaves(
    p: Platform, db: Db, tenant: Uuid, actor: Uuid, eventId: Uuid, first: MessageId, second: MessageId, package: Uuid,
    revision: int, manifest: string, archive: string, correlationId: Option<Uuid>, now: int)
    requires OtherWriteAllowed(p, db, ExportWrite(tenant, actor, eventId, first, second, package, revision, manifest,
                                                  archive, correlationId, now))
    ensures
      var w := ExportWrite(tenant, actor, eventId, first, second, package, revision, manifest, archive, correlationId,
                           now);
      Leaves(
        db, Written(p, db, w),
        DomainEvent(ByOtherCode, eventId, tenant, "SubmissionPackage", package, revision, "SubmissionPackageExported",
                    1, ExportPayload(package, manifest, archive), Some(actor), None, correlationId, None),
        [first, second],
        [Row(tenant, eventId, "submission.package.exported", 1, ExportPayload(package, manifest, archive),
             "submission-export:" + Format(eventId), now, Pending, 0, Some(now), None, None),
         Row(tenant, eventId, "submission.package.exported.smtp", 1, ExportMailPayload(package),
             "submission-export-email:" + Format(eventId), now, Pending, 0, Some(now), None, None)])
  {
    OneEventLeaves(
      p, db,
      ExportWrite(tenant, actor, eventId, first, second, package, revision, manifest, archive, correlationId, now));
  }
}
