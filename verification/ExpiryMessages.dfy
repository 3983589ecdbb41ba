/** What a committed expiry leaves for the retention worker, and what staged objects always carry. */
module ExpiryMessages {
  import opened Common
  import opened Uuids
  import opened EventContracts
  import opened RetryPolicy
  import opened Outbox
  import opened StagedObjects
  import opened Dispatcher
  import opened DispatchLog
  import opened DispatchHistory
  import opened DispatchOutcomes
  import opened StagingExpiry

  /** The object as it is expired by this actor. */
  ghost function ExpiredBy(o: StagedObject, actor: Uuid): StagedObject {
    o.(state := ObjectState.Expired, updatedBy := Some(actor))
  }

  /** What the handler has seen and returned when an expiry commits. */
  lemma {:induction false} ExpiryReturned(p: Platform, req: Request, roots: Roots, choice: Choice, seen: seq<Seen>,
                                          o: Outcome, id: Uuid)
    requires HandlesExpiry(p) && IsExpiry(req, id) && Talk(p, req, roots, choice, seen)
    requires NextOf(p, req, seen) == Done(Ok(o))
    ensures Expirable(req, roots, id) && LockedIn(seen, id)
    ensures o.resultCode == "DCE_STAGING_EXPIRED" && o.aggregateRefs == [AggregateRef(id)]
    ensures o.events ==
      [StagingEvent(StagingFact.Expired, id, req.context.tenant, roots[id].row.identity.consultation)]
    ensures o.writes == map[id := Staged(ExpiredBy(roots[id].row, req.context.actor))]
  {
    TalkExactly(p, req, roots, choice, seen);
    LooksOnce(p, req, roots, choice.told, choice.looks, id);
    assert seen == [Locked(id, RowAt(roots, id))];
    assert seen[0].id == id;
  }

  /** The message names the object to the retention worker, which may take it at once. */
  ghost predicate TellsRetention(row: Row, id: Uuid, tenant: Uuid) {
    && row.topic == "dce_staging_retention" && row.tenant == tenant
    && row.status == Pending && row.nextAttemptAt == None && row.attemptCount == 0
    && RetentionTargetOf(row.payload) == Some(RetentionTarget(id, tenant))
  }

  lemma ExpiryTells(req: Request, choice: Choice, id: Uuid, consultation: Uuid, event: DomainEvent, row: Row)
    requires Stored(req, choice, StagingEvent(StagingFact.Expired, id, req.context.tenant, consultation),
                    choice.eventId(0), event, row)
    ensures TellsRetention(row, id, req.context.tenant)
    ensures event.eventType == "DCE_STAGING_EXPIRED" && event.aggregateType == "DCE_STAGED_OBJECT"
    ensures event.aggregateId == id && event.actor == Some(req.context.actor) && event.tenant == req.context.tenant
  {
    StagingRetentionRoundTrip(StagingFact.Expired, choice.eventId(0), id, req.context.tenant, consultation);
  }

  /**
   * A committed expiry changes exactly its object, to EXPIRED, and stores exactly one event and
   * one message: the message is on the retention topic and names that object and its tenant.
   */
  lemma {:induction false} ExpiryAnnounced(p: Platform, start: Db, log: seq<Entry>, i: nat, id: Uuid)
    returns (m: MessageId)
    requires Faithful(p, start, log) && HandlesExpiry(p) && Commits(log, i) && IsExpiry(log[i].req, id)
    ensures var before, after, req := DbAt(p, start, log, i), DbAt(p, start, log, i + 1), log[i].req;
      && id in before.roots && before.roots[id].Staged?
      && after.roots == before.roots[id := Staged(ExpiredBy(before.roots[id].row, req.context.actor))]
      && |after.events| == |before.events| + 1
      && after.events[|before.events|].eventType == "DCE_STAGING_EXPIRED"
      && after.events[|before.events|].aggregateId == id
      && m !in before.outbox && after.outbox.Keys == before.outbox.Keys + {m}
      && TellsRetention(after.outbox[m], id, req.context.tenant)
      && log[i].reply.value.resultCode == "DCE_STAGING_EXPIRED"
  {
    var before, after, req, choice := DbAt(p, start, log, i), DbAt(p, start, log, i + 1), log[i].req, log[i].choice;
    var seen, o := CommitGoesBack(p, start, log, i);
    ExpiryReturned(p, req, before.roots, choice, seen, o, id);
    m := choice.messageId(0);
    assert StoredAt(before, after, req, choice, log[i].reply.value, o, 0);
    ExpiryTells(req, choice, id, before.roots[id].row.identity.consultation, after.events[|before.events|],
                after.outbox[m]);
    OnlyMessage(before, after, choice, m);
    OnlyObject(before.roots, after.roots, seen, id, Staged(ExpiredBy(before.roots[id].row, req.context.actor)));
  }

  lemma OnlyMessage(before: Db, after: Db, choice: Choice, m: MessageId)
    requires m == choice.messageId(0) && m in after.outbox
    requires forall other :: other in before.outbox ==> other in after.outbox
    requires forall other :: other in after.outbox && other !in before.outbox ==> IsNewMessage(choice, 1, other)
    ensures after.outbox.Keys == before.outbox.Keys + {m}
  {
  }

  lemma OnlyObject(before: Roots, after: Roots, seen: seq<Seen>, id: Uuid, root: Root)
    requires WritesTaken(before, after, seen, map[id := root]) && LockedIn(seen, id)
    ensures after == before[id := root]
  {
  }

  // ---- What every staged object carries ----

  /** A consumed object tells by whom and when, no other does; a clean one has all of its scan. */
  ghost predicate Documented(o: StagedObject) {
    && (o.state == Consumed <==> o.consumedBy.Some?) && (o.consumedBy.Some? <==> o.consumedAt.Some?)
    && (o.state == Clean ==>
          && o.actualSize.Some? && o.actualSize.value > 0 && o.mediaType.Some? && o.scanVerdict == Some("CLEAN")
          && o.scannerName.Some? && o.signatureVersion.Some? && o.scannedAt.Some?
          && o.sha256.Some? && |o.sha256.value| == 64)
  }

  /** Whatever handlers and other code write, staged objects carry what their state asks for. */
  lemma {:induction false} ObjectsStayDocumented(p: Platform, start: Db, log: seq<Entry>, i: nat, id: Uuid)
    requires i <= |log| && Faithful(p, start, log) && RootsValid(start.roots)
    requires id in DbAt(p, start, log, i).roots && DbAt(p, start, log, i).roots[id].Staged?
    ensures Documented(DbAt(p, start, log, i).roots[id].row)
  {
    RootsStayValid(p, start, log, i);
  }
}
