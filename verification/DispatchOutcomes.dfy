/**
 * From what a handler does to what the caller gets and the database holds: the handler's
 * questions and the answers it gets, and then its own return value or exception.
 */
module DispatchOutcomes {
  import opened Common
  import opened Json
  import opened Uuids
  import opened EventContracts
  import opened RetryPolicy
  import opened Outbox
  import opened StagedObjects
  import opened CommandRequests
  import opened Dispatcher
  import opened DispatchLog
  import opened DispatchHistory

  // ---- What a handler gets to see ----

  /** The answer to what the handler asks for after it has seen this much. */
  ghost predicate AnswersIt(roots: Roots, told: nat -> Json, next: Progress, answer: Seen, k: nat) {
    match next
    case LockRow(id) => answer == Locked(id, if id in roots then Some(roots[id]) else None)
    case Ask => answer == Told(told(k))
    case Done(_) => false
  }

  /**
   * The handler's talk with the database: every look is answered from the tables as they are, and
   * it goes on until the handler is done or has used up its looks.
   */
  ghost predicate Talk(p: Platform, req: Request, roots: Roots, choice: Choice, seen: seq<Seen>)
    requires req.command.commandType in p.handlers
  {
    && |seen| <= choice.looks
    && (forall k | 0 <= k < |seen| :: AnswersIt(roots, choice.told, NextOf(p, req, seen[..k]), seen[k], k))
    && (|seen| < choice.looks ==> NextOf(p, req, seen).Done?)
  }

  lemma {:induction false} ObservedIsTalk(p: Platform, req: Request, roots: Roots, choice: Choice, n: nat)
    requires req.command.commandType in p.handlers
    ensures Talk(p, req, roots, choice.(looks := n), Observed(p, req, roots, choice.told, n))
  {
    if n > 0 {
      ObservedIsTalk(p, req, roots, choice, n - 1);
      TalkGoesOn(p, req, roots, choice.(looks := n - 1), Observed(p, req, roots, choice.told, n - 1));
    }
  }

  lemma TalkGoesOn(p: Platform, req: Request, roots: Roots, choice: Choice, seen: seq<Seen>)
    requires req.command.commandType in p.handlers && Talk(p, req, roots, choice, seen)
    ensures Talk(p, req, roots, choice.(looks := choice.looks + 1),
                 LookOnce(NextOf(p, req, seen), roots, choice.told, seen))
  {
    var seen' := LookOnce(NextOf(p, req, seen), roots, choice.told, seen);
    forall k | 0 <= k < |seen'|
      ensures AnswersIt(roots, choice.told, NextOf(p, req, seen'[..k]), seen'[k], k)
    {
      if k < |seen| {
        assert seen'[..k] == seen[..k] && seen'[k] == seen[k];
      } else {
        assert seen'[..k] == seen;
      }
    }
  }

  lemma {:induction false} SameTalk(
    p: Platform, req: Request, roots: Roots, choice: Choice, a: seq<Seen>, b: seq<Seen>, n: nat)
    requires req.command.commandType in p.handlers
    requires Talk(p, req, roots, choice, a) && Talk(p, req, roots, choice, b) && n <= |a| && n <= |b|
    ensures a[..n] == b[..n]
  {
    if n > 0 {
      SameTalk(p, req, roots, choice, a, b, n - 1);
      var k := n - 1;
      assert AnswersIt(roots, choice.told, NextOf(p, req, a[..k]), a[k], k);
      assert AnswersIt(roots, choice.told, NextOf(p, req, b[..k]), b[k], k);
      assert a[..n] == a[..k] + [a[k]] && b[..n] == b[..k] + [b[k]];
    }
  }

  lemma LooksOn(p: Platform, req: Request, roots: Roots, choice: Choice, seen: seq<Seen>, k: nat)
    requires req.command.commandType in p.handlers && Talk(p, req, roots, choice, seen) && k < |seen|
    ensures !NextOf(p, req, seen[..k]).Done?
  {
    assert AnswersIt(roots, choice.told, NextOf(p, req, seen[..k]), seen[k], k);
  }

  lemma NotLonger(p: Platform, req: Request, roots: Roots, choice: Choice, a: seq<Seen>, b: seq<Seen>)
    requires req.command.commandType in p.handlers
    requires Talk(p, req, roots, choice, a) && Talk(p, req, roots, choice, b)
    ensures |a| <= |b|
  {
    if |b| < |a| {
      SameTalk(p, req, roots, choice, a, b, |b|);
      assert b[..|b|] == b;
      LooksOn(p, req, roots, choice, a, |b|);
    }
  }

  /** The talk is determined: it is what the handler observes, and nothing else. */
  lemma {:induction false} TalkExactly(p: Platform, req: Request, roots: Roots, choice: Choice, seen: seq<Seen>)
    requires req.command.commandType in p.handlers
    ensures Talk(p, req, roots, choice, seen) <==> seen == Observed(p, req, roots, choice.told, choice.looks)
  {
    var observed := Observed(p, req, roots, choice.told, choice.looks);
    ObservedIsTalk(p, req, roots, choice, choice.looks);
    assert choice.(looks := choice.looks) == choice;
    if Talk(p, req, roots, choice, seen) {
      NotLonger(p, req, roots, choice, seen, observed);
      NotLonger(p, req, roots, choice, observed, seen);
      SameTalk(p, req, roots, choice, seen, observed, |seen|);
      assert seen[..|seen|] == seen && observed[..|observed|] == observed;
    }
  }

  // ---- What a commit leaves behind ----

  /** The row was locked, or inserted, by the handler. */
  ghost predicate LockedIn(seen: seq<Seen>, id: Uuid) {
    exists k :: 0 <= k < |seen| && seen[k].Locked? && seen[k].id == id
  }

  /** The handler's writes of rows it holds. */
  ghost predicate WritesTaken(before: Roots, after: Roots, seen: seq<Seen>, writes: Roots) {
    forall id ::
      && (id in after <==> id in before || (id in writes && LockedIn(seen, id)))
      && (id in after ==> after[id] == if id in writes && LockedIn(seen, id) then writes[id] else before[id])
  }

  /** The event row and the message of one event of the handler. */
  ghost predicate Stored(req: Request, choice: Choice, e: PendingEvent, id: Uuid, event: DomainEvent, row: Row) {
    && RecordsEvent(event, e, req) && event.id == id && event.payload == EventPayload(e, id)
    && row == Row(req.context.tenant, id, e.topic, e.payloadVersion, EventPayload(e, id),
                  e.topic + ":" + Format(id), choice.createdAt, Pending, 0, None, None, None)
  }

  /** The `k`-th event of the handler, and the `k`-th id of the reply. */
  ghost predicate StoredAt(
    before: Db, after: Db, req: Request, choice: Choice, result: DispatchResult, o: Outcome, k: nat)
    requires k < |o.events| == |result.eventIds| && |after.events| == |before.events| + |o.events|
  {
    var id, m := choice.eventId(k), choice.messageId(k);
    && result.eventIds[k] == Format(id) && m !in before.outbox && m in after.outbox
    && Stored(req, choice, o.events[k], id, after.events[|before.events| + k], after.outbox[m])
  }

  /** The receipt of the command is done, and the others are as they were. */
  ghost predicate Receipted(before: Db, after: Db, req: Request, choice: Choice, result: DispatchResult) {
    var key := KeyOf(req);
    && key !in before.receipts && after.receipts.Keys == before.receipts.Keys + {key}
    && (forall other :: other in before.receipts ==> after.receipts[other] == before.receipts[other])
    && after.receipts[key] ==
       Receipt(req.command.commandId, RequestText(req.command), req.command.correlationId, Succeeded,
               Some(result.aggregateRefs), Some(201), Some(result.resultCode),
               Some(ReceiptBody(result.(replayed := false))), result.eventIds, Some(choice.completedAt))
  }

  ghost predicate IsNewMessage(choice: Choice, n: nat, m: MessageId) {
    exists k :: 0 <= k < n && m == choice.messageId(k)
  }

  /** Tables and reply after a handler that has seen this returned this. */
  ghost predicate Carried(
    before: Db, after: Db, req: Request, choice: Choice, result: DispatchResult, seen: seq<Seen>, o: Outcome)
  {
    && result.status == "SUCCEEDED" && !result.replayed
    && result.commandId == Format(req.command.commandId)
    && result.idempotencyKey == Format(req.command.idempotencyKey)
    && result.resultCode == o.resultCode && result.aggregateRefs == o.aggregateRefs
    && |result.eventIds| == |o.events| && |after.events| == |before.events| + |o.events|
    && before.events <= after.events
    && (forall k | 0 <= k < |o.events| :: StoredAt(before, after, req, choice, result, o, k))
    && (forall m :: m in before.outbox ==> m in after.outbox && after.outbox[m] == before.outbox[m])
    && (forall m :: m in after.outbox && m !in before.outbox ==> IsNewMessage(choice, |o.events|, m))
    && WritesTaken(before.roots, after.roots, seen, o.writes)
    && Receipted(before, after, req, choice, result)
  }

  lemma EventStored(db: Db, req: Request, outcome: Outcome, choice: Choice, k: nat)
    requires k < |outcome.events| && FreshIds(db, choice, |outcome.events|)
    ensures StoredAt(db, Committed(db, req, outcome, choice), req, choice, ResultOf(req, outcome, choice), outcome, k)
  {
    NewMessageStored(db, req, outcome, choice, k);
    WrittenAt(req, outcome.events, choice, |outcome.events|, k);
    NewEventRecorded(req, outcome.events[k], choice.eventId(k));
  }

  lemma {:induction false} IdOfMessage(choice: Choice, n: nat, m: MessageId)
    requires m in MessageIds(choice, n)
    ensures IsNewMessage(choice, n, m)
  {
    if m in MessageIds(choice, n - 1) {
      IdOfMessage(choice, n - 1, m);
    }
  }

  lemma OldMessagesStay(db: Db, req: Request, outcome: Outcome, choice: Choice)
    requires FreshIds(db, choice, |outcome.events|)
    ensures var outbox := Committed(db, req, outcome, choice).outbox;
      && (forall m :: m in db.outbox ==> m in outbox && outbox[m] == db.outbox[m])
      && (forall m :: m in outbox && m !in db.outbox ==> IsNewMessage(choice, |outcome.events|, m))
  {
    var n := |outcome.events|;
    AddAllKeys(db.outbox, MessageIds(choice, n), MessageRows(req, outcome.events, choice, n));
    forall m | m in MessageIds(choice, n) ensures IsNewMessage(choice, n, m) {
      IdOfMessage(choice, n, m);
    }
  }

  lemma OnlyLockedWritten(roots: Roots, seen: seq<Seen>, writes: Roots)
    ensures WritesTaken(roots, roots + Only(writes, LockedIds(seen)), seen, writes)
  {
    forall id ensures id in LockedIds(seen) <==> LockedIn(seen, id) {
    }
  }

  lemma CommitCarries(db: Db, req: Request, choice: Choice, seen: seq<Seen>, o: Outcome)
    requires FreshIds(db, choice, |o.events|) && KeyOf(req) !in db.receipts
    ensures var kept := o.(writes := Only(o.writes, LockedIds(seen)));
      Carried(db, Committed(db, req, kept, choice), req, choice, ResultOf(req, kept, choice), seen, o)
  {
    var kept := o.(writes := Only(o.writes, LockedIds(seen)));
    OldMessagesStay(db, req, kept, choice);
    OnlyLockedWritten(db.roots, seen, o.writes);
    forall k | 0 <= k < |o.events|
      ensures StoredAt(db, Committed(db, req, kept, choice), req, choice, ResultOf(req, kept, choice), o, k)
    {
      EventStored(db, req, kept, choice, k);
    }
  }

  // ---- The answer to a new command ----

  /** The rows the handler leaves for the commit to write. */
  ghost predicate IsHeldPart(part: Roots, seen: seq<Seen>, writes: Roots) {
    forall id :: (id in part <==> id in writes && LockedIn(seen, id)) && (id in part ==> part[id] == writes[id])
  }

  lemma HeldPart(part: Roots, seen: seq<Seen>, writes: Roots)
    requires IsHeldPart(part, seen, writes)
    ensures part == Only(writes, LockedIds(seen))
  {
    assert forall id :: id in LockedIds(seen) <==> LockedIn(seen, id);
  }

  /** No key and no constraint of the database refuses what the handler returned. */
  ghost predicate Accepts(p: Platform, db: Db, choice: Choice, o: Outcome, part: Roots) {
    FreshIds(db, choice, |o.events|) && WritesAllowed(db.roots, part) && p.otherConstraints(db.roots, part)
  }

  /** A command that the dispatcher knows, and whose key and command id are new. */
  ghost predicate IsNew(p: Platform, db: Db, req: Request, choice: Choice) {
    && req.command.commandType in p.handlers && !choice.aborted && KeyOf(req) !in db.receipts
    && !CommandIdUsed(db.receipts, req.context.tenant, req.command.commandId)
  }

  /**
   * A new command whose handler returns: everything the handler returned is committed and
   * reported, or a key or constraint refuses it and nothing is.
   */
  lemma {:induction false} ReturnIsCommitted(
    p: Platform, db: Db, req: Request, choice: Choice, seen: seq<Seen>, o: Outcome, part: Roots)
    requires IsNew(p, db, req, choice) && Talk(p, req, db.roots, choice, seen)
    requires NextOf(p, req, seen) == Done(Ok(o)) && IsHeldPart(part, seen, o.writes)
    ensures var (db', reply) := Dispatched(p, db, req, choice);
      if Accepts(p, db, choice, o, part) then reply.Ok? && Carried(db, db', req, choice, reply.value, seen, o)
      else db' == db && reply == Err(PersistenceFailed)
  {
    TalkExactly(p, req, db.roots, choice, seen);
    HeldPart(part, seen, o.writes);
    if Accepts(p, db, choice, o, part) {
      CommitCarries(db, req, choice, seen, o);
    }
  }

  /** A new command whose handler raises, or does not come to an end, leaves nothing. */
  lemma {:induction false} RaiseIsReported(p: Platform, db: Db, req: Request, choice: Choice, seen: seq<Seen>)
    requires IsNew(p, db, req, choice) && Talk(p, req, db.roots, choice, seen)
    requires NextOf(p, req, seen).Done? ==> NextOf(p, req, seen).result.Err?
    ensures Dispatched(p, db, req, choice) ==
      (db, Err(if NextOf(p, req, seen) == Done(Err(IntegrityViolation)) then PersistenceFailed else CommandFailed))
  {
    TalkExactly(p, req, db.roots, choice, seen);
  }

  // ---- Over sequences ----

  /**
   * Whatever came before: a commit goes back to a handler that returned, after what it saw of
   * the tables at that point, and carries all of what it returned.
   */
  lemma {:induction false} CommitGoesBack(p: Platform, start: Db, log: seq<Entry>, i: nat)
    returns (seen: seq<Seen>, o: Outcome)
    requires Faithful(p, start, log) && Commits(log, i)
    ensures log[i].req.command.commandType in p.handlers
    ensures Talk(p, log[i].req, DbAt(p, start, log, i).roots, log[i].choice, seen)
    ensures NextOf(p, log[i].req, seen) == Done(Ok(o))
    ensures Carried(DbAt(p, start, log, i), DbAt(p, start, log, i + 1), log[i].req, log[i].choice, log[i].reply.value,
                    seen, o)
  {
    var db, req, choice := DbAt(p, start, log, i), log[i].req, log[i].choice;
    StepEffect(p, start, log, i);
    OneStep(p, start, log, i);
    CommitOutcome(p, db, req, choice);
    seen := Observed(p, req, db.roots, choice.told, choice.looks);
    TalkExactly(p, req, db.roots, choice, seen);
    o := ReturnOf(NextOf(p, req, seen), seen);
    CommitCarries(db, req, choice, seen, o);
  }

  lemma ReturnOf(progress: Progress, seen: seq<Seen>) returns (o: Outcome)
    requires ResultOfHandler(progress, seen).Ok?
    ensures progress == Done(Ok(o))
    ensures ResultOfHandler(progress, seen).value == o.(writes := Only(o.writes, LockedIds(seen)))
  {
    o := progress.result.value;
  }

  /**
   * The `k`-th event the handler returned is the `k`-th id in the reply, and its message is in the
   * outbox, where a cockpit worker reads back exactly that event or refuses it.
   */
  lemma {:induction false} CommittedEventReads(p: Platform, start: Db, log: seq<Entry>, i: nat, k: nat)
    returns (seen: seq<Seen>, o: Outcome, m: MessageId, id: Uuid)
    requires Faithful(p, start, log) && Commits(log, i) && k < |log[i].reply.value.eventIds|
    ensures log[i].req.command.commandType in p.handlers
    ensures Talk(p, log[i].req, DbAt(p, start, log, i).roots, log[i].choice, seen)
    ensures NextOf(p, log[i].req, seen) == Done(Ok(o))
    ensures |log[i].reply.value.eventIds| == |o.events| && log[i].reply.value.eventIds[k] == Format(id)
    ensures m !in DbAt(p, start, log, i).outbox && m in DbAt(p, start, log, i + 1).outbox
    ensures ReadsAs(DbAt(p, start, log, i + 1).outbox[m], o.events[k], id, log[i].req.context.tenant)
  {
    seen, o := CommitGoesBack(p, start, log, i);
    var before, after, req, choice := DbAt(p, start, log, i), DbAt(p, start, log, i + 1), log[i].req, log[i].choice;
    m, id := choice.messageId(k), choice.eventId(k);
    assert StoredAt(before, after, req, choice, log[i].reply.value, o, k);
    EnvelopeRoundTrip(o.events[k], id, req.context.tenant);
  }

  // ---- Which failure a caller sees ----

  /** The reply stands for an exception of this kind. */
  ghost predicate Fails(log: seq<Entry>, j: int, failure: Failure) {
    0 <= j < |log| && log[j].Decided? && log[j].reply == Err(failure)
  }

  /** An earlier command committed under the same key. */
  ghost predicate CommittedBefore(log: seq<Entry>, i: int, j: int) {
    0 <= i < j < |log| && log[j].Decided? && Commits(log, i) && KeyOf(log[i].req) == KeyOf(log[j].req)
  }

  lemma ReusedNeedsRecord(p: Platform, db: Db, req: Request, choice: Choice)
    requires Dispatched(p, db, req, choice).1 == Err(KeyReused)
    ensures KeyOf(req) in db.receipts && !choice.aborted
  {
  }

  /**
   * A caller is told that its key was reused exactly if an earlier command committed under that
   * key with another payload, and the caller is not cut off.
   */
  lemma {:induction false} KeyReusedExactly(p: Platform, start: Db, log: seq<Entry>, j: nat)
    requires j < |log| && Faithful(p, start, log) && Empty(start) && log[j].Decided?
    requires forall k :: 0 <= k < |log| && log[k].Decided? ==> WellFormed(JObject(log[k].req.command.dump))
    ensures Fails(log, j, KeyReused) <==>
      !log[j].choice.aborted && exists i ::
        CommittedBefore(log, i, j) && !SamePayload(log[i].req.command.dump, log[j].req.command.dump)
  {
    OneStep(p, start, log, j);
    if Fails(log, j, KeyReused) {
      ReusedNeedsRecord(p, DbAt(p, start, log, j), log[j].req, log[j].choice);
      var i := RecordHasOrigin(p, start, log, j, KeyOf(log[j].req));
      ReuseExactly(p, start, log, i, j);
      assert CommittedBefore(log, i, j);
    }
    if i :| CommittedBefore(log, i, j) && !SamePayload(log[i].req.command.dump, log[j].req.command.dump)
            && !log[j].choice.aborted {
      ReuseExactly(p, start, log, i, j);
    }
  }

  /** Some transaction of its tenant has used the command id, and none its key. */
  ghost predicate IdTaken(db: Db, req: Request) {
    && KeyOf(req) !in db.receipts
    && exists key :: key in db.receipts && key.tenant == req.context.tenant
                     && db.receipts[key].commandId == req.command.commandId
  }

  /** The failures that are decided before a handler runs. */
  lemma {:induction false} EarlyFailures(p: Platform, db: Db, req: Request, choice: Choice)
    requires Consistent(db)
    ensures var (db', reply) := Dispatched(p, db, req, choice);
      && (reply == Err(UnsupportedCommand) <==> req.command.commandType !in p.handlers)
      && (reply == Err(CollisionUnresolved) <==>
            req.command.commandType in p.handlers && !choice.aborted && IdTaken(db, req))
      && (req.command.commandType in p.handlers && choice.aborted ==> reply == Err(CommandFailed))
      && (reply.Err? ==> db' == db)
  {
    if KeyOf(req) in db.receipts && req.command.commandType in p.handlers && !choice.aborted {
      ResolvedReply(p, db, req, choice);
    }
  }
}
