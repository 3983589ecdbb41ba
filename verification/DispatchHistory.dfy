/** What callers can rely on over any sequence of commands, dispatched one after another. */
module DispatchHistory {
  import opened Common
  import opened Json
  import opened Uuids
  import opened EventContracts
  import opened RetryPolicy
  import opened Outbox
  import opened CommandRequests
  import opened Dispatcher
  import opened DispatchLog

  ghost predicate Commits(log: seq<Entry>, i: int) {
    0 <= i < |log| && log[i].Decided? && CommitReply(log[i].reply)
  }

  /** The receipt a committed command leaves behind. */
  ghost predicate Records(r: Receipt, req: Request, result: DispatchResult) {
    && r.commandId == req.command.commandId && r.requestText == RequestText(req.command)
    && r.resultCode.Some? && r.aggregateRefs.Some? && StoredResult(KeyOf(req), r) == result
  }

  ghost predicate Grown(a: Receipts, b: Receipts) {
    forall key :: key in a ==> key in b && b[key] == a[key]
  }

  lemma CommitRecords(db: Db, req: Request, outcome: Outcome, choice: Choice)
    requires KeyOf(req) !in db.receipts
    ensures var db' := Committed(db, req, outcome, choice);
      && Grown(db.receipts, db'.receipts) && KeyOf(req) in db'.receipts
      && Records(db'.receipts[KeyOf(req)], req, ResultOf(req, outcome, choice))
  {
    NewReceiptDone(req, outcome, choice);
  }

  lemma ReceiptEffect(p: Platform, db: Db, req: Request, choice: Choice)
    ensures var (db', reply) := Dispatched(p, db, req, choice);
      && Grown(db.receipts, db'.receipts)
      && (!CommitReply(reply) ==> db' == db)
      && (CommitReply(reply) ==>
            && KeyOf(req) !in db.receipts && KeyOf(req) in db'.receipts
            && !CommandIdUsed(db.receipts, req.context.tenant, req.command.commandId)
            && Records(db'.receipts[KeyOf(req)], req, reply.value))
  {
    if KeyOf(req) in db.receipts {
      ReplayIsMarked(db.receipts[KeyOf(req)], RequestText(req.command));
    } else if req.command.commandType in p.handlers {
      match Execute(p, req, db.roots, choice)
      case Ok(outcome) => CommitRecords(db, req, outcome, choice);
      case Err(_) =>
    }
  }

  ghost function DbAt(p: Platform, start: Db, log: seq<Entry>, i: int): Db
    requires 0 <= i <= |log|
  {
    After(p, start, log[..i])
  }

  lemma {:induction false} AnswerAt(p: Platform, start: Db, log: seq<Entry>, i: nat)
    requires i < |log| && Faithful(p, start, log)
    ensures Answers(p, After(p, start, log[..i]), log[i])
    decreases |log|
  {
    var before := log[..|log| - 1];
    if i < |log| - 1 {
      AnswerAt(p, start, before, i);
      assert before[..i] == log[..i];
    }
  }

  /** One position of the sequence and the next. */
  lemma {:induction false} OneStep(p: Platform, start: Db, log: seq<Entry>, i: nat)
    requires i < |log| && Faithful(p, start, log)
    ensures DbAt(p, start, log, i + 1) == Apply(p, DbAt(p, start, log, i), log[i])
    ensures log[i].Decided? ==>
      Dispatched(p, DbAt(p, start, log, i), log[i].req, log[i].choice) == (DbAt(p, start, log, i + 1), log[i].reply)
  {
    assert log[..i + 1][..i] == log[..i];
    AnswerAt(p, start, log, i);
  }

  lemma {:induction false} StepEffect(p: Platform, start: Db, log: seq<Entry>, i: nat)
    requires i < |log| && Faithful(p, start, log)
    ensures var db, db', e := DbAt(p, start, log, i), DbAt(p, start, log, i + 1), log[i];
      && Grown(db.receipts, db'.receipts)
      && (e.Decided? && !CommitReply(e.reply) ==> db' == db)
      && (e.Elsewhere? ==> db'.receipts == db.receipts)
      && (Commits(log, i) ==>
            && KeyOf(e.req) !in db.receipts && KeyOf(e.req) in db'.receipts
            && !CommandIdUsed(db.receipts, e.req.context.tenant, e.req.command.commandId)
            && Records(db'.receipts[KeyOf(e.req)], e.req, e.reply.value))
  {
    OneStep(p, start, log, i);
    if log[i].Decided? {
      ReceiptEffect(p, DbAt(p, start, log, i), log[i].req, log[i].choice);
    }
  }

  /** Replies that commit nothing leave every table as it was. */
  lemma {:induction false} OnlyCommitsWrite(p: Platform, start: Db, log: seq<Entry>, i: nat)
    requires i < |log| && Faithful(p, start, log) && log[i].Decided? && !Commits(log, i)
    ensures DbAt(p, start, log, i + 1) == DbAt(p, start, log, i)
  {
    StepEffect(p, start, log, i);
  }

  lemma {:induction false} ReceiptsGrow(p: Platform, start: Db, log: seq<Entry>, i: nat, j: nat)
    requires i <= j <= |log| && Faithful(p, start, log)
    ensures Grown(DbAt(p, start, log, i).receipts, DbAt(p, start, log, j).receipts)
    decreases j - i
  {
    if i < j {
      ReceiptsGrow(p, start, log, i, j - 1);
      StepEffect(p, start, log, j - 1);
    }
  }

  /** A committed command is on record at every later position. */
  lemma {:induction false} OnRecord(p: Platform, start: Db, log: seq<Entry>, i: nat, j: nat)
    requires i < j <= |log| && Faithful(p, start, log) && Commits(log, i)
    ensures var receipts := DbAt(p, start, log, j).receipts;
      KeyOf(log[i].req) in receipts && Records(receipts[KeyOf(log[i].req)], log[i].req, log[i].reply.value)
  {
    StepEffect(p, start, log, i);
    ReceiptsGrow(p, start, log, i + 1, j);
  }

  /**
   * At most one outcome is ever committed per (tenant, actor, type, idempotency key), and at
   * most one per (tenant, command id).
   */
  lemma {:induction false} AtMostOneCommit(p: Platform, start: Db, log: seq<Entry>, i: nat, j: nat)
    requires i < j && Faithful(p, start, log) && Commits(log, i) && Commits(log, j)
    ensures KeyOf(log[i].req) != KeyOf(log[j].req)
    ensures !(log[i].req.context.tenant == log[j].req.context.tenant
              && log[i].req.command.commandId == log[j].req.command.commandId)
  {
    OnRecord(p, start, log, i, j);
    StepEffect(p, start, log, j);
    var key := KeyOf(log[i].req);
    assert key in DbAt(p, start, log, j).receipts && key.tenant == log[i].req.context.tenant;
  }

  /** A receipt on record comes from a committed command before. */
  lemma {:induction false} RecordHasOrigin(
    p: Platform, start: Db, log: seq<Entry>, j: nat, key: ReceiptKey) returns (i: nat)
    requires j <= |log| && Faithful(p, start, log) && Empty(start) && key in DbAt(p, start, log, j).receipts
    ensures i < j && Commits(log, i) && KeyOf(log[i].req) == key
  {
    assert log[..0] == [];
    assert j > 0;
    StepEffect(p, start, log, j - 1);
    if key in DbAt(p, start, log, j - 1).receipts {
      i := RecordHasOrigin(p, start, log, j - 1, key);
    } else {
      OneStep(p, start, log, j - 1);
      NewKeyIsOwn(p, DbAt(p, start, log, j - 1), log[j - 1].req, log[j - 1].choice, key);
      i := j - 1;
    }
  }

  lemma NewKeyIsOwn(p: Platform, db: Db, req: Request, choice: Choice, key: ReceiptKey)
    requires key !in db.receipts && key in Dispatched(p, db, req, choice).0.receipts
    ensures key == KeyOf(req) && CommitReply(Dispatched(p, db, req, choice).1)
  {
  }

  lemma ResolvedReply(p: Platform, db: Db, req: Request, choice: Choice)
    requires Consistent(db) && KeyOf(req) in db.receipts && req.command.commandType in p.handlers && !choice.aborted
    ensures var r := db.receipts[KeyOf(req)];
      && r.resultCode.Some? && r.aggregateRefs.Some?
      && Dispatched(p, db, req, choice) ==
         (db, if r.requestText == RequestText(req.command) then Ok(StoredResult(KeyOf(req), r).(replayed := true))
              else Err(KeyReused))
  {
    var r := db.receipts[KeyOf(req)];
    assert ReceiptDone(KeyOf(req), r);
    ReceiptRoundTrip(StoredResult(KeyOf(req), r), r, true);
  }

  lemma CommittedTypeIsHandled(p: Platform, db: Db, req: Request, choice: Choice)
    requires CommitReply(Dispatched(p, db, req, choice).1)
    ensures req.command.commandType in p.handlers
  {
  }

  /** The reply to a key that is already on record, as long as the caller is not cut off. */
  lemma {:induction false} ReplyOnRecord(p: Platform, start: Db, log: seq<Entry>, i: nat, j: nat)
    requires i < j < |log| && Faithful(p, start, log) && Empty(start) && Commits(log, i)
    requires log[j].Decided? && KeyOf(log[j].req) == KeyOf(log[i].req) && !log[j].choice.aborted
    ensures log[j].reply ==
      if RequestText(log[j].req.command) == RequestText(log[i].req.command) then
        Ok(log[i].reply.value.(replayed := true))
      else Err(KeyReused)
  {
    OneStep(p, start, log, i);
    CommittedTypeIsHandled(p, DbAt(p, start, log, i), log[i].req, log[i].choice);
    OnRecord(p, start, log, i, j);
    AlwaysConsistent(p, start, log[..j]);
    OneStep(p, start, log, j);
    ResolvedReply(p, DbAt(p, start, log, j), log[j].req, log[j].choice);
  }

  /**
   * Sending a key again is answered with the first reply, marked as replayed, if and only if the
   * type and the payload are the same; otherwise the key counts as reused. Nothing is written.
   */
  lemma {:induction false} ReuseExactly(p: Platform, start: Db, log: seq<Entry>, i: nat, j: nat)
    requires i < j < |log| && Faithful(p, start, log) && Empty(start) && Commits(log, i)
    requires log[j].Decided? && KeyOf(log[j].req) == KeyOf(log[i].req) && !log[j].choice.aborted
    requires WellFormed(JObject(log[i].req.command.dump)) && WellFormed(JObject(log[j].req.command.dump))
    ensures log[j].reply ==
      if SamePayload(log[i].req.command.dump, log[j].req.command.dump) then Ok(log[i].reply.value.(replayed := true))
      else Err(KeyReused)
    ensures DbAt(p, start, log, j + 1) == DbAt(p, start, log, j)
  {
    ReplyOnRecord(p, start, log, i, j);
    RequestTextFaithful(log[i].req.command, log[j].req.command);
    OnlyCommitsWrite(p, start, log, j);
  }

  /** All successful replies for a key are equal except for `replayed`, and exactly one committed. */
  lemma {:induction false} SuccessesAgree(p: Platform, start: Db, log: seq<Entry>, i: nat, j: nat)
    requires i < j < |log| && Faithful(p, start, log) && Empty(start)
    requires log[i].Decided? && log[j].Decided? && log[i].reply.Ok?
    requires log[j].reply.Ok? && KeyOf(log[i].req) == KeyOf(log[j].req)
    ensures log[j].reply.value == log[i].reply.value.(replayed := true)
    ensures exists k :: k <= i && Commits(log, k) && KeyOf(log[k].req) == KeyOf(log[i].req)
  {
    var k := OriginOf(p, start, log, i);
    ReplyIsOriginal(p, start, log, k, i);
    ReplyIsOriginal(p, start, log, k, j);
  }

  /** The commit a successful reply goes back to. */
  lemma {:induction false} OriginOf(p: Platform, start: Db, log: seq<Entry>, i: nat) returns (k: nat)
    requires i < |log| && Faithful(p, start, log) && Empty(start) && log[i].Decided? && log[i].reply.Ok?
    ensures k <= i && Commits(log, k) && KeyOf(log[k].req) == KeyOf(log[i].req)
  {
    if Commits(log, i) {
      k := i;
    } else {
      OneStep(p, start, log, i);
      ReplayNeedsRecord(p, DbAt(p, start, log, i), log[i].req, log[i].choice);
      k := RecordHasOrigin(p, start, log, i, KeyOf(log[i].req));
    }
  }

  lemma ReplayNeedsRecord(p: Platform, db: Db, req: Request, choice: Choice)
    requires Dispatched(p, db, req, choice).1.Ok? && !CommitReply(Dispatched(p, db, req, choice).1)
    ensures KeyOf(req) in db.receipts
  {
  }

  lemma {:induction false} ReplyIsOriginal(p: Platform, start: Db, log: seq<Entry>, k: nat, i: nat)
    requires k <= i < |log| && Faithful(p, start, log) && Empty(start) && Commits(log, k)
    requires log[i].Decided? && KeyOf(log[k].req) == KeyOf(log[i].req) && log[i].reply.Ok?
    ensures log[i].reply.value == log[k].reply.value.(replayed := k < i)
  {
    if k < i {
      OneStep(p, start, log, i);
      OkNotAborted(p, DbAt(p, start, log, i), log[i].req, log[i].choice);
      ReplyOnRecord(p, start, log, k, i);
    }
  }

  lemma OkNotAborted(p: Platform, db: Db, req: Request, choice: Choice)
    requires Dispatched(p, db, req, choice).1.Ok?
    ensures !choice.aborted
  {
  }

  /** A command id already used by its tenant under another key is refused, and nothing is written. */
  lemma {:induction false} CommandIdUnderAnotherKey(p: Platform, start: Db, log: seq<Entry>, i: nat, j: nat)
    requires i < j < |log| && Faithful(p, start, log) && Commits(log, i) && log[j].Decided?
    requires log[j].req.context.tenant == log[i].req.context.tenant
    requires log[j].req.command.commandId == log[i].req.command.commandId
    requires KeyOf(log[j].req) !in DbAt(p, start, log, j).receipts
    requires log[j].req.command.commandType in p.handlers && !log[j].choice.aborted
    ensures log[j].reply == Err(CollisionUnresolved) && DbAt(p, start, log, j + 1) == DbAt(p, start, log, j)
  {
    OnRecord(p, start, log, i, j);
    OneStep(p, start, log, j);
    var key := KeyOf(log[i].req);
    assert CommandIdUsed(DbAt(p, start, log, j).receipts, key.tenant, log[j].req.command.commandId);
  }

  /** Nobody is ever told that a command is still in progress. */
  lemma {:induction false} NeverInProgress(p: Platform, start: Db, log: seq<Entry>, i: nat)
    requires i < |log| && Faithful(p, start, log) && Empty(start) && log[i].Decided?
    ensures log[i].reply != Err(InProgress)
  {
    AlwaysConsistent(p, start, log[..i]);
    OneStep(p, start, log, i);
    NoInProgress(p, DbAt(p, start, log, i), log[i].req, log[i].choice);
  }

  lemma NoInProgress(p: Platform, db: Db, req: Request, choice: Choice)
    requires Consistent(db)
    ensures Dispatched(p, db, req, choice).1 != Err(InProgress)
  {
    if KeyOf(req) in db.receipts {
      assert ReceiptDone(KeyOf(req), db.receipts[KeyOf(req)]);
    }
  }

  // ---- From the handler's event to the worker's reading of it ----

  /** The message of the handler's `k`-th event, as a cockpit worker reads it. */
  ghost predicate ReadsAs(row: Row, e: PendingEvent, id: Uuid, tenant: Uuid) {
    && row.tenant == tenant && row.eventId == id && row.topic == e.topic
    && row.status == Pending && row.attemptCount == 0 && row.nextAttemptAt == None
    && SafeEvent(row.payload, row.tenant) ==
       if CockpitKnows(e) && SafeCockpitData(e.payload, tenant) then Some(Decoded(e, id)) else None
  }

  lemma NewMessageStored(db: Db, req: Request, outcome: Outcome, choice: Choice, k: nat)
    requires k < |outcome.events| && FreshIds(db, choice, |outcome.events|)
    ensures var outbox := Committed(db, req, outcome, choice).outbox;
      choice.messageId(k) in outbox
      && outbox[choice.messageId(k)] == MessageRow(req, outcome.events[k], choice.eventId(k), choice.createdAt)
  {
    var n := |outcome.events|;
    forall i | 0 <= i < n ensures MessageIds(choice, n)[i] == choice.messageId(i) {
      WrittenAt(req, outcome.events, choice, n, i);
    }
    WrittenAt(req, outcome.events, choice, n, k);
    AddAllAt(db.outbox, MessageIds(choice, n), MessageRows(req, outcome.events, choice, n), k);
  }

  lemma CommitOutcome(p: Platform, db: Db, req: Request, choice: Choice)
    requires CommitReply(Dispatched(p, db, req, choice).1)
    ensures req.command.commandType in p.handlers && Execute(p, req, db.roots, choice).Ok?
    ensures var outcome := Execute(p, req, db.roots, choice).value;
      && FreshIds(db, choice, |outcome.events|)
      && Dispatched(p, db, req, choice) == (Committed(db, req, outcome, choice), Ok(ResultOf(req, outcome, choice)))
  {
    if KeyOf(req) in db.receipts {
      ReplayIsMarked(db.receipts[KeyOf(req)], RequestText(req.command));
    }
  }

  /** The row of a handler's event: its facts, who caused it and through which command. */
  ghost predicate RecordsEvent(row: DomainEvent, e: PendingEvent, req: Request) {
    && row.writer == ByDispatcher && row.tenant == req.context.tenant && row.actor == Some(req.context.actor)
    && row.commandId == row.causationId == Some(req.command.commandId) && row.correlationId == req.command.correlationId
    && row.aggregateType == e.aggregateType && row.aggregateId == e.aggregateId
    && row.aggregateRevision == e.aggregateRevision && row.eventType == e.eventType
    && row.payloadVersion == e.payloadVersion
  }

  lemma NewEventRecorded(req: Request, e: PendingEvent, id: Uuid)
    ensures RecordsEvent(EventRow(req, e, id), e, req) && EventRow(req, e, id).id == id
  {
  }
}
