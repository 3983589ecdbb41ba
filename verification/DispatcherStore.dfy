/** The dispatcher over tables it changes in place, statement by statement, as `dispatch` does. */
module DispatcherStore {
  import opened Common
  import opened Uuids
  import opened EventContracts
  import opened Outbox
  import opened StagedObjects
  import opened CommandRequests
  import opened Dispatcher
  import opened DispatchLog

  class CommandDispatcher {
    const platform: Platform
    var receipts: Receipts
    var events: seq<DomainEvent>
    var outbox: Table
    var roots: Roots

    ghost function Tables(): Db
      reads this
    {
      Db(receipts, events, outbox, roots)
    }

    constructor (platform: Platform, roots: Roots)
      ensures this.platform == platform && Tables() == Db(map[], [], map[], roots)
    {
      this.platform := platform;
      this.roots := roots;
      receipts := map[];
      events := [];
      outbox := map[];
    }

    method FindReceipt(key: ReceiptKey) returns (receipt: Option<Receipt>)
      ensures receipt == if key in receipts then Some(receipts[key]) else None
    {
      receipt := if key in receipts then Some(receipts[key]) else None;
    }

    /**
     * The savepoint: false is the IntegrityError of one of the two unique constraints, which both
     * still hold afterwards.
     */
    method InsertReceipt(req: Request) returns (inserted: bool)
      modifies this`receipts
      ensures inserted <==>
        KeyOf(req) !in old(receipts) && !CommandIdUsed(old(receipts), req.context.tenant, req.command.commandId)
      ensures receipts == if inserted then old(receipts)[KeyOf(req) := ProcessingReceipt(req)] else old(receipts)
      ensures CommandIdsUnique(old(receipts)) ==> CommandIdsUnique(receipts)
    {
      inserted :=
        KeyOf(req) !in receipts && !CommandIdUsed(receipts, req.context.tenant, req.command.commandId);
      if inserted {
        receipts := receipts[KeyOf(req) := ProcessingReceipt(req)];
      }
    }

    method PersistEventsAndOutbox(req: Request, pending: seq<PendingEvent>, choice: Choice) returns (texts: seq<string>)
      modifies this`events, this`outbox
      ensures events == old(events) + EventRows(req, pending, choice, |pending|)
      ensures outbox == WithMessages(old(outbox), req, pending, choice, |pending|)
      ensures texts == EventIdTexts(choice, |pending|)
    {
      texts := [];
      for i := 0 to |pending|
        invariant events == old(events) + EventRows(req, pending, choice, i)
        invariant outbox == WithMessages(old(outbox), req, pending, choice, i)
        invariant texts == EventIdTexts(choice, i)
      {
        EventRowsStep(old(events), req, pending, choice, i);
        AddOne(old(outbox), MessageIds(choice, i), MessageRows(req, pending, choice, i), choice.messageId(i),
               MessageRow(req, pending[i], choice.eventId(i), choice.createdAt));
        var eventId := choice.eventId(i);
        events := events + [EventRow(req, pending[i], eventId)];
        outbox := outbox[choice.messageId(i) := MessageRow(req, pending[i], eventId, choice.createdAt)];
        texts := texts + [Format(eventId)];
      }
    }

    /** The assignments that turn the PROCESSING receipt into the durable response. */
    method CompleteReceipt(req: Request, outcome: Outcome, choice: Choice, result: DispatchResult)
      requires KeyOf(req) in receipts && receipts[KeyOf(req)] == ProcessingReceipt(req)
      requires result == ResultOf(req, outcome, choice)
      modifies this`receipts
      ensures receipts == old(receipts)[KeyOf(req) := SucceededReceipt(req, outcome, choice)]
    {
      var receipt := receipts[KeyOf(req)];
      receipt := receipt.(status := Succeeded, aggregateRefs := Some(outcome.aggregateRefs));
      receipt := receipt.(httpStatus := Some(201), resultCode := Some(outcome.resultCode));
      receipt := receipt.(responseBody := Some(ReceiptBody(result)), eventIds := result.eventIds);
      receipts := receipts[KeyOf(req) := receipt.(completedAt := Some(choice.completedAt))];
    }

    /** The handler, its events and messages, and the receipt; the receipt is already in. */
    method ExecuteHandler(req: Request, choice: Choice) returns (reply: Reply)
      requires req.command.commandType in platform.handlers
      requires KeyOf(req) in receipts && receipts[KeyOf(req)] == ProcessingReceipt(req)
      modifies this
      ensures var (db, expected) := ExecuteAndCommit(platform, old(Tables()), req, choice);
        reply == expected && (reply.Ok? ==> Tables() == db)
    {
      var executed := Execute(platform, req, roots, choice);
      if executed.Err? {
        return Err(executed.error);
      }
      var outcome := executed.value;
      if !Admissible(platform, Db(receipts, events, outbox, roots), outcome, choice) {
        return Err(PersistenceFailed);
      }
      roots := roots + outcome.writes;
      var texts := PersistEventsAndOutbox(req, outcome.events, choice);
      var result := DispatchResult(
        "SUCCEEDED", Format(req.command.commandId), Format(req.command.idempotencyKey),
        outcome.resultCode, outcome.aggregateRefs, texts, false);
      CompleteReceipt(req, outcome, choice, result);
      reply := Ok(result);
    }

    /** The body of the `with` block; what it wrote counts only if it returns. */
    method InTransaction(req: Request, choice: Choice) returns (reply: Reply)
      requires req.command.commandType in platform.handlers
      modifies this
      ensures var (db, expected) := Dispatched(platform, old(Tables()), req, choice.(aborted := false));
        reply == expected && (reply.Ok? ==> Tables() == db)
    {
      var existing := FindReceipt(KeyOf(req));
      if existing.Some? {
        return Resolve(existing.value, RequestText(req.command));
      }
      var inserted := InsertReceipt(req);
      if !inserted {
        // Nothing else runs here, so reading the receipt again still finds none.
        return Err(CollisionUnresolved);
      }
      ReceiptOverwritten(platform, old(Tables()), req, choice.(aborted := false), ProcessingReceipt(req));
      reply := ExecuteHandler(req, choice.(aborted := false));
    }

    /** One command: committed if the block returns, rolled back if it raises or is cut short. */
    method Dispatch(req: Request, choice: Choice) returns (reply: Reply)
      modifies this
      ensures (Tables(), reply) == Dispatched(platform, old(Tables()), req, choice)
    {
      if req.command.commandType !in platform.handlers {
        return Err(UnsupportedCommand);
      }
      var before := (receipts, events, outbox, roots);
      reply := InTransaction(req, choice);
      if reply.Err? || choice.aborted {
        receipts, events, outbox, roots := before.0, before.1, before.2, before.3;
      }
      if choice.aborted {
        reply := Err(CommandFailed);
      }
    }
  }

  ghost function WithReceipt(db: Db, key: ReceiptKey, receipt: Receipt): Db {
    db.(receipts := db.receipts[key := receipt])
  }

  /** A receipt already in under the key leaves no trace in what is committed. */
  lemma ReceiptOverwritten(p: Platform, db: Db, req: Request, choice: Choice, receipt: Receipt)
    requires req.command.commandType in p.handlers
    ensures var (db', reply) := ExecuteAndCommit(p, WithReceipt(db, KeyOf(req), receipt), req, choice);
      && reply == ExecuteAndCommit(p, db, req, choice).1
      && (reply.Ok? ==> db' == ExecuteAndCommit(p, db, req, choice).0)
  {
    match Execute(p, req, db.roots, choice)
    case Ok(outcome) => CommitOverwrites(p, db, req, outcome, choice, receipt);
    case Err(_) =>
  }

  lemma CommitOverwrites(p: Platform, db: Db, req: Request, outcome: Outcome, choice: Choice, receipt: Receipt)
    ensures var (db', reply) := Commit(p, WithReceipt(db, KeyOf(req), receipt), req, outcome, choice);
      reply == Commit(p, db, req, outcome, choice).1 && (reply.Ok? ==> db' == Commit(p, db, req, outcome, choice).0)
  {
    UpdateTwice(db.receipts, KeyOf(req), receipt, SucceededReceipt(req, outcome, choice));
  }
}
