/**
 * `CommandDispatcher`: one transaction per command, with its durable receipt, its events and its
 * outbox messages. `Dispatched` is what one dispatch does to the database when nothing else
 * runs; the class drives the same tables in place.
 */
module Dispatcher {
  import opened Common
  import opened Json
  import opened Uuids
  import opened EventContracts
  import opened RetryPolicy
  import opened Outbox
  import opened StagedObjects
  import opened CommandRequests

  // ---- Receipts ----

  datatype ReceiptStatus = Processing | Succeeded | ReceiptRejected | FailedRetryable | ReceiptExpired

  /** The columns of `uq_command_receipts__tenant_actor_type_key`. */
  datatype ReceiptKey = ReceiptKey(tenant: Uuid, actor: Uuid, commandType: string, idempotencyKey: Uuid)

  datatype Receipt = Receipt(
    commandId: Uuid,
    requestText: string,
    correlationId: Option<Uuid>,
    status: ReceiptStatus,
    aggregateRefs: Option<seq<Json>>,
    httpStatus: Option<int>,
    resultCode: Option<string>,
    responseBody: Option<Json>,
    eventIds: seq<string>,
    completedAt: Option<int>)

  type Receipts = map<ReceiptKey, Receipt>

  datatype DispatchResult = DispatchResult(
    status: string,
    commandId: string,
    idempotencyKey: string,
    resultCode: string,
    aggregateRefs: seq<Json>,
    eventIds: seq<string>,
    replayed: bool)

  function Strings(texts: seq<string>): seq<Json> {
    seq(|texts|, i requires 0 <= i < |texts| => JString(texts[i]))
  }

  /** `as_receipt_body`. */
  function ReceiptBody(r: DispatchResult): Json {
    JObject([
      Field("status", JString(r.status)),
      Field("command_id", JString(r.commandId)),
      Field("idempotency_key", JString(r.idempotencyKey)),
      Field("result_code", JString(r.resultCode)),
      Field("aggregate_refs", JArray(r.aggregateRefs)),
      Field("event_ids", JArray(Strings(r.eventIds)))])
  }

  function TextAt(body: seq<Field>, key: string): Option<string> {
    match Get(body, key)
    case Some(JString(s)) => Some(s)
    case _ => None
  }

  function ItemsAt(body: seq<Field>, key: string): Option<seq<Json>> {
    match Get(body, key)
    case Some(JArray(items)) => Some(items)
    case _ => None
  }

  function Texts(items: seq<Json>): Option<seq<string>> {
    if forall i :: 0 <= i < |items| ==> items[i].JString? then
      Some(seq(|items|, i requires 0 <= i < |items| => items[i].s))
    else None
  }

  /** `from_receipt`; None is the exception a body of another shape raises. */
  function FromReceipt(receipt: Receipt, replayed: bool): Option<DispatchResult> {
    var body :=
      if receipt.responseBody.Some? && receipt.responseBody.value.JObject? then receipt.responseBody.value.fields
      else [];
    var status, commandId := TextAt(body, "status"), TextAt(body, "command_id");
    var key, code := TextAt(body, "idempotency_key"), TextAt(body, "result_code");
    var refs, ids := ItemsAt(body, "aggregate_refs"), ItemsAt(body, "event_ids");
    if status.None? || commandId.None? || key.None? || code.None? || refs.None? || ids.None? then None
    else match Texts(ids.value)
         case None => None
         case Some(texts) =>
           Some(DispatchResult(status.value, commandId.value, key.value, code.value, refs.value, texts, replayed))
  }

  lemma BodyEntries(r: DispatchResult)
    ensures var body := ReceiptBody(r).fields;
      && TextAt(body, "status") == Some(r.status)
      && TextAt(body, "command_id") == Some(r.commandId)
      && TextAt(body, "idempotency_key") == Some(r.idempotencyKey)
      && TextAt(body, "result_code") == Some(r.resultCode)
      && ItemsAt(body, "aggregate_refs") == Some(r.aggregateRefs)
      && ItemsAt(body, "event_ids") == Some(Strings(r.eventIds))
  {
    var body := ReceiptBody(r).fields;
    assert body[0].key == "status" && body[1].key == "command_id" && body[2].key == "idempotency_key";
    assert body[3].key == "result_code" && body[4].key == "aggregate_refs" && body[5].key == "event_ids";
    FoundAt(body, 0);
    FoundAt(body, 1);
    FoundAt(body, 2);
    FoundAt(body, 3);
    FoundAt(body, 4);
    FoundAt(body, 5);
  }

  lemma TextsOfStrings(texts: seq<string>)
    ensures Texts(Strings(texts)) == Some(texts)
  {
    assert Texts(Strings(texts)).value == texts;
  }

  /** A stored response is replayed verbatim, save for the `replayed` flag. */
  lemma {:induction false} ReceiptRoundTrip(r: DispatchResult, receipt: Receipt, replayed: bool)
    requires receipt.responseBody == Some(ReceiptBody(r))
    ensures FromReceipt(receipt, replayed) == Some(r.(replayed := replayed))
  {
    BodyEntries(r);
    TextsOfStrings(r.eventIds);
  }

  // ---- Handlers ----

  datatype Failure =
    | UnsupportedCommand
    | KeyReused
    | InProgress
    | CollisionUnresolved
    | PersistenceFailed
    | CommandFailed

  /** What a handler that does not raise hands back, with the rows it has changed. */
  datatype Outcome = Outcome(resultCode: string, aggregateRefs: seq<Json>, events: seq<PendingEvent>, writes: Roots)

  type Reply = Result<DispatchResult, Failure>

  /** An IntegrityError the handler's own statements cause, or any other exception. */
  datatype HandlerError = IntegrityViolation | Exception(message: string)

  /**
   * What a handler has seen so far: rows it has locked (FOR UPDATE, or the primary key of a row
   * it is about to insert), and everything else it was told, such as rows read without a lock,
   * the results of queries, or a `uuid4()`.
   */
  datatype Seen = Locked(id: Uuid, row: Option<Root>) | Told(answer: Json)

  /** What a handler does next: lock a row, ask for something without a lock, or return or raise. */
  datatype Progress = LockRow(id: Uuid) | Ask | Done(result: Result<Outcome, HandlerError>)

  /** A handler goes by its command, its context and what it has seen; it writes rows it has locked. */
  type Handler = (Command, Context, seq<Seen>) -> Progress

  /** `otherConstraints` stands for the constraints of the tables this model leaves abstract. */
  datatype Platform = Platform(handlers: map<string, Handler>, otherConstraints: (Roots, Roots) -> bool)

  datatype Request = Request(command: Command, context: Context)

  /**
   * What a transaction takes from outside: whether it is cut short, what its handler is told and
   * how many times it may look, random ids and clocks.
   */
  datatype Choice = Choice(
    aborted: bool,
    told: nat -> Json,
    looks: nat,
    eventId: nat -> Uuid,
    messageId: nat -> MessageId,
    createdAt: int,
    completedAt: int)

  function KeyOf(req: Request): ReceiptKey {
    ReceiptKey(req.context.tenant, req.context.actor, req.command.commandType, req.command.idempotencyKey)
  }

  function Only(roots: Roots, ids: set<Uuid>): Roots {
    map id | id in roots && id in ids :: roots[id]
  }

  function RowAt(roots: Roots, id: Uuid): Option<Root> {
    if id in roots then Some(roots[id]) else None
  }

  function LockedIds(seen: seq<Seen>): set<Uuid> {
    set i | 0 <= i < |seen| && seen[i].Locked? :: seen[i].id
  }

  function NextOf(p: Platform, req: Request, seen: seq<Seen>): Progress
    requires req.command.commandType in p.handlers
  {
    p.handlers[req.command.commandType](req.command, req.context, seen)
  }

  /** The handler looks once more, unless it is done. */
  function LookOnce(progress: Progress, roots: Roots, told: nat -> Json, seen: seq<Seen>): seq<Seen> {
    match progress
    case LockRow(id) => seen + [Locked(id, RowAt(roots, id))]
    case Ask => seen + [Told(told(|seen|))]
    case Done(_) => seen
  }

  /** What the handler has seen of these tables after at most `n` looks. */
  function Observed(p: Platform, req: Request, roots: Roots, told: nat -> Json, n: nat): seq<Seen>
    requires req.command.commandType in p.handlers
  {
    if n == 0 then []
    else
      var seen := Observed(p, req, roots, told, n - 1);
      LookOnce(NextOf(p, req, seen), roots, told, seen)
  }

  /** How the handler ends; one that has not returned yet is cut off. */
  function ResultOfHandler(progress: Progress, seen: seq<Seen>): Result<Outcome, Failure> {
    match progress
    case Done(Ok(outcome)) => Ok(outcome.(writes := Only(outcome.writes, LockedIds(seen))))
    case Done(Err(IntegrityViolation)) => Err(PersistenceFailed)
    case _ => Err(CommandFailed)
  }

  function Execute(p: Platform, req: Request, roots: Roots, choice: Choice): Result<Outcome, Failure>
    requires req.command.commandType in p.handlers
  {
    var seen := Observed(p, req, roots, choice.told, choice.looks);
    ResultOfHandler(NextOf(p, req, seen), seen)
  }

  // ---- Events and outbox messages ----

  /** Which code wrote an event; the table has no column for it. */
  datatype Writer = ByDispatcher | ByOtherCode

  datatype DomainEvent = DomainEvent(
    writer: Writer,
    id: Uuid,
    tenant: Uuid,
    aggregateType: string,
    aggregateId: Uuid,
    aggregateRevision: int,
    eventType: string,
    payloadVersion: int,
    payload: Json,
    actor: Option<Uuid>,
    commandId: Option<Uuid>,
    correlationId: Option<Uuid>,
    causationId: Option<Uuid>)

  function EventRow(req: Request, e: PendingEvent, id: Uuid): DomainEvent {
    DomainEvent(
      ByDispatcher, id, req.context.tenant, e.aggregateType, e.aggregateId, e.aggregateRevision, e.eventType,
      e.payloadVersion, EventPayload(e, id), Some(req.context.actor), Some(req.command.commandId),
      req.command.correlationId, Some(req.command.commandId))
  }

  function DedupeKey(topic: string, eventId: Uuid): string {
    topic + ":" + Format(eventId)
  }

  function MessageRow(req: Request, e: PendingEvent, id: Uuid, createdAt: int): Row {
    Row(req.context.tenant, id, e.topic, e.payloadVersion, EventPayload(e, id), DedupeKey(e.topic, id), createdAt,
        Pending, 0, None, None, None)
  }

  /** The first `n` events as rows. */
  function EventRows(req: Request, events: seq<PendingEvent>, choice: Choice, n: nat): (rows: seq<DomainEvent>)
    requires n <= |events|
    ensures |rows| == n
  {
    if n == 0 then [] else EventRows(req, events, choice, n - 1) + [EventRow(req, events[n - 1], choice.eventId(n - 1))]
  }

  lemma EventRowsStep(events: seq<DomainEvent>, req: Request, pending: seq<PendingEvent>, choice: Choice, i: nat)
    requires i < |pending|
    ensures events + EventRows(req, pending, choice, i + 1)
         == events + EventRows(req, pending, choice, i) + [EventRow(req, pending[i], choice.eventId(i))]
  {
  }

  function MessageRows(req: Request, events: seq<PendingEvent>, choice: Choice, n: nat): (rows: seq<Row>)
    requires n <= |events|
    ensures |rows| == n
  {
    if n == 0 then []
    else
      MessageRows(req, events, choice, n - 1)
      + [MessageRow(req, events[n - 1], choice.eventId(n - 1), choice.createdAt)]
  }

  function MessageIds(choice: Choice, n: nat): (ids: seq<MessageId>)
    ensures |ids| == n
  {
    if n == 0 then [] else MessageIds(choice, n - 1) + [choice.messageId(n - 1)]
  }

  /** The outbox with a message for each of the first `n` events. */
  function WithMessages(outbox: Table, req: Request, events: seq<PendingEvent>, choice: Choice, n: nat): Table
    requires n <= |events|
  {
    AddAll(outbox, MessageIds(choice, n), MessageRows(req, events, choice, n))
  }

  function EventIdTexts(choice: Choice, n: nat): (texts: seq<string>)
    ensures |texts| == n
  {
    if n == 0 then [] else EventIdTexts(choice, n - 1) + [Format(choice.eventId(n - 1))]
  }

  // ---- One dispatch on its own ----

  datatype Db = Db(receipts: Receipts, events: seq<DomainEvent>, outbox: Table, roots: Roots)

  /** `uq_command_receipts__tenant_command_id` is taken. */
  predicate CommandIdUsed(receipts: Receipts, tenant: Uuid, commandId: Uuid) {
    exists key :: key in receipts && key.tenant == tenant && receipts[key].commandId == commandId
  }

  /** The primary keys of the new rows are unused and differ from each other. */
  predicate FreshIds(db: Db, choice: Choice, n: nat) {
    && (forall i, k :: 0 <= i < n && 0 <= k < |db.events| ==> db.events[k].id != choice.eventId(i))
    && (forall i :: 0 <= i < n ==> choice.messageId(i) !in db.outbox)
    && (forall i, j :: 0 <= i < j < n ==> choice.eventId(i) != choice.eventId(j))
    && (forall i, j :: 0 <= i < j < n ==> choice.messageId(i) != choice.messageId(j))
  }

  /** No key, trigger or constraint of the database refuses the new rows. */
  predicate Admissible(p: Platform, db: Db, outcome: Outcome, choice: Choice) {
    && FreshIds(db, choice, |outcome.events|)
    && WritesAllowed(db.roots, outcome.writes)
    && p.otherConstraints(db.roots, outcome.writes)
  }

  function ProcessingReceipt(req: Request): Receipt {
    Receipt(req.command.commandId, RequestText(req.command), req.command.correlationId, Processing,
            None, None, None, None, [], None)
  }

  function ResultOf(req: Request, outcome: Outcome, choice: Choice): DispatchResult {
    DispatchResult("SUCCEEDED", Format(req.command.commandId), Format(req.command.idempotencyKey),
                   outcome.resultCode, outcome.aggregateRefs, EventIdTexts(choice, |outcome.events|), false)
  }

  function SucceededReceipt(req: Request, outcome: Outcome, choice: Choice): Receipt {
    Receipt(req.command.commandId, RequestText(req.command), req.command.correlationId, Succeeded,
            Some(outcome.aggregateRefs), Some(201), Some(outcome.resultCode),
            Some(ReceiptBody(ResultOf(req, outcome, choice))),
            EventIdTexts(choice, |outcome.events|), Some(choice.completedAt))
  }

  function Committed(db: Db, req: Request, outcome: Outcome, choice: Choice): Db {
    Db(db.receipts[KeyOf(req) := SucceededReceipt(req, outcome, choice)],
       db.events + EventRows(req, outcome.events, choice, |outcome.events|),
       WithMessages(db.outbox, req, outcome.events, choice, |outcome.events|),
       db.roots + outcome.writes)
  }

  /** `_resolve_existing_receipt`. */
  function Resolve(receipt: Receipt, requestText: string): Reply {
    if receipt.requestText != requestText then Err(KeyReused)
    else if receipt.status == Succeeded then
      match FromReceipt(receipt, true)
      case Some(result) => Ok(result)
      case None => Err(CommandFailed)
    else Err(InProgress)
  }

  /** The flush and the commit: the new database, or the old one if a constraint objects. */
  function Commit(p: Platform, db: Db, req: Request, outcome: Outcome, choice: Choice): (Db, Reply) {
    if Admissible(p, db, outcome, choice) then (Committed(db, req, outcome, choice), Ok(ResultOf(req, outcome, choice)))
    else (db, Err(PersistenceFailed))
  }

  /** The rest of a dispatch once its receipt is in. */
  function ExecuteAndCommit(p: Platform, db: Db, req: Request, choice: Choice): (Db, Reply)
    requires req.command.commandType in p.handlers
  {
    match Execute(p, req, db.roots, choice)
    case Err(failure) => (db, Err(failure))
    case Ok(outcome) => Commit(p, db, req, outcome, choice)
  }

  /** The whole of one dispatch when no other transaction runs. */
  function Dispatched(p: Platform, db: Db, req: Request, choice: Choice): (Db, Reply) {
    if req.command.commandType !in p.handlers then (db, Err(UnsupportedCommand))
    else if choice.aborted then (db, Err(CommandFailed))
    else if KeyOf(req) in db.receipts then (db, Resolve(db.receipts[KeyOf(req)], RequestText(req.command)))
    else if CommandIdUsed(db.receipts, req.context.tenant, req.command.commandId) then (db, Err(CollisionUnresolved))
    else ExecuteAndCommit(p, db, req, choice)
  }

  // ---- Other code that writes the same tables ----

  /** The topics of the dispatcher's messages; the other writers have topics of their own. */
  const DISPATCH_TOPICS: set<string> := {COCKPIT_TOPIC, RETENTION_TOPIC}

  /** What other code commits in a transaction of its own: events with messages, and other rows. */
  datatype OtherWrite = OtherWrite(events: seq<DomainEvent>, ids: seq<MessageId>, rows: seq<Row>, writes: Roots)

  /** The foreign key of a message. */
  predicate MessageOf(row: Row, e: DomainEvent) {
    row.eventId == e.id && row.tenant == e.tenant
  }

  predicate OtherEventsAllowed(db: Db, events: seq<DomainEvent>) {
    && (forall i :: 0 <= i < |events| ==> events[i].writer == ByOtherCode)
    && (forall i, k :: 0 <= i < |events| && 0 <= k < |db.events| ==> db.events[k].id != events[i].id)
    && (forall i, j :: 0 <= i < j < |events| ==> events[i].id != events[j].id)
  }

  predicate OtherMessagesAllowed(db: Db, w: OtherWrite) {
    && |w.ids| == |w.rows|
    && (forall i :: 0 <= i < |w.ids| ==> w.ids[i] !in db.outbox)
    && (forall i, j :: 0 <= i < j < |w.ids| ==> w.ids[i] != w.ids[j])
    && (forall i | 0 <= i < |w.rows| ::
          && Fresh(w.rows[i]) && w.rows[i].topic !in DISPATCH_TOPICS
          && exists k :: 0 <= k < |w.events| && MessageOf(w.rows[i], w.events[k]))
    && (forall i, j | 0 <= i < j < |w.rows| ::
          w.rows[i].eventId != w.rows[j].eventId || w.rows[i].topic != w.rows[j].topic)
  }

  predicate OtherWriteAllowed(p: Platform, db: Db, w: OtherWrite) {
    && OtherEventsAllowed(db, w.events) && OtherMessagesAllowed(db, w)
    && WritesAllowed(db.roots, w.writes) && p.otherConstraints(db.roots, w.writes)
  }

  /** A write that a key or a constraint refuses leaves nothing behind. */
  function Written(p: Platform, db: Db, w: OtherWrite): Db {
    if OtherWriteAllowed(p, db, w) then
      Db(db.receipts, db.events + w.events, AddAll(db.outbox, w.ids, w.rows), db.roots + w.writes)
    else db
  }
}
