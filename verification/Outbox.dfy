/**
 * Outbox rows and what one worker does to them: claiming a batch under a lease, and settling a
 * claimed row after the outside effect. The five workers share the shape and differ in `Plan`,
 * `VerdictOf` and the NOT_CONFIGURED guard.
 */
module Outbox {
  import opened Common
  import opened Text
  import opened Json
  import opened Uuids
  import opened EventContracts
  import opened RetryPolicy

  /** Message ids are UUIDs; only their order and equality matter here. */
  type MessageId = nat

  datatype Row = Row(
    tenant: Uuid,
    eventId: Uuid,
    topic: string,
    payloadVersion: int,
    payload: Json,
    dedupeKey: string,
    createdAt: int,
    status: Status,
    attemptCount: int,
    nextAttemptAt: Option<int>,
    publishedAt: Option<int>,
    lastError: Option<string>)

  type Table = map<MessageId, Row>

  /** A row as its writer stores it; some writers set `next_attempt_at` right away. */
  predicate Fresh(row: Row) {
    row.status == Pending && row.attemptCount == 0 && row.publishedAt == None && row.lastError == None
  }

  datatype Kind = Cockpit | Webhook | Smtp | EventBus | Retention

  /** A worker process: `configured` is a present projection, URL, notifier or bus. */
  datatype Worker = Worker(
    kind: Kind, configured: bool, secret: bool, batchSize: nat, leaseSeconds: int, maxAttempts: int)

  function Topics(kind: Kind): set<string> {
    match kind
    case Cockpit => {COCKPIT_TOPIC}
    case Webhook => {WEBHOOK_TOPIC}
    case Smtp => {SMTP_TOPIC}
    case EventBus => {BOAMP_INGESTION_TOPIC, BOAMP_QUALIFICATION_TOPIC}
    case Retention => {RETENTION_TOPIC}
  }

  // ---- Claiming ----

  predicate Claimable(row: Row) {
    row.status == Pending || row.status == Retry
  }

  predicate Due(row: Row, kind: Kind, now: int) {
    row.topic in Topics(kind) && Claimable(row) && (row.nextAttemptAt.None? || row.nextAttemptAt.value <= now)
  }

  function DueIds(rows: Table, kind: Kind, now: int): set<MessageId> {
    set id | id in rows && Due(rows[id], kind, now)
  }

  /** ORDER BY created_at, id. */
  predicate Before(rows: Table, a: MessageId, b: MessageId)
    requires a in rows && b in rows
  {
    rows[a].createdAt < rows[b].createdAt || (rows[a].createdAt == rows[b].createdAt && a <= b)
  }

  predicate IsFirst(rows: Table, ids: set<MessageId>, m: MessageId)
    requires ids <= rows.Keys
  {
    m in ids && forall n :: n in ids ==> Before(rows, m, n)
  }

  lemma {:induction false} FirstExists(rows: Table, ids: set<MessageId>)
    requires ids <= rows.Keys && ids != {}
    ensures exists m | m in ids :: IsFirst(rows, ids, m)
    decreases |ids|
  {
    var x :| x in ids;
    if ids == {x} {
      assert IsFirst(rows, ids, x);
    } else {
      var rest := ids - {x};
      assert rest != {};
      FirstExists(rows, rest);
      var m :| m in rest && IsFirst(rows, rest, m);
      var first := if Before(rows, m, x) then m else x;
      forall n | n in ids ensures Before(rows, first, n) {
        assert n == x || Before(rows, m, n);
      }
      assert IsFirst(rows, ids, first);
    }
  }

  function SortedIds(rows: Table, ids: set<MessageId>): (r: seq<MessageId>)
    requires ids <= rows.Keys
    ensures |r| == |ids|
    decreases |ids|
  {
    if ids == {} then [] else
      FirstExists(rows, ids);
      var m :| m in ids && IsFirst(rows, ids, m);
      [m] + SortedIds(rows, ids - {m})
  }

  /** SELECT ... ORDER BY ... LIMIT ... FOR UPDATE SKIP LOCKED, with `locked` held by others. */
  function ClaimIds(rows: Table, w: Worker, now: int, locked: set<MessageId>): (ids: seq<MessageId>) {
    var due := SortedIds(rows, DueIds(rows, w.kind, now) - locked);
    due[..Min(w.batchSize, |due|)]
  }

  function LeaseRow(row: Row, until: int): Row {
    row.(status := Retry, nextAttemptAt := Some(until))
  }

  function ClaimRows(rows: Table, ids: seq<MessageId>, until: int): Table {
    map id | id in rows :: if id in ids then LeaseRow(rows[id], until) else rows[id]
  }

  function LeaseEnd(w: Worker, now: int): int {
    now + w.leaseSeconds * SECOND
  }

  // ---- Settling ----

  datatype Verdict =
    | Publish
    | PublishSkipped
    | RetryWith(code: string)
    | FailWith(code: string)
    | NotConfiguredWith(code: string)
    | Leave

  /** What a worker decides from the stored row alone, before any outside effect. */
  datatype Plan = Settled(verdict: Verdict) | Outside

  function PlanFor(w: Worker, row: Row): Plan {
    if row.topic !in Topics(w.kind) then Settled(Leave)
    else match w.kind
      case Cockpit =>
        if SafeEvent(row.payload, row.tenant).None? then Settled(FailWith("INVALID_COCKPIT_EVENT_PAYLOAD"))
        else if !w.configured then Settled(NotConfiguredWith("COCKPIT_PROJECTION_NOT_CONFIGURED"))
        else Outside
      case Webhook =>
        if !WebhookAccepts(row.payload) then Settled(RetryWith("INVALID_EXPORT_PAYLOAD"))
        else if !w.configured then Settled(NotConfiguredWith("WEBHOOK_NOT_CONFIGURED"))
        else if !w.secret then Settled(RetryWith("EXPORT_WEBHOOK_CONFIGURATION_INVALID"))
        else Outside
      case Smtp =>
        if !SmtpAccepts(row.payload) then Settled(RetryWith("INVALID_EXPORT_EMAIL_PAYLOAD"))
        else if !w.configured then Settled(NotConfiguredWith("SMTP_NOT_CONFIGURED"))
        else Outside
      case EventBus =>
        if !BusAccepts(row.topic, row.payload) then Settled(RetryWith("INVALID_BOAMP_EVENT_PAYLOAD"))
        else if !w.configured then Settled(Leave)
        else Outside
      case Retention =>
        if RetentionTargetOf(row.payload).None? then Settled(RetryWith("INVALID_RETENTION_PAYLOAD"))
        else Outside
  }

  /** How the outside effect came back; the last two are answers of the retention worker's lookup. */
  datatype Answer = Returned(httpStatus: int) | Raised | ObjectMissing | ObjectKept

  function VerdictOf(w: Worker, answer: Answer): Verdict {
    match answer
    case ObjectMissing => Publish
    case ObjectKept => PublishSkipped
    case Returned(status) =>
      if w.kind == Webhook && !(200 <= status < 300) then RetryWith("EXPORT_WEBHOOK_HTTP_" + IntText(status))
      else Publish
    case Raised =>
      RetryWith(match w.kind
                case Cockpit => "COCKPIT_PROJECTION_DELIVERY_FAILED"
                case Webhook => "EXPORT_WEBHOOK_DELIVERY_FAILED"
                case Smtp => "SMTP_NOTIFICATION_DELIVERY_FAILED"
                case EventBus => "EXTERNAL_EVENT_BUS_DELIVERY_FAILED"
                case Retention => "PRIVATE_DELETE_FAILED")
  }

  /** Only the retention worker looks an object up. */
  predicate AnswerPossible(w: Worker, answer: Answer) {
    answer.ObjectMissing? || answer.ObjectKept? ==> w.kind == Retention
  }

  /** An outside effect that happened and was accepted. */
  predicate Accepted(w: Worker, answer: Answer) {
    answer.Returned? && VerdictOf(w, answer) == Publish
  }

  datatype Report = DidDeliver | DidSkip | DidRetry | DidFail | DidNotConfigure

  function PublishRow(row: Row, now: int): Row {
    row.(status := Published, publishedAt := Some(now), nextAttemptAt := None, lastError := None)
  }

  function RetryRow(row: Row, now: int, maxAttempts: int, code: string): Row
    requires ValidLimit(maxAttempts)
  {
    var d := DecideRetry(row.attemptCount, now, maxAttempts).value;
    row.(status := d.status, attemptCount := d.attemptCount, nextAttemptAt := d.nextAttemptAt, lastError := Some(code))
  }

  function FailRow(row: Row, code: string): Row {
    row.(status := Failed, attemptCount := row.attemptCount + 1, nextAttemptAt := None, lastError := Some(code))
  }

  /** The cockpit worker only refuses PUBLISHED rows; the export workers insist on an open row. */
  predicate MayMark(kind: Kind, row: Row) {
    if kind == Cockpit then row.status != Published else Claimable(row)
  }

  function MarkRow(kind: Kind, row: Row, code: string): Row {
    row.(status := NotConfigured, nextAttemptAt := None, lastError := Some(code),
         publishedAt := if kind == Cockpit then row.publishedAt else None)
  }

  /** The second transaction: the row as it stands under the lock, and the counter it adds to. */
  function Settle(w: Worker, row: Row, now: int, verdict: Verdict): (Row, Report)
    requires ValidLimit(w.maxAttempts)
  {
    match verdict
    case Leave => (row, DidSkip)
    case NotConfiguredWith(code) =>
      if MayMark(w.kind, row) then (MarkRow(w.kind, row, code), DidNotConfigure) else (row, DidSkip)
    case Publish =>
      if row.status == Published then (row, DidSkip) else (PublishRow(row, now), DidDeliver)
    case PublishSkipped =>
      if row.status == Published then (row, DidSkip) else (PublishRow(row, now), DidSkip)
    case FailWith(code) =>
      if row.status == Published then (row, DidSkip) else (FailRow(row, code), DidFail)
    case RetryWith(code) =>
      if row.status == Published then (row, DidSkip)
      else
        var r := RetryRow(row, now, w.maxAttempts, code);
        (r, if r.status == Retry then DidRetry else DidFail)
  }

  /** One message from its stored row to its final state, with the answer of the outside effect. */
  function Process(w: Worker, row: Row, now: int, answer: Answer): (Row, Report)
    requires ValidLimit(w.maxAttempts)
  {
    match PlanFor(w, row)
    case Settled(verdict) => Settle(w, row, now, verdict)
    case Outside => Settle(w, row, now, VerdictOf(w, answer))
  }

  // ---- Counters of a run ----

  datatype RunResult = RunResult(delivered: nat, skipped: nat, retried: nat, failed: nat, notConfigured: nat)

  const NOTHING := RunResult(0, 0, 0, 0, 0)

  function One(report: Report): RunResult {
    match report
    case DidDeliver => RunResult(1, 0, 0, 0, 0)
    case DidSkip => RunResult(0, 1, 0, 0, 0)
    case DidRetry => RunResult(0, 0, 1, 0, 0)
    case DidFail => RunResult(0, 0, 0, 1, 0)
    case DidNotConfigure => RunResult(0, 0, 0, 0, 1)
  }

  function Merge(a: RunResult, b: RunResult): RunResult {
    RunResult(a.delivered + b.delivered, a.skipped + b.skipped, a.retried + b.retried,
              a.failed + b.failed, a.notConfigured + b.notConfigured)
  }

  function Total(r: RunResult): nat {
    r.delivered + r.skipped + r.retried + r.failed + r.notConfigured
  }
}
