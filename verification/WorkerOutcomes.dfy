/**
 * What a worker makes of one message, written out for each kind of worker: which messages it
 * acts on, and the whole row after a success, a failure, a refused payload or a missing
 * configuration.
 */
module WorkerOutcomes {
  import opened Common
  import opened Text
  import opened EventContracts
  import opened RetryPolicy
  import opened Outbox
  import opened ClaimRounds

  predicate OwnTopic(kind: Kind, topic: string) {
    match kind
    case Cockpit => topic == "cockpit_projection"
    case Webhook => topic == "submission.package.exported"
    case Smtp => topic == "submission.package.exported.smtp"
    case EventBus =>
      topic == "opportunity.boamp.ingestion.recorded" || topic == "opportunity.boamp.qualification.recorded"
    case Retention => topic == "dce_staging_retention"
  }

  /** The payload meets the worker's contract. */
  predicate GoodPayload(kind: Kind, row: Row) {
    match kind
    case Cockpit => SafeEvent(row.payload, row.tenant).Some?
    case Webhook => WebhookAccepts(row.payload)
    case Smtp => SmtpAccepts(row.payload)
    case EventBus => BusAccepts(row.topic, row.payload)
    case Retention => RetentionTargetOf(row.payload).Some?
  }

  /** Everything the worker needs outside is there; the retention worker always has its storage. */
  predicate Equipped(w: Worker) {
    w.kind == Retention || (w.configured && (w.kind == Webhook ==> w.secret))
  }

  // ---- Expected rows ----

  /** The time to wait after a failure that `attempts` others came before. */
  function BackoffSeconds(attempts: nat): int {
    Min(30 * Pow2(attempts), 3600)
  }

  /** The row after one more failed attempt. */
  function FailedAgain(row: Row, now: int, limit: int, code: string): Row
    requires row.attemptCount >= 0
  {
    var counted := row.(attemptCount := row.attemptCount + 1, lastError := Some(code));
    if row.attemptCount + 1 < limit then
      counted.(status := Retry, nextAttemptAt := Some(now + BackoffSeconds(row.attemptCount) * 1_000_000))
    else counted.(status := Failed, nextAttemptAt := None)
  }

  function AgainReport(row: Row, limit: int): Report {
    if row.attemptCount + 1 < limit then DidRetry else DidFail
  }

  lemma {:induction false} BackoffDecided(row: Row, now: int, limit: int, code: string)
    requires ValidLimit(limit) && row.attemptCount >= 0
    ensures RetryRow(row, now, limit, code) == FailedAgain(row, now, limit, code)
  {
    ExactDecision(row.attemptCount, now, limit);
    DelayValue(row.attemptCount + 1);
  }

  // ---- Outside effects ----

  /** The answers that stand for a failure. */
  predicate Fails(kind: Kind, answer: Answer) {
    answer.Raised? || (kind == Webhook && answer.Returned? && (answer.httpStatus < 200 || answer.httpStatus >= 300))
  }

  function FailureCode(kind: Kind, answer: Answer): string {
    match kind
    case Cockpit => "COCKPIT_PROJECTION_DELIVERY_FAILED"
    case Webhook =>
      if answer.Returned? then "EXPORT_WEBHOOK_HTTP_" + IntText(answer.httpStatus) else "EXPORT_WEBHOOK_DELIVERY_FAILED"
    case Smtp => "SMTP_NOTIFICATION_DELIVERY_FAILED"
    case EventBus => "EXTERNAL_EVENT_BUS_DELIVERY_FAILED"
    case Retention => "PRIVATE_DELETE_FAILED"
  }

  /** A worker acts outside for exactly the messages of its topic whose payload it accepts. */
  lemma {:induction false} ActsExactly(w: Worker, row: Row)
    ensures PlanFor(w, row) == Outside <==> OwnTopic(w.kind, row.topic) && GoodPayload(w.kind, row) && Equipped(w)
  {
  }

  /**
   * A failed effect counts one attempt and records the failure's code; below the limit the
   * message waits min(30 * 2^k, 3600) seconds after k earlier attempts, at the limit it fails.
   */
  lemma {:induction false} FailureBacksOff(w: Worker, row: Row, now: int, answer: Answer)
    requires ValidLimit(w.maxAttempts) && row.attemptCount >= 0 && row.status != Published
    requires OwnTopic(w.kind, row.topic) && GoodPayload(w.kind, row) && Equipped(w) && Fails(w.kind, answer)
    ensures Process(w, row, now, answer) ==
      (FailedAgain(row, now, w.maxAttempts, FailureCode(w.kind, answer)), AgainReport(row, w.maxAttempts))
  {
    ActsExactly(w, row);
    BackoffDecided(row, now, w.maxAttempts, FailureCode(w.kind, answer));
  }

  /** The row after a publication. */
  function PublishedAt(row: Row, now: int): Row {
    row.(status := Published, publishedAt := Some(now), nextAttemptAt := None, lastError := None)
  }

  /** A successful effect, and an object with nothing to delete, publish the message at `now`. */
  lemma {:induction false} SuccessPublishes(w: Worker, row: Row, now: int, answer: Answer)
    requires ValidLimit(w.maxAttempts) && row.status != Published && AnswerPossible(w, answer)
    requires OwnTopic(w.kind, row.topic) && GoodPayload(w.kind, row) && Equipped(w) && !Fails(w.kind, answer)
    ensures Process(w, row, now, answer) == (PublishedAt(row, now), if answer.ObjectKept? then DidSkip else DidDeliver)
    ensures Accepted(w, answer) <==> answer.Returned?
  {
    ActsExactly(w, row);
  }

  // ---- Messages that no effect is tried for ----

  function RefusalCode(kind: Kind): string {
    match kind
    case Cockpit => "INVALID_COCKPIT_EVENT_PAYLOAD"
    case Webhook => "INVALID_EXPORT_PAYLOAD"
    case Smtp => "INVALID_EXPORT_EMAIL_PAYLOAD"
    case EventBus => "INVALID_BOAMP_EVENT_PAYLOAD"
    case Retention => "INVALID_RETENTION_PAYLOAD"
  }

  /** A payload against the contract: the cockpit worker fails the message at once, the others retry it. */
  lemma {:induction false} RefusedPayload(w: Worker, row: Row, now: int, answer: Answer)
    requires ValidLimit(w.maxAttempts) && row.attemptCount >= 0 && row.status != Published
    requires OwnTopic(w.kind, row.topic) && !GoodPayload(w.kind, row)
    ensures Process(w, row, now, answer) ==
      if w.kind == Cockpit then
        (row.(status := Failed, attemptCount := row.attemptCount + 1, nextAttemptAt := None,
              lastError := Some(RefusalCode(w.kind))),
         DidFail)
      else (FailedAgain(row, now, w.maxAttempts, RefusalCode(w.kind)), AgainReport(row, w.maxAttempts))
  {
    if w.kind != Cockpit {
      BackoffDecided(row, now, w.maxAttempts, RefusalCode(w.kind));
    }
  }

  predicate NowhereToSend(w: Worker) {
    w.kind in {Cockpit, Webhook, Smtp} && !w.configured
  }

  function NowhereCode(kind: Kind): string {
    match kind
    case Cockpit => "COCKPIT_PROJECTION_NOT_CONFIGURED"
    case Webhook => "WEBHOOK_NOT_CONFIGURED"
    case _ => "SMTP_NOT_CONFIGURED"
  }

  lemma {:induction false} PlansMark(w: Worker, row: Row)
    requires OwnTopic(w.kind, row.topic) && GoodPayload(w.kind, row) && NowhereToSend(w)
    ensures PlanFor(w, row) == Settled(NotConfiguredWith(NowhereCode(w.kind)))
  {
  }

  lemma {:induction false} MarkSettles(w: Worker, row: Row, now: int, code: string)
    requires ValidLimit(w.maxAttempts) && (row.status == Pending || row.status == Retry)
    ensures Settle(w, row, now, NotConfiguredWith(code)) ==
      (row.(status := NotConfigured, nextAttemptAt := None, lastError := Some(code),
            publishedAt := if w.kind == Cockpit then row.publishedAt else None),
       DidNotConfigure)
  {
  }

  /** Without a target an open message is marked, and no attempt is counted. */
  lemma {:induction false} UnconfiguredMarks(w: Worker, row: Row, now: int, answer: Answer)
    requires ValidLimit(w.maxAttempts) && (row.status == Pending || row.status == Retry)
    requires OwnTopic(w.kind, row.topic) && GoodPayload(w.kind, row) && NowhereToSend(w)
    ensures Process(w, row, now, answer).1 == DidNotConfigure
    ensures Process(w, row, now, answer).0 ==
      row.(status := NotConfigured, nextAttemptAt := None, lastError := Some(NowhereCode(w.kind)),
           publishedAt := if w.kind == Cockpit then row.publishedAt else None)
  {
    PlansMark(w, row);
    MarkSettles(w, row, now, NowhereCode(w.kind));
  }

  /** A bus worker without a bus leaves the message; a webhook worker without its secret retries it. */
  lemma {:induction false} UnequippedWaits(w: Worker, row: Row, now: int, answer: Answer)
    requires ValidLimit(w.maxAttempts) && row.attemptCount >= 0 && row.status != Published
    requires OwnTopic(w.kind, row.topic) && GoodPayload(w.kind, row) && !Equipped(w) && !NowhereToSend(w)
    ensures Process(w, row, now, answer) ==
      if w.kind == EventBus then (row, DidSkip)
      else (FailedAgain(row, now, w.maxAttempts, "EXPORT_WEBHOOK_CONFIGURATION_INVALID"),
            AgainReport(row, w.maxAttempts))
  {
    if w.kind == Webhook {
      BackoffDecided(row, now, w.maxAttempts, "EXPORT_WEBHOOK_CONFIGURATION_INVALID");
    }
  }

  /**
   * Messages of other topics, and published ones, stay as they are. A closed message is marked by
   * the cockpit worker only.
   */
  lemma {:induction false} LeftAlone(w: Worker, row: Row, now: int, answer: Answer)
    requires ValidLimit(w.maxAttempts)
    requires !OwnTopic(w.kind, row.topic) || row.status == Published
             || (row.status in {Failed, NotConfigured} && w.kind in {Webhook, Smtp} && NowhereToSend(w)
                 && GoodPayload(w.kind, row))
    ensures Process(w, row, now, answer) == (row, DidSkip)
  {
  }

  // ---- Which messages a claim takes ----

  /** The worker may take the row now. */
  predicate IsDue(row: Row, kind: Kind, now: int) {
    && OwnTopic(kind, row.topic) && (row.status == Pending || row.status == Retry)
    && (row.nextAttemptAt.Some? ==> row.nextAttemptAt.value <= now)
  }

  /** Row `a` was stored before row `b`; ids decide between equal times. */
  predicate Older(rows: Table, a: MessageId, b: MessageId)
    requires a in rows && b in rows
  {
    rows[a].createdAt < rows[b].createdAt || (rows[a].createdAt == rows[b].createdAt && a < b)
  }

  lemma PrefixIsOldest(rows: Table, all: seq<MessageId>, n: nat)
    requires NoDuplicates(all) && forall i :: 0 <= i < |all| ==> all[i] in rows
    requires forall i, j :: 0 <= i < j < |all| ==> Before(rows, all[i], all[j])
    ensures var ids := all[..Min(n, |all|)];
      && (forall i, j :: 0 <= i < j < |ids| ==> Older(rows, ids[i], ids[j]))
      && (forall id :: id in all && id !in ids ==>
            |ids| == n && forall i :: 0 <= i < |ids| ==> Older(rows, ids[i], id))
  {
    var ids := all[..Min(n, |all|)];
    forall k | 0 <= k < |ids| ensures all[k] in ids {
      assert ids[k] == all[k];
    }
    forall id | id in all && id !in ids ensures |ids| == n && forall i :: 0 <= i < |ids| ==> Older(rows, ids[i], id) {
      var j :| 0 <= j < |all| && all[j] == id;
    }
  }

  lemma DueExactly(rows: Table, kind: Kind, now: int, locked: set<MessageId>, id: MessageId)
    ensures id in DueIds(rows, kind, now) - locked <==> id in rows && IsDue(rows[id], kind, now) && id !in locked
  {
  }

  /**
   * A claim takes the oldest due messages that nobody holds locked, oldest first, and leaves one
   * of them only if the batch is full.
   */
  lemma {:induction false} ClaimTakesTheOldest(rows: Table, w: Worker, now: int, locked: set<MessageId>)
    ensures var ids := ClaimIds(rows, w, now, locked);
      && |ids| <= w.batchSize
      && (forall i :: 0 <= i < |ids| ==> ids[i] in rows && IsDue(rows[ids[i]], w.kind, now) && ids[i] !in locked)
      && (forall i, j :: 0 <= i < j < |ids| ==> Older(rows, ids[i], ids[j]))
      && (forall id | id in rows && IsDue(rows[id], w.kind, now) && id !in locked && id !in ids ::
            |ids| == w.batchSize && forall i :: 0 <= i < |ids| ==> Older(rows, ids[i], id))
  {
    var due := DueIds(rows, w.kind, now) - locked;
    var all, ids := SortedIds(rows, due), ClaimIds(rows, w, now, locked);
    SortedIdsSound(rows, due);
    forall i | 0 <= i < |all| ensures all[i] in rows && IsDue(rows[all[i]], w.kind, now) && all[i] !in locked {
      assert all[i] in all;
      DueExactly(rows, w.kind, now, locked, all[i]);
    }
    PrefixIsOldest(rows, all, w.batchSize);
    forall id | id in rows && IsDue(rows[id], w.kind, now) && id !in locked ensures id in all {
      DueExactly(rows, w.kind, now, locked, id);
    }
  }
}
