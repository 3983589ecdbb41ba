/** What every run of the lease protocol keeps, with overlapping leases and crashes. */
module LeaseInvariants {
  import opened Common
  import opened RetryPolicy
  import opened Outbox
  import opened ClaimRounds
  import opened LeaseProtocol

  // ---- One row ----

  ghost predicate SameMessage(a: Row, b: Row) {
    && a.tenant == b.tenant && a.eventId == b.eventId && a.topic == b.topic && a.createdAt == b.createdAt
    && a.payloadVersion == b.payloadVersion && a.payload == b.payload && a.dedupeKey == b.dedupeKey
  }

  /** `b` is `a` some time later: PUBLISHED rows never change again, attempts never drop. */
  ghost predicate Later(a: Row, b: Row) {
    SameMessage(a, b) && a.attemptCount <= b.attemptCount && (a.status == Published ==> b == a)
  }

  /**
   * published_at is set iff PUBLISHED; a RETRY row has a next_attempt_at, a closed row has none;
   * a closed row carries an error code iff it was not published.
   */
  ghost predicate Shaped(row: Row) {
    && row.attemptCount >= 0
    && (row.publishedAt.Some? <==> row.status == Published)
    && (row.status == Retry ==> row.nextAttemptAt.Some?)
    && (row.nextAttemptAt.Some? ==> Claimable(row))
    && (!Claimable(row) ==> (row.lastError.Some? <==> row.status != Published))
  }

  ghost predicate AllShaped(rows: Table) {
    forall id :: id in rows ==> Shaped(rows[id])
  }

  /** A row that can still be claimed has attempts left. */
  ghost predicate HasAttemptsLeft(row: Row, limit: int) {
    Claimable(row) ==> row.attemptCount < limit
  }

  lemma {:induction false} SettleRow(w: Worker, row: Row, now: int, verdict: Verdict, limit: int)
    requires ValidLimit(w.maxAttempts) && w.maxAttempts <= limit && Shaped(row) && HasAttemptsLeft(row, limit)
    ensures var (row', report) := Settle(w, row, now, verdict);
      Later(row, row') && row'.attemptCount <= row.attemptCount + 1 && Shaped(row') && HasAttemptsLeft(row', limit)
  {
  }

  /** What a settlement would write is what the row already says. */
  ghost predicate AlreadyMarked(row: Row, code: string) {
    row.status == NotConfigured && row.lastError == Some(code)
  }

  /** The guards let a settlement through, and it is not the same mark again. */
  ghost predicate Overwrites(w: Worker, row: Row, verdict: Verdict) {
    match verdict
    case Leave => false
    case NotConfiguredWith(code) => w.kind == Cockpit && row.status != Published && !AlreadyMarked(row, code)
    case _ => row.status != Published
  }

  /**
   * A late settlement changes a closed row exactly when the row is not PUBLISHED and the worker's
   * guard lets its verdict through: an export worker never marks a closed row, the others all do.
   */
  lemma {:induction false} LateSettlementChangesExactly(w: Worker, row: Row, now: int, verdict: Verdict)
    requires ValidLimit(w.maxAttempts) && Shaped(row) && !Claimable(row)
    ensures Settle(w, row, now, verdict).0 != row <==> Overwrites(w, row, verdict)
  {
  }

  // ---- The whole state ----

  ghost predicate Holds(ws: WorkerState, id: MessageId) {
    ws.Running? && id in ws.queue
  }

  ghost function Holders(s: State, id: MessageId): set<WorkerId> {
    set w | w in s.workers && Holds(s.workers[w], id)
  }

  /** The workers configured for a topic. */
  ghost function Serving(cfg: Config, topic: string): set<WorkerId> {
    set w | w in cfg && topic in Topics(cfg[w].kind)
  }

  ghost predicate WorkerSound(cfg: Config, s: State, w: WorkerId)
    requires w in cfg && w in s.workers
  {
    var ws := s.workers[w];
    && (ws.Started? ==> ws.now <= s.clock)
    && (ws.Running? ==>
      && ws.now <= s.clock
      && NoDuplicates(ws.queue)
      && (forall id :: id in ws.queue ==> id in s.rows && s.rows[id].topic in Topics(cfg[w].kind))
      && ws.claimed == Total(ws.result) + |ws.queue|
      && (!ws.phase.Ready? ==> ws.queue != []))
  }

  ghost predicate Sound(cfg: Config, s: State) {
    && s.workers.Keys == cfg.Keys
    && (forall w :: w in cfg ==> WorkerSound(cfg, s, w))
    && AllShaped(s.rows)
  }

  /** `limit` bounds the attempts each worker of the topic allows. */
  ghost predicate Limit(cfg: Config, topic: string, limit: int) {
    limit >= 1 && forall w :: w in Serving(cfg, topic) ==> cfg[w].maxAttempts <= limit
  }

  /** Attempts beyond the limit are paid for by workers that gave their claim back. */
  ghost predicate Charged(cfg: Config, s: State, id: MessageId, limit: int)
    requires id in s.rows
  {
    && HasAttemptsLeft(s.rows[id], limit)
    && (s.rows[id].attemptCount < limit ||
        s.rows[id].attemptCount + |Holders(s, id)| <= limit - 1 + |Serving(cfg, s.rows[id].topic)|)
  }

  ghost predicate AllCharged(cfg: Config, s: State, topic: string, limit: int) {
    forall id :: id in s.rows && s.rows[id].topic == topic ==> Charged(cfg, s, id, limit)
  }

  ghost predicate TableLater(a: Table, b: Table) {
    forall id :: id in a ==> id in b && Later(a[id], b[id])
  }

  // ---- Effect of one step on the table ----

  lemma PutLater(rows: Table, id: MessageId, row: Row)
    requires AllShaped(rows) && id in rows && Later(rows[id], row) && Shaped(row)
    ensures TableLater(rows, rows[id := row]) && AllShaped(rows[id := row])
  {
  }

  lemma LeasedLater(rows: Table, ids: seq<MessageId>, until: int)
    requires AllShaped(rows) && forall id :: id in ids ==> id in rows && Claimable(rows[id])
    ensures TableLater(rows, ClaimRows(rows, ids, until)) && AllShaped(ClaimRows(rows, ids, until))
  {
  }

  lemma ClaimTable(rows: Table, w: Worker, now: int, locked: set<MessageId>)
    requires AllShaped(rows)
    ensures var ids := ClaimIds(rows, w, now, locked);
      && TableLater(rows, ClaimRows(rows, ids, LeaseEnd(w, now)))
      && AllShaped(ClaimRows(rows, ids, LeaseEnd(w, now)))
  {
    ClaimIdsSound(rows, w, now, locked);
    LeasedLater(rows, ClaimIds(rows, w, now, locked), LeaseEnd(w, now));
  }

  ghost function Ceiling(w: Worker, row: Row): (limit: int)
    requires ValidLimit(w.maxAttempts)
    ensures limit >= w.maxAttempts && limit > row.attemptCount
  {
    if row.attemptCount >= w.maxAttempts then row.attemptCount + 1 else w.maxAttempts
  }

  lemma SettleTable(rows: Table, w: Worker, id: MessageId, now: int, verdict: Verdict)
    requires AllShaped(rows) && id in rows && ValidLimit(w.maxAttempts)
    ensures var row := Settle(w, rows[id], now, verdict).0;
      TableLater(rows, rows[id := row]) && AllShaped(rows[id := row])
  {
    SettleRow(w, rows[id], now, verdict, Ceiling(w, rows[id]));
    PutLater(rows, id, Settle(w, rows[id], now, verdict).0);
  }

  lemma StepTable(cfg: Config, s: State, step: Step)
    requires ValidConfig(cfg) && Sound(cfg, s) && Enabled(cfg, s, step)
    ensures TableLater(s.rows, Next(cfg, s, step).rows)
    ensures AllShaped(Next(cfg, s, step).rows)
  {
    match step
    case Claim(w, locked) => ClaimTable(s.rows, cfg[w], s.workers[w].now, locked);
    case Finish(w) => SettleTable(s.rows, cfg[w], Head(s, w), s.workers[w].now, s.workers[w].phase.verdict);
    case _ =>
  }

  /** Workers never add or remove a message. */
  lemma StepKeys(cfg: Config, s: State, step: Step)
    requires ValidConfig(cfg) && Enabled(cfg, s, step) && !step.Insert?
    ensures Next(cfg, s, step).rows.Keys == s.rows.Keys
  {
  }

  /** Workers that take no part in a step stay sound while rows only get later. */
  lemma BystanderSound(cfg: Config, s: State, s': State, v: WorkerId)
    requires v in cfg && v in s.workers && v in s'.workers && s'.workers[v] == s.workers[v]
    requires WorkerSound(cfg, s, v) && s.clock <= s'.clock && TableLater(s.rows, s'.rows)
    ensures WorkerSound(cfg, s', v)
  {
  }

  /** The acting worker after a claim. */
  lemma ClaimerSound(cfg: Config, s: State, w: WorkerId, locked: set<MessageId>)
    requires Sound(cfg, s) && w in cfg && s.workers[w].Started?
    ensures WorkerSound(cfg, ClaimBatch(cfg, s, w, locked), w)
  {
    assert WorkerSound(cfg, s, w);
    ClaimIdsSound(s.rows, cfg[w], s.workers[w].now, locked);
  }

  /** A worker that has counted the first row of its queue and moves on. */
  lemma AdvancedSound(cfg: Config, s: State, s': State, w: WorkerId)
    requires w in cfg && Busy(s, w) && WorkerSound(cfg, s, w)
    requires s'.clock == s.clock && TableLater(s.rows, s'.rows) && w in s'.workers
    requires var ws, ws' := s.workers[w], s'.workers[w];
      ws'.Running? && ws'.phase.Ready? && ws'.now == ws.now && ws'.queue == ws.queue[1..]
      && ws'.claimed == ws.claimed && Total(ws'.result) == Total(ws.result) + 1
    ensures WorkerSound(cfg, s', w)
  {
    var queue := s.workers[w].queue;
    assert queue == [queue[0]] + queue[1..];
  }

  lemma CountOne(result: RunResult, report: Report)
    ensures Total(Merge(result, One(report))) == Total(result) + 1
  {
  }

  lemma SettlerSound(cfg: Config, s: State, w: WorkerId)
    requires ValidConfig(cfg) && Sound(cfg, s) && w in cfg
    requires Busy(s, w) && Head(s, w) in s.rows && s.workers[w].phase.Decided?
    ensures WorkerSound(cfg, SettleHead(cfg, s, w), w)
  {
    var ws := s.workers[w];
    SettleTable(s.rows, cfg[w], Head(s, w), ws.now, ws.phase.verdict);
    CountOne(ws.result, Settle(cfg[w], s.rows[Head(s, w)], ws.now, ws.phase.verdict).1);
    AdvancedSound(cfg, s, SettleHead(cfg, s, w), w);
  }

  ghost predicate Acts(step: Step, w: WorkerId) {
    match step
    case Tick(_) => false
    case Insert(_, _) => false
    case _ => step.w == w
  }

  lemma StepFrame(cfg: Config, s: State, step: Step)
    requires ValidConfig(cfg) && s.workers.Keys == cfg.Keys && Enabled(cfg, s, step)
    ensures var s' := Next(cfg, s, step);
      && s'.workers.Keys == cfg.Keys && s.clock <= s'.clock
      && forall v :: v in cfg && !Acts(step, v) ==> s'.workers[v] == s.workers[v]
  {
  }

  lemma ActorSound(cfg: Config, s: State, step: Step, w: WorkerId)
    requires ValidConfig(cfg) && Sound(cfg, s) && Enabled(cfg, s, step) && w in cfg && Acts(step, w)
    ensures w in Next(cfg, s, step).workers && WorkerSound(cfg, Next(cfg, s, step), w)
  {
    assert WorkerSound(cfg, s, w);
    match step
    case Claim(_, locked) => ClaimerSound(cfg, s, w, locked);
    case Finish(_) => SettlerSound(cfg, s, w);
    case _ =>
  }

  lemma StepSound(cfg: Config, s: State, step: Step)
    requires ValidConfig(cfg) && Sound(cfg, s) && Enabled(cfg, s, step)
    ensures Sound(cfg, Next(cfg, s, step))
  {
    StepTable(cfg, s, step);
    StepFrame(cfg, s, step);
    forall v | v in cfg ensures WorkerSound(cfg, Next(cfg, s, step), v) {
      if Acts(step, v) {
        ActorSound(cfg, s, step, v);
      } else {
        BystanderSound(cfg, s, Next(cfg, s, step), v);
      }
    }
  }

  lemma {:induction false} RunSound(cfg: Config, steps: seq<Step>)
    requires ValidConfig(cfg) && ValidRun(cfg, steps)
    ensures Sound(cfg, Final(cfg, steps))
    decreases |steps|
  {
    if steps != [] {
      RunSound(cfg, steps[..|steps| - 1]);
      StepSound(cfg, Final(cfg, steps[..|steps| - 1]), steps[|steps| - 1]);
    }
  }

  /** The counters of a run, and the rows it still holds, add up to the rows it claimed. */
  lemma {:induction false} CountersAddUp(cfg: Config, steps: seq<Step>, w: WorkerId)
    requires ValidConfig(cfg) && ValidRun(cfg, steps) && w in cfg
    requires w in Final(cfg, steps).workers && Final(cfg, steps).workers[w].Running?
    ensures var ws := Final(cfg, steps).workers[w]; ws.claimed == Total(ws.result) + |ws.queue|
  {
    RunSound(cfg, steps);
    assert WorkerSound(cfg, Final(cfg, steps), w);
  }

  // ---- PUBLISHED is final, in every run ----

  lemma {:induction false} ExtendRun(cfg: Config, run: seq<Step>, step: Step)
    requires ValidConfig(cfg) && ValidRun(cfg, run) && Enabled(cfg, Final(cfg, run), step)
    ensures ValidRun(cfg, run + [step]) && Final(cfg, run + [step]) == Next(cfg, Final(cfg, run), step)
  {
    assert (run + [step])[..|run|] == run;
  }

  lemma {:induction false} PrefixValid(cfg: Config, steps: seq<Step>, i: nat)
    requires ValidConfig(cfg) && ValidRun(cfg, steps) && i <= |steps|
    ensures ValidRun(cfg, steps[..i])
    decreases |steps|
  {
    if i < |steps| {
      PrefixValid(cfg, steps[..|steps| - 1], i);
      assert steps[..|steps| - 1][..i] == steps[..i];
    } else {
      assert steps[..i] == steps;
    }
  }

  /** Between any two moments of a run: same message, no fewer attempts, PUBLISHED rows untouched. */
  lemma {:induction false} RowsOnlyGetLater(cfg: Config, steps: seq<Step>, i: nat)
    requires ValidConfig(cfg) && ValidRun(cfg, steps) && i <= |steps| && ValidRun(cfg, steps[..i])
    ensures TableLater(Final(cfg, steps[..i]).rows, Final(cfg, steps).rows)
    decreases |steps|
  {
    if i == |steps| {
      assert steps[..i] == steps;
    } else {
      var before := steps[..|steps| - 1];
      assert before[..i] == steps[..i];
      RowsOnlyGetLater(cfg, before, i);
      RunSound(cfg, before);
      StepTable(cfg, Final(cfg, before), steps[|steps| - 1]);
    }
  }

  /** Step `i` of the run is the one that publishes the message. */
  ghost predicate PublishesAt(cfg: Config, steps: seq<Step>, i: nat, id: MessageId)
    requires ValidConfig(cfg) && i < |steps| && ValidRun(cfg, steps[..i]) && ValidRun(cfg, steps[..i + 1])
  {
    var a, b := Final(cfg, steps[..i]).rows, Final(cfg, steps[..i + 1]).rows;
    id in b && b[id].status == Published && (id in a ==> a[id].status != Published)
  }

  /** A message is published at most once. */
  lemma {:induction false} PublishedAtMostOnce(cfg: Config, steps: seq<Step>, i: nat, j: nat, id: MessageId)
    requires ValidConfig(cfg) && i < j < |steps|
    requires ValidRun(cfg, steps[..i]) && ValidRun(cfg, steps[..i + 1])
    requires ValidRun(cfg, steps[..j]) && ValidRun(cfg, steps[..j + 1])
    ensures !(PublishesAt(cfg, steps, i, id) && PublishesAt(cfg, steps, j, id))
  {
    assert steps[..j][..i + 1] == steps[..i + 1];
    RowsOnlyGetLater(cfg, steps[..j], i + 1);
  }

  // ---- The bound on attempts ----

  lemma HoldersServe(cfg: Config, s: State, id: MessageId)
    requires Sound(cfg, s) && id in s.rows
    ensures Holders(s, id) <= Serving(cfg, s.rows[id].topic)
    ensures |Holders(s, id)| <= |Serving(cfg, s.rows[id].topic)|
  {
    forall w | w in Holders(s, id) ensures w in Serving(cfg, s.rows[id].topic) {
      assert WorkerSound(cfg, s, w);
    }
    SubsetSize(Holders(s, id), Serving(cfg, s.rows[id].topic));
  }

  lemma {:induction false} SubsetSize<T>(a: set<T>, b: set<T>)
    requires a <= b
    ensures |a| <= |b|
    decreases |a|
  {
    if a != {} {
      var x :| x in a;
      SubsetSize(a - {x}, b - {x});
    }
  }

  /** Steps that change neither the row nor who holds it. */
  lemma SameCharge(cfg: Config, s: State, s': State, id: MessageId, limit: int)
    requires id in s.rows && id in s'.rows && s'.rows[id] == s.rows[id] && Charged(cfg, s, id, limit)
    requires Holders(s', id) <= Holders(s, id)
    ensures Charged(cfg, s', id, limit)
  {
    SubsetSize(Holders(s', id), Holders(s, id));
  }

  lemma ClaimCharged(cfg: Config, s: State, w: WorkerId, locked: set<MessageId>, id: MessageId, limit: int)
    requires Sound(cfg, s) && w in cfg && s.workers[w].Started?
    requires id in s.rows && Charged(cfg, s, id, limit)
    ensures Charged(cfg, ClaimBatch(cfg, s, w, locked), id, limit)
  {
    var s' := ClaimBatch(cfg, s, w, locked);
    ClaimIdsSound(s.rows, cfg[w], s.workers[w].now, locked);
    if id !in s'.workers[w].queue {
      SameCharge(cfg, s, s', id, limit);
    }
  }

  lemma FinishCharged(cfg: Config, s: State, w: WorkerId, id: MessageId, limit: int)
    requires ValidConfig(cfg) && Sound(cfg, s) && w in cfg
    requires Busy(s, w) && Head(s, w) in s.rows && s.workers[w].phase.Decided?
    requires id in s.rows && Limit(cfg, s.rows[id].topic, limit) && Charged(cfg, s, id, limit)
    ensures var s' := SettleHead(cfg, s, w); id in s'.rows && Charged(cfg, s', id, limit)
  {
    var ws, s' := s.workers[w], SettleHead(cfg, s, w);
    assert WorkerSound(cfg, s, w);
    assert ws.queue == [ws.queue[0]] + ws.queue[1..];
    if id == ws.queue[0] {
      SettleRow(cfg[w], s.rows[id], ws.now, ws.phase.verdict, limit);
      assert Holders(s', id) == Holders(s, id) - {w} && w in Holders(s, id);
      HoldersServe(cfg, s, id);
    } else {
      SameCharge(cfg, s, s', id, limit);
    }
  }

  /** Only a claim and a settlement touch a row or its holders; a crash gives rows back. */
  lemma OtherCharged(cfg: Config, s: State, step: Step, id: MessageId, limit: int)
    requires ValidConfig(cfg) && Enabled(cfg, s, step) && !step.Claim? && !step.Finish?
    requires id in s.rows && Charged(cfg, s, id, limit)
    ensures id in Next(cfg, s, step).rows && Charged(cfg, Next(cfg, s, step), id, limit)
  {
    SameCharge(cfg, s, Next(cfg, s, step), id, limit);
  }

  lemma RowCharged(cfg: Config, s: State, step: Step, id: MessageId, limit: int)
    requires ValidConfig(cfg) && Sound(cfg, s) && Enabled(cfg, s, step)
    requires id in s.rows && Limit(cfg, s.rows[id].topic, limit) && Charged(cfg, s, id, limit)
    ensures id in Next(cfg, s, step).rows && Charged(cfg, Next(cfg, s, step), id, limit)
  {
    match step
    case Claim(w, locked) => ClaimCharged(cfg, s, w, locked, id, limit);
    case Finish(w) => FinishCharged(cfg, s, w, id, limit);
    case _ => OtherCharged(cfg, s, step, id, limit);
  }

  lemma NewRowCharged(cfg: Config, s: State, step: Step, id: MessageId, limit: int)
    requires ValidConfig(cfg) && Enabled(cfg, s, step) && limit >= 1
    requires id !in s.rows && id in Next(cfg, s, step).rows
    ensures Charged(cfg, Next(cfg, s, step), id, limit)
  {
  }

  lemma StepCharged(cfg: Config, s: State, step: Step, topic: string, limit: int)
    requires ValidConfig(cfg) && Sound(cfg, s) && Enabled(cfg, s, step)
    requires Limit(cfg, topic, limit) && AllCharged(cfg, s, topic, limit)
    ensures AllCharged(cfg, Next(cfg, s, step), topic, limit)
  {
    var s' := Next(cfg, s, step);
    StepTable(cfg, s, step);
    forall id | id in s'.rows && s'.rows[id].topic == topic ensures Charged(cfg, s', id, limit) {
      if id in s.rows {
        RowCharged(cfg, s, step, id, limit);
      } else {
        NewRowCharged(cfg, s, step, id, limit);
      }
    }
  }

  lemma {:induction false} RunCharged(cfg: Config, steps: seq<Step>, topic: string, limit: int)
    requires ValidConfig(cfg) && ValidRun(cfg, steps) && Limit(cfg, topic, limit)
    ensures AllCharged(cfg, Final(cfg, steps), topic, limit)
    decreases |steps|
  {
    if steps != [] {
      var before := steps[..|steps| - 1];
      RunCharged(cfg, before, topic, limit);
      RunSound(cfg, before);
      StepCharged(cfg, Final(cfg, before), steps[|steps| - 1], topic, limit);
    }
  }

  /**
   * With W workers for the topic, whose limits are at most `limit`, no run brings a message past
   * limit - 1 + W attempts, and a message that may be claimed has fewer than `limit`.
   */
  lemma {:induction false} AttemptsBounded(cfg: Config, steps: seq<Step>, id: MessageId, limit: int)
    requires ValidConfig(cfg) && ValidRun(cfg, steps) && id in Final(cfg, steps).rows
    requires Limit(cfg, Final(cfg, steps).rows[id].topic, limit)
    requires Serving(cfg, Final(cfg, steps).rows[id].topic) != {}
    ensures var row := Final(cfg, steps).rows[id];
      && row.attemptCount <= limit - 1 + |Serving(cfg, row.topic)|
      && (Claimable(row) ==> row.attemptCount < limit)
  {
    RunCharged(cfg, steps, Final(cfg, steps).rows[id].topic, limit);
    assert Charged(cfg, Final(cfg, steps), id, limit);
  }

  /** published_at, next_attempt_at and the attempt count always fit the status. */
  lemma {:induction false} RowsShaped(cfg: Config, steps: seq<Step>, id: MessageId)
    requires ValidConfig(cfg) && ValidRun(cfg, steps) && id in Final(cfg, steps).rows
    ensures Shaped(Final(cfg, steps).rows[id])
  {
    RunSound(cfg, steps);
  }
}
