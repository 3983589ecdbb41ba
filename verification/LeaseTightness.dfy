/**
 * The bound on the attempts of a message is reached: for any number of workers and any limit
 * there is a run after which an exported message stands at exactly limit - 1 + workers attempts.
 */
module LeaseTightness {
  import opened Uuids
  import opened EventContracts
  import opened RetryPolicy
  import opened Outbox
  import opened OtherWriters
  import opened ClaimRounds
  import opened LeaseProtocol
  import opened LeaseInvariants
  import opened LeaseDelivery

  // ---- Pieces of runs over one exported message ----

  /** A webhook worker that claims and posts. */
  ghost predicate Able(w: Worker) {
    w.kind == Webhook && w.batchSize >= 1 && w.configured && w.secret && ValidLimit(w.maxAttempts)
  }

  ghost predicate IsExport(row: Row) {
    row.topic == WEBHOOK_TOPIC && WebhookAccepts(row.payload)
  }

  ghost predicate OnlyExport(s: State, id: MessageId) {
    s.rows.Keys == {id} && IsExport(s.rows[id])
  }

  ghost predicate Open(s: State, id: MessageId) {
    OnlyExport(s, id) && Due(s.rows[id], Webhook, s.clock)
  }

  ghost predicate Holding(s: State, w: WorkerId, id: MessageId) {
    w in s.workers && s.workers[w].Running? && s.workers[w].queue == [id] && s.workers[w].phase.Ready?
  }

  /** The worker's lease has not run out. */
  ghost predicate InTime(cfg: Config, s: State, w: WorkerId) {
    w in cfg && w in s.workers && s.workers[w].Running? && s.clock < LeaseEnd(cfg[w], s.workers[w].now)
  }

  /** Nothing has been delivered yet. */
  ghost predicate Quiet(s: State) {
    s.delivered == map[] && s.lost == map[] && s.duplicated == map[]
  }

  lemma ClaimSingle(rows: Table, w: Worker, now: int, id: MessageId)
    requires rows.Keys == {id} && Due(rows[id], w.kind, now) && w.batchSize >= 1
    ensures ClaimIds(rows, w, now, {}) == [id]
  {
    var due := DueIds(rows, w.kind, now) - {};
    assert due == {id};
    SortedIdsSound(rows, due);
    var ids := SortedIds(rows, due);
    assert |ids| == 1 && ids[0] in ids;
  }

  ghost function Claimed(cfg: Config, s: State, w: WorkerId, id: MessageId): State
    requires w in cfg && id in s.rows
  {
    s.(rows := s.rows[id := LeaseRow(s.rows[id], LeaseEnd(cfg[w], s.clock))],
       workers := s.workers[w := Running(s.clock, [id], Ready, 1, NOTHING)])
  }

  /** An idle worker starts and claims the one message. */
  lemma {:induction false} ClaimRun(cfg: Config, run: seq<Step>, w: WorkerId, id: MessageId) returns (run': seq<Step>)
    requires ValidConfig(cfg) && ValidRun(cfg, run) && w in cfg && cfg[w].kind == Webhook && cfg[w].batchSize >= 1
    requires w in Final(cfg, run).workers && Final(cfg, run).workers[w].Idle? && Open(Final(cfg, run), id)
    ensures ValidRun(cfg, run') && run <= run' && Final(cfg, run') == Claimed(cfg, Final(cfg, run), w, id)
    ensures PunctualRun(cfg, run) ==> PunctualRun(cfg, run')
  {
    var s := Final(cfg, run);
    ExtendPunctual(cfg, run, Step.Start(w));
    var started := Final(cfg, run + [Step.Start(w)]);
    ExtendPunctual(cfg, run + [Step.Start(w)], Step.Claim(w, {}));
    run' := run + [Step.Start(w)] + [Step.Claim(w, {})];
    ClaimSingle(s.rows, cfg[w], s.clock, id);
    var until := LeaseEnd(cfg[w], s.clock);
    assert ClaimRows(s.rows, [id], until) == s.rows[id := LeaseRow(s.rows[id], until)];
    assert started.workers[w := Running(s.clock, [id], Ready, 1, NOTHING)]
        == s.workers[w := Running(s.clock, [id], Ready, 1, NOTHING)];
  }

  lemma {:induction false} TickRun(cfg: Config, run: seq<Step>, clock: int) returns (run': seq<Step>)
    requires ValidConfig(cfg) && ValidRun(cfg, run)
    ensures ValidRun(cfg, run') && run <= run'
    ensures var s := Final(cfg, run); Final(cfg, run') == s.(clock := if clock >= s.clock then clock else s.clock)
    ensures PunctualRun(cfg, run) ==> PunctualRun(cfg, run')
  {
    var s := Final(cfg, run);
    var step := Tick(if clock >= s.clock then clock else s.clock);
    ExtendPunctual(cfg, run, step);
    run' := run + [step];
  }

  /** What is left to do after a worker that held only this message has settled it. */
  ghost predicate SettledAs(s: State, s': State, w: WorkerId, id: MessageId, row: Row) {
    && s'.rows == map[id := row] && s'.clock == s.clock
    && s'.workers.Keys == s.workers.Keys && w in s'.workers
    && s'.workers[w].Running? && s'.workers[w].queue == []
    && forall v :: v in s.workers && v != w ==> s'.workers[v] == s.workers[v]
  }

  lemma SettlesHead(cfg: Config, s: State, s': State, w: WorkerId, id: MessageId, verdict: Verdict)
    requires w in cfg && ValidLimit(cfg[w].maxAttempts) && OnlyExport(s, id) && Holding(s, w, id)
    requires s'.rows == s.rows && s'.clock == s.clock && exists accepted ::
      s'.workers == s.workers[w := s.workers[w].(phase := Decided(verdict, accepted))]
    ensures Busy(s', w) && Head(s', w) in s'.rows && s'.workers[w].phase.Decided?
    ensures SettledAs(s, SettleHead(cfg, s', w), w, id, Settle(cfg[w], s.rows[id], s.workers[w].now, verdict).0)
  {
    var row := Settle(cfg[w], s.rows[id], s.workers[w].now, verdict).0;
    assert s.rows[id := row] == map[id := row];
  }

  lemma PostsOutside(w: Worker, row: Row)
    requires Able(w) && IsExport(row)
    ensures PlanFor(w, row) == Outside
  {
  }

  /** A worker that holds the message posts it and gets this answer. */
  lemma {:induction false} AnswerRun(cfg: Config, run: seq<Step>, w: WorkerId, id: MessageId, answer: Answer)
    returns (run': seq<Step>)
    requires ValidConfig(cfg) && ValidRun(cfg, run) && w in cfg && Able(cfg[w])
    requires Holding(Final(cfg, run), w, id) && OnlyExport(Final(cfg, run), id) && AnswerPossible(cfg[w], answer)
    ensures ValidRun(cfg, run') && run <= run'
    ensures var s, s' := Final(cfg, run), Final(cfg, run');
      && s'.rows == s.rows && s'.clock == s.clock
      && s'.workers
         == s.workers[w := s.workers[w].(phase := Decided(VerdictOf(cfg[w], answer), Accepted(cfg[w], answer)))]
      && s'.delivered == (if Accepted(cfg[w], answer) then Bump(s.delivered, id) else s.delivered)
      && s'.lost == s.lost && s'.duplicated == s.duplicated
    ensures PunctualRun(cfg, run) && InTime(cfg, Final(cfg, run), w) ==> PunctualRun(cfg, run')
  {
    PostsOutside(cfg[w], Final(cfg, run).rows[id]);
    ExtendPunctual(cfg, run, Step.Read(w));
    var posted := run + [Step.Read(w)];
    ExtendPunctual(cfg, posted, Step.Answer(w, answer));
    run' := posted + [Step.Answer(w, answer)];
  }

  /** The worker settles the row by that answer. */
  lemma {:induction false} PostRun(cfg: Config, run: seq<Step>, w: WorkerId, id: MessageId, answer: Answer)
    returns (run': seq<Step>)
    requires ValidConfig(cfg) && ValidRun(cfg, run) && w in cfg && Able(cfg[w])
    requires Holding(Final(cfg, run), w, id) && OnlyExport(Final(cfg, run), id) && AnswerPossible(cfg[w], answer)
    ensures ValidRun(cfg, run') && run <= run'
    ensures var s := Final(cfg, run);
      SettledAs(s, Final(cfg, run'), w, id, Settle(cfg[w], s.rows[id], s.workers[w].now, VerdictOf(cfg[w], answer)).0)
    ensures var s, s' := Final(cfg, run), Final(cfg, run');
      && s'.delivered == (if Accepted(cfg[w], answer) then Bump(s.delivered, id) else s.delivered)
      && s'.lost == s.lost
    ensures PunctualRun(cfg, run) && InTime(cfg, Final(cfg, run), w) ==> PunctualRun(cfg, run')
  {
    var decided := AnswerRun(cfg, run, w, id, answer);
    SettlesHead(cfg, Final(cfg, run), Final(cfg, decided), w, id, VerdictOf(cfg[w], answer));
    ExtendPunctual(cfg, decided, Step.Finish(w));
    run' := decided + [Step.Finish(w)];
  }

  lemma FailedRow(w: Worker, row: Row, now: int)
    requires Able(w) && row.status != Published
    ensures var row' := Settle(w, row, now, VerdictOf(w, Raised)).0;
      && SameMessage(row, row') && row'.attemptCount == row.attemptCount + 1
      && (if row.attemptCount + 1 < w.maxAttempts then row'.status == Retry && row'.nextAttemptAt.Some?
          else row'.status == Failed)
  {
  }

  /** The post fails once more. */
  lemma {:induction false} FailRun(cfg: Config, run: seq<Step>, w: WorkerId, id: MessageId) returns (run': seq<Step>)
    requires ValidConfig(cfg) && ValidRun(cfg, run) && w in cfg && Able(cfg[w])
    requires Holding(Final(cfg, run), w, id) && OnlyExport(Final(cfg, run), id)
    requires Final(cfg, run).rows[id].status != Published
    ensures ValidRun(cfg, run') && run <= run' && OnlyExport(Final(cfg, run'), id)
    ensures SettledAs(Final(cfg, run), Final(cfg, run'), w, id, Final(cfg, run').rows[id])
    ensures var row, row' := Final(cfg, run).rows[id], Final(cfg, run').rows[id];
      && row'.attemptCount == row.attemptCount + 1
      && (if row.attemptCount + 1 < cfg[w].maxAttempts then row'.status == Retry && row'.nextAttemptAt.Some?
          else row'.status == Failed)
  {
    run' := PostRun(cfg, run, w, id, Raised);
    FailedRow(cfg[w], Final(cfg, run).rows[id], Final(cfg, run).workers[w].now);
  }

  ghost predicate AllIdle(cfg: Config, s: State) {
    s.workers.Keys == cfg.Keys && forall w :: w in cfg ==> s.workers[w].Idle?
  }

  /** The message as the export service stores it, once it is due. */
  lemma {:induction false} StoreExport(cfg: Config, row: Row) returns (run: seq<Step>)
    requires ValidConfig(cfg) && Fresh(row) && IsExport(row)
    ensures ValidRun(cfg, run) && AllIdle(cfg, Final(cfg, run)) && Open(Final(cfg, run), 0)
    ensures Final(cfg, run).rows == map[0 := row] && Quiet(Final(cfg, run)) && PunctualRun(cfg, run)
  {
    assert ValidRun(cfg, []) && Final(cfg, []) == Init(cfg);
    ExtendPunctual(cfg, [], Insert(0, row));
    run := TickRun(cfg, [Insert(0, row)], if row.nextAttemptAt.Some? then row.nextAttemptAt.value else 0);
    assert [] + [Insert(0, row)] == [Insert(0, row)];
  }

  // ---- Failing up to the last attempt ----

  /** The worker's run is over, and the message becomes due again. */
  lemma {:induction false} RestRun(cfg: Config, run: seq<Step>, w: WorkerId, id: MessageId) returns (run': seq<Step>)
    requires ValidConfig(cfg) && ValidRun(cfg, run) && w in cfg && OnlyExport(Final(cfg, run), id)
    requires Final(cfg, run).workers.Keys == cfg.Keys
    requires Final(cfg, run).workers[w].Running? && Final(cfg, run).workers[w].queue == []
    requires forall v :: v in cfg && v != w ==> Final(cfg, run).workers[v].Idle?
    requires Final(cfg, run).rows[id].status == Retry && Final(cfg, run).rows[id].nextAttemptAt.Some?
    ensures ValidRun(cfg, run') && AllIdle(cfg, Final(cfg, run')) && Open(Final(cfg, run'), id)
    ensures Final(cfg, run').rows == Final(cfg, run).rows
  {
    ExtendRun(cfg, run, Step.End(w));
    run' := TickRun(cfg, run + [Step.End(w)], Final(cfg, run).rows[id].nextAttemptAt.value);
  }

  /** One worker on its own takes the message through one failed attempt. */
  lemma {:induction false} FailOnce(cfg: Config, run: seq<Step>, w: WorkerId, id: MessageId) returns (run': seq<Step>)
    requires ValidConfig(cfg) && ValidRun(cfg, run) && w in cfg && Able(cfg[w])
    requires AllIdle(cfg, Final(cfg, run)) && Open(Final(cfg, run), id)
    requires Final(cfg, run).rows[id].attemptCount + 1 < cfg[w].maxAttempts
    ensures ValidRun(cfg, run') && AllIdle(cfg, Final(cfg, run')) && Open(Final(cfg, run'), id)
    ensures Final(cfg, run').rows[id].attemptCount == Final(cfg, run).rows[id].attemptCount + 1
  {
    run' := ClaimRun(cfg, run, w, id);
    run' := FailRun(cfg, run', w, id);
    run' := RestRun(cfg, run', w, id);
  }

  lemma {:induction false} ReachLastAttempt(
    cfg: Config, run: seq<Step>, w: WorkerId, id: MessageId) returns (run': seq<Step>)
    requires ValidConfig(cfg) && ValidRun(cfg, run) && w in cfg && Able(cfg[w])
    requires AllIdle(cfg, Final(cfg, run)) && Open(Final(cfg, run), id)
    requires Final(cfg, run).rows[id].attemptCount <= cfg[w].maxAttempts - 1
    ensures ValidRun(cfg, run') && AllIdle(cfg, Final(cfg, run')) && Open(Final(cfg, run'), id)
    ensures Final(cfg, run').rows[id].attemptCount == cfg[w].maxAttempts - 1
    decreases cfg[w].maxAttempts - Final(cfg, run).rows[id].attemptCount
  {
    run' := run;
    if Final(cfg, run).rows[id].attemptCount < cfg[w].maxAttempts - 1 {
      run' := FailOnce(cfg, run, w, id);
      run' := ReachLastAttempt(cfg, run', w, id);
    }
  }

  // ---- All workers hold the message at once ----

  /** Webhook workers that all allow `limit` attempts. */
  ghost predicate Uniform(cfg: Config, limit: int) {
    cfg.Keys != {} && forall w :: w in cfg ==> Able(cfg[w]) && cfg[w].maxAttempts == limit
  }

  /** The workers outside `todo` hold the message, the others are idle. */
  ghost predicate Gathered(cfg: Config, s: State, todo: set<WorkerId>, id: MessageId) {
    && s.workers.Keys == cfg.Keys
    && forall w :: w in cfg ==> if w in todo then s.workers[w].Idle? else Holding(s, w, id)
  }

  /** One worker more claims the message, after the lease of the one before has run out. */
  lemma {:induction false} GatherOne(cfg: Config, run: seq<Step>, todo: set<WorkerId>, w: WorkerId, id: MessageId)
    returns (run': seq<Step>)
    requires ValidConfig(cfg) && ValidRun(cfg, run) && todo <= cfg.Keys && w in todo && Able(cfg[w])
    requires Gathered(cfg, Final(cfg, run), todo, id) && Open(Final(cfg, run), id)
    ensures ValidRun(cfg, run') && Gathered(cfg, Final(cfg, run'), todo - {w}, id) && Open(Final(cfg, run'), id)
    ensures Final(cfg, run').rows[id].attemptCount == Final(cfg, run).rows[id].attemptCount
  {
    run' := ClaimRun(cfg, run, w, id);
    run' := TickRun(cfg, run', LeaseEnd(cfg[w], Final(cfg, run).clock));
  }

  lemma {:induction false} GatherAll(cfg: Config, run: seq<Step>, limit: int, todo: set<WorkerId>, id: MessageId)
    returns (run': seq<Step>)
    requires Uniform(cfg, limit) && ValidRun(cfg, run) && todo <= cfg.Keys
    requires Gathered(cfg, Final(cfg, run), todo, id) && Open(Final(cfg, run), id)
    ensures ValidRun(cfg, run') && Gathered(cfg, Final(cfg, run'), {}, id) && Open(Final(cfg, run'), id)
    ensures Final(cfg, run').rows[id].attemptCount == Final(cfg, run).rows[id].attemptCount
    decreases |todo|
  {
    run' := run;
    if todo != {} {
      var w :| w in todo;
      run' := GatherOne(cfg, run, todo, w, id);
      run' := GatherAll(cfg, run', limit, todo - {w}, id);
    }
  }

  /** The workers in `todo` still hold the message. */
  ghost predicate Settling(s: State, todo: set<WorkerId>, id: MessageId) {
    forall w :: w in todo ==> Holding(s, w, id)
  }

  lemma {:induction false} FailAll(cfg: Config, run: seq<Step>, limit: int, todo: set<WorkerId>, id: MessageId)
    returns (run': seq<Step>)
    requires Uniform(cfg, limit) && ValidRun(cfg, run) && todo <= cfg.Keys
    requires Settling(Final(cfg, run), todo, id) && OnlyExport(Final(cfg, run), id)
    requires Final(cfg, run).rows[id].status != Published
    ensures ValidRun(cfg, run') && OnlyExport(Final(cfg, run'), id)
    ensures Final(cfg, run').rows[id].attemptCount == Final(cfg, run).rows[id].attemptCount + |todo|
    decreases |todo|
  {
    run' := run;
    if todo != {} {
      var w :| w in todo;
      run' := FailRun(cfg, run, w, id);
      run' := FailAll(cfg, run', limit, todo - {w}, id);
    }
  }

  lemma UniformServes(cfg: Config, limit: int)
    requires Uniform(cfg, limit)
    ensures ValidConfig(cfg) && Serving(cfg, WEBHOOK_TOPIC) == cfg.Keys && Limit(cfg, WEBHOOK_TOPIC, limit)
  {
    var w :| w in cfg;
    assert Able(cfg[w]);
  }

  /** The posts fail up to the last attempt; then all workers hold the message, and all their posts fail. */
  lemma {:induction false} ReachBound(cfg: Config, run: seq<Step>, limit: int, id: MessageId) returns (run': seq<Step>)
    requires Uniform(cfg, limit) && ValidConfig(cfg) && ValidRun(cfg, run)
    requires AllIdle(cfg, Final(cfg, run)) && Open(Final(cfg, run), id) && Final(cfg, run).rows[id].attemptCount == 0
    ensures ValidRun(cfg, run') && OnlyExport(Final(cfg, run'), id)
    ensures Final(cfg, run').rows[id].attemptCount == limit - 1 + |cfg.Keys|
  {
    var w :| w in cfg;
    run' := ReachLastAttempt(cfg, run, w, id);
    run' := GatherAll(cfg, run', limit, cfg.Keys, id);
    run' := FailAll(cfg, run', limit, cfg.Keys, id);
  }

  /**
   * For every number of workers, every limit and every export, `AttemptsBounded` is met with
   * equality.
   */
  lemma {:induction false} AttemptsBoundIsReached(
    cfg: Config, limit: int, row: Row) returns (run: seq<Step>, id: MessageId)
    requires Uniform(cfg, limit) && Fresh(row) && IsExport(row)
    ensures ValidConfig(cfg) && ValidRun(cfg, run) && id in Final(cfg, run).rows
    ensures Final(cfg, run).rows[id].topic == WEBHOOK_TOPIC && Limit(cfg, WEBHOOK_TOPIC, limit)
    ensures Final(cfg, run).rows[id].attemptCount == limit - 1 + |Serving(cfg, WEBHOOK_TOPIC)|
  {
    UniformServes(cfg, limit);
    id := 0;
    run := StoreExport(cfg, row);
    run := ReachBound(cfg, run, limit, id);
  }

  /** Every message the export service stores is such a row. */
  lemma {:induction false} ExportsQualify(
    tenant: Uuid, eventId: Uuid, package: Uuid, manifest: string, archive: string, now: int)
    requires |archive| == 64
    ensures var row := ExportMessage(tenant, eventId, package, manifest, archive, now); Fresh(row) && IsExport(row)
  {
    ExportAccepted(package, manifest, archive);
  }
}
