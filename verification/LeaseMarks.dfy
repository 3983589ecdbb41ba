/** How long a message stays as its writer stored it, and what next_attempt_at says until then. */
module LeaseMarks {
  import opened Uuids
  import opened RetryPolicy
  import opened Outbox
  import opened OtherWriters
  import opened ClaimRounds
  import opened LeaseProtocol
  import opened LeaseInvariants

  /** Rows in the hands of a worker have left PENDING. */
  ghost predicate HeldHaveLeft(s: State) {
    forall w, id :: w in s.workers && Holds(s.workers[w], id) && id in s.rows ==> s.rows[id].status != Pending
  }

  lemma SettlingLeavesPending(w: Worker, row: Row, now: int, verdict: Verdict)
    requires ValidLimit(w.maxAttempts) && row.status != Pending
    ensures Settle(w, row, now, verdict).0.status != Pending
  {
  }

  /** This step claims the message. */
  ghost predicate Claims(cfg: Config, s: State, step: Step, id: MessageId) {
    step.Claim? && step.w in cfg && step.w in s.workers && s.workers[step.w].Started?
    && id in ClaimIds(s.rows, cfg[step.w], s.workers[step.w].now, step.locked)
  }

  lemma ClaimMoves(cfg: Config, s: State, w: WorkerId, locked: set<MessageId>, id: MessageId)
    requires w in cfg && w in s.workers && s.workers[w].Started? && id in s.rows
    ensures var s' := ClaimBatch(cfg, s, w, locked);
      && id in s'.rows
      && (if Claims(cfg, s, Step.Claim(w, locked), id) then s'.rows[id].status == Retry
          else s'.rows[id] == s.rows[id])
  {
    ClaimIdsSound(s.rows, cfg[w], s.workers[w].now, locked);
  }

  lemma FinishMoves(cfg: Config, s: State, w: WorkerId, id: MessageId)
    requires ValidConfig(cfg) && Sound(cfg, s) && HeldHaveLeft(s) && w in cfg && id in s.rows
    requires Busy(s, w) && Head(s, w) in s.rows && s.workers[w].phase.Decided?
    ensures var s' := SettleHead(cfg, s, w);
      id in s'.rows && if s.rows[id].status == Pending then s'.rows[id] == s.rows[id] else s'.rows[id].status != Pending
  {
    assert Head(s, w) in s.workers[w].queue;
    SettlingLeavesPending(cfg[w], s.rows[Head(s, w)], s.workers[w].now, s.workers[w].phase.verdict);
  }

  /** A PENDING message stays as it is until a claim, and never becomes PENDING again. */
  lemma StepMoves(cfg: Config, s: State, step: Step, id: MessageId)
    requires ValidConfig(cfg) && Sound(cfg, s) && HeldHaveLeft(s) && Enabled(cfg, s, step) && id in s.rows
    ensures id in Next(cfg, s, step).rows
    ensures var row, row' := s.rows[id], Next(cfg, s, step).rows[id];
      && (row.status == Pending && !Claims(cfg, s, step, id) ==> row' == row)
      && (row.status != Pending || Claims(cfg, s, step, id) ==> row'.status != Pending)
  {
    match step
    case Claim(w, locked) => ClaimMoves(cfg, s, w, locked, id);
    case Finish(w) => FinishMoves(cfg, s, w, id);
    case _ =>
  }

  lemma ClaimedHaveLeft(cfg: Config, s: State, w: WorkerId, locked: set<MessageId>)
    requires w in cfg && w in s.workers && s.workers[w].Started? && HeldHaveLeft(s)
    ensures HeldHaveLeft(ClaimBatch(cfg, s, w, locked))
  {
    ClaimIdsSound(s.rows, cfg[w], s.workers[w].now, locked);
  }

  lemma SettledHaveLeft(cfg: Config, s: State, w: WorkerId)
    requires ValidConfig(cfg) && Sound(cfg, s) && HeldHaveLeft(s) && w in cfg
    requires Busy(s, w) && Head(s, w) in s.rows && s.workers[w].phase.Decided?
    ensures HeldHaveLeft(SettleHead(cfg, s, w))
  {
    var s' := SettleHead(cfg, s, w);
    forall v, id | v in s'.workers && Holds(s'.workers[v], id) && id in s'.rows ensures s'.rows[id].status != Pending {
      assert Holds(s.workers[v], id);
      FinishMoves(cfg, s, w, id);
    }
  }

  lemma InsertHaveLeft(cfg: Config, s: State, id: MessageId, row: Row)
    requires Sound(cfg, s) && HeldHaveLeft(s) && id !in s.rows
    ensures HeldHaveLeft(s.(rows := s.rows[id := row]))
  {
    forall w | w in s.workers ensures !Holds(s.workers[w], id) {
      assert WorkerSound(cfg, s, w);
    }
  }

  lemma StepHaveLeft(cfg: Config, s: State, step: Step)
    requires ValidConfig(cfg) && Sound(cfg, s) && HeldHaveLeft(s) && Enabled(cfg, s, step)
    ensures HeldHaveLeft(Next(cfg, s, step))
  {
    match step
    case Claim(w, locked) => ClaimedHaveLeft(cfg, s, w, locked);
    case Finish(w) => SettledHaveLeft(cfg, s, w);
    case Insert(id, row) => InsertHaveLeft(cfg, s, id, row);
    case _ =>
  }

  lemma {:induction false} RunHaveLeft(cfg: Config, steps: seq<Step>)
    requires ValidConfig(cfg) && ValidRun(cfg, steps)
    ensures HeldHaveLeft(Final(cfg, steps))
    decreases |steps|
  {
    if steps != [] {
      var before := steps[..|steps| - 1];
      RunHaveLeft(cfg, before);
      RunSound(cfg, before);
      StepHaveLeft(cfg, Final(cfg, before), steps[|steps| - 1]);
    }
  }

  // ---- From insertion to the first claim ----

  /** Some step after the `k`-th claims the message. */
  ghost predicate ClaimedSince(cfg: Config, steps: seq<Step>, k: nat, id: MessageId)
    requires ValidConfig(cfg) && ValidRun(cfg, steps)
    decreases |steps|
  {
    |steps| > k + 1 && (
      var before := steps[..|steps| - 1];
      ClaimedSince(cfg, before, k, id) || Claims(cfg, Final(cfg, before), steps[|steps| - 1], id))
  }

  /** A message is PENDING exactly until its first claim, and until then it is as it was stored. */
  lemma {:induction false} PendingUntilClaimed(cfg: Config, steps: seq<Step>, k: nat)
    requires ValidConfig(cfg) && ValidRun(cfg, steps) && k < |steps| && steps[k].Insert?
    ensures steps[k].id in Final(cfg, steps).rows
    ensures var row := Final(cfg, steps).rows[steps[k].id];
      if ClaimedSince(cfg, steps, k, steps[k].id) then row.status != Pending
      else row == steps[k].row && row.status == Pending
    decreases |steps|
  {
    var before, step := steps[..|steps| - 1], steps[|steps| - 1];
    if k < |steps| - 1 {
      PendingUntilClaimed(cfg, before, k);
      RunSound(cfg, before);
      RunHaveLeft(cfg, before);
      StepMoves(cfg, Final(cfg, before), step, steps[k].id);
    }
  }

  /** next_attempt_at is set iff the row is RETRY. */
  ghost predicate RetryMarked(row: Row) {
    row.nextAttemptAt.Some? <==> row.status == Retry
  }

  /**
   * next_attempt_at is set iff RETRY, in every run, exactly when the message was stored without
   * it or has been claimed since. The export service stores its messages with it.
   */
  lemma {:induction false} RetryMarkExactly(cfg: Config, steps: seq<Step>, k: nat)
    requires ValidConfig(cfg) && ValidRun(cfg, steps) && k < |steps| && steps[k].Insert?
    ensures steps[k].id in Final(cfg, steps).rows
    ensures RetryMarked(Final(cfg, steps).rows[steps[k].id]) <==>
      steps[k].row.nextAttemptAt.None? || ClaimedSince(cfg, steps, k, steps[k].id)
  {
    PendingUntilClaimed(cfg, steps, k);
    RunSound(cfg, steps);
  }

  /** Right after an export both of its messages are PENDING and have next_attempt_at set. */
  lemma {:induction false} ExportsAreMarked(
    cfg: Config, tenant: Uuid, eventId: Uuid, package: Uuid, manifest: string, archive: string, now: int)
    returns (run: seq<Step>)
    requires ValidConfig(cfg)
    ensures run == [Insert(0, ExportMessage(tenant, eventId, package, manifest, archive, now)),
                    Insert(1, ExportMailMessage(tenant, eventId, package, now))]
    ensures ValidRun(cfg, run)
    ensures forall id :: 0 <= id < 2 ==> id in Final(cfg, run).rows && !RetryMarked(Final(cfg, run).rows[id])
  {
    var first := Insert(0, ExportMessage(tenant, eventId, package, manifest, archive, now));
    var second := Insert(1, ExportMailMessage(tenant, eventId, package, now));
    assert ValidRun(cfg, []) && Final(cfg, []) == Init(cfg);
    ExtendRun(cfg, [], first);
    assert [] + [first] == [first];
    ExtendRun(cfg, [first], second);
    run := [first] + [second];
  }
}
