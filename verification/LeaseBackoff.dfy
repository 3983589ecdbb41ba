/** The waits after failed attempts, over runs: what is written after a failure, and who keeps to it. */
module LeaseBackoff {
  import opened Common
  import opened RetryPolicy
  import opened Outbox
  import opened WorkerOutcomes
  import opened ClaimRounds
  import opened LeaseProtocol
  import opened LeaseInvariants
  import opened LeaseDelivery

  // ---- From the answer to the settlement ----

  /** The step is one of this worker's. */
  ghost predicate IsBy(step: Step, w: WorkerId) {
    !step.Tick? && !step.Insert? && step.w == w
  }

  /** The worker's last step so far was to get this answer. */
  ghost predicate JustAnswered(steps: seq<Step>, w: WorkerId, answer: Answer) {
    steps != [] && (
      var step := steps[|steps| - 1];
      if IsBy(step, w) then step == Step.Answer(w, answer) else JustAnswered(steps[..|steps| - 1], w, answer))
  }

  lemma OthersLeaveIt(cfg: Config, s: State, step: Step, w: WorkerId)
    requires ValidConfig(cfg) && Enabled(cfg, s, step) && !IsBy(step, w) && w in s.workers
    ensures w in Next(cfg, s, step).workers && Next(cfg, s, step).workers[w] == s.workers[w]
  {
  }

  /** The worker holds the verdict its answer calls for, until it acts again. */
  lemma {:induction false} AnswerIsKept(cfg: Config, steps: seq<Step>, w: WorkerId, answer: Answer)
    requires ValidConfig(cfg) && ValidRun(cfg, steps) && JustAnswered(steps, w, answer)
    ensures var s := Final(cfg, steps);
      w in cfg && Busy(s, w) && s.workers[w].phase == Decided(VerdictOf(cfg[w], answer), Accepted(cfg[w], answer))
    decreases |steps|
  {
    var before, step := steps[..|steps| - 1], steps[|steps| - 1];
    if !IsBy(step, w) {
      AnswerIsKept(cfg, before, w, answer);
      OthersLeaveIt(cfg, Final(cfg, before), step, w);
    }
  }

  lemma FailureVerdict(w: Worker, row: Row, now: int, answer: Answer)
    requires ValidLimit(w.maxAttempts) && row.attemptCount >= 0 && row.status != Published && Fails(w.kind, answer)
    ensures Settle(w, row, now, VerdictOf(w, answer)).0 ==
      FailedAgain(row, now, w.maxAttempts, FailureCode(w.kind, answer))
  {
    BackoffDecided(row, now, w.maxAttempts, FailureCode(w.kind, answer));
  }

  /**
   * In every run, whatever others did in between: a worker whose effect has failed settles the
   * row, unless it was published meanwhile, with one attempt more, the failure's code, and
   * min(30 * 2^k, 3600) seconds to wait, counted from the start of its run.
   */
  lemma {:induction false} FailureSettles(cfg: Config, steps: seq<Step>, w: WorkerId, answer: Answer)
    requires ValidConfig(cfg) && ValidRun(cfg, steps) && JustAnswered(steps, w, answer)
    requires w in cfg && Fails(cfg[w].kind, answer) && Enabled(cfg, Final(cfg, steps), Step.Finish(w))
    ensures var s := Final(cfg, steps);
      var id, now, row := Head(s, w), s.workers[w].now, s.rows[Head(s, w)];
      && row.attemptCount >= 0
      && Next(cfg, s, Step.Finish(w)).rows ==
         s.rows[id := if row.status == Published then row
                      else FailedAgain(row, now, cfg[w].maxAttempts, FailureCode(cfg[w].kind, answer))]
  {
    var s := Final(cfg, steps);
    RunSound(cfg, steps);
    AnswerIsKept(cfg, steps, w, answer);
    var row := s.rows[Head(s, w)];
    assert Shaped(row);
    if row.status != Published {
      FailureVerdict(cfg[w], row, s.workers[w].now, answer);
    }
  }

  // ---- Nobody claims a message before its time ----

  lemma {:induction false} ClaimedRow(s: State, w: Worker, now: int, locked: set<MessageId>, id: MessageId)
    requires id in ClaimIds(s.rows, w, now, locked)
    ensures id in s.rows && id !in locked && OwnTopic(w.kind, s.rows[id].topic)
    ensures s.rows[id].status == Pending || s.rows[id].status == Retry
    ensures s.rows[id].nextAttemptAt.Some? ==> s.rows[id].nextAttemptAt.value <= now
    ensures ClaimRows(s.rows, ClaimIds(s.rows, w, now, locked), LeaseEnd(w, now))[id] ==
      s.rows[id].(status := Retry, nextAttemptAt := Some(now + w.leaseSeconds * 1_000_000))
  {
    ClaimIdsSound(s.rows, w, now, locked);
  }

  /** In every run a claim takes open messages of its topics, whose time has come. */
  lemma {:induction false} ClaimsWait(cfg: Config, steps: seq<Step>, w: WorkerId, locked: set<MessageId>, id: MessageId)
    requires ValidConfig(cfg) && ValidRun(cfg, steps) && Enabled(cfg, Final(cfg, steps), Step.Claim(w, locked))
    requires id in ClaimIds(Final(cfg, steps).rows, cfg[w], Final(cfg, steps).workers[w].now, locked)
    ensures var s := Final(cfg, steps);
      && id in s.rows && id !in locked && OwnTopic(cfg[w].kind, s.rows[id].topic)
      && s.workers[w].now <= s.clock
      && (s.rows[id].status == Pending || s.rows[id].status == Retry)
      && (s.rows[id].nextAttemptAt.Some? ==> s.rows[id].nextAttemptAt.value <= s.workers[w].now)
      && Next(cfg, s, Step.Claim(w, locked)).rows[id] ==
         s.rows[id].(status := Retry,
                     nextAttemptAt := Some(s.workers[w].now + cfg[w].leaseSeconds * 1_000_000))
  {
    var s := Final(cfg, steps);
    RunSound(cfg, steps);
    assert WorkerSound(cfg, s, w);
    ClaimedRow(s, cfg[w], s.workers[w].now, locked, id);
  }

  /** The message waits for this time, and no lease on it is running. */
  ghost predicate Waits(cfg: Config, s: State, id: MessageId, row: Row, until: int) {
    && id in s.rows && s.rows[id] == row && row.nextAttemptAt == Some(until)
    && forall w :: w in cfg ==> !Live(cfg, s, w, id)
  }

  lemma ClaimWaits(cfg: Config, s: State, w: WorkerId, locked: set<MessageId>, id: MessageId, row: Row, until: int)
    requires Sound(cfg, s) && w in cfg && s.workers[w].Started? && Waits(cfg, s, id, row, until) && s.clock < until
    ensures Waits(cfg, ClaimBatch(cfg, s, w, locked), id, row, until)
  {
    assert WorkerSound(cfg, s, w);
    ClaimIdsSound(s.rows, cfg[w], s.workers[w].now, locked);
    var s' := ClaimBatch(cfg, s, w, locked);
    forall v | v in cfg ensures !Live(cfg, s', v, id) {
      assert !Live(cfg, s, v, id);
    }
  }

  lemma FinishWaits(cfg: Config, s: State, w: WorkerId, id: MessageId, row: Row, until: int)
    requires ValidConfig(cfg) && w in cfg && Busy(s, w) && Head(s, w) in s.rows && s.workers[w].phase.Decided?
    requires Punctual(cfg, s, Step.Finish(w)) && Waits(cfg, s, id, row, until)
    ensures Waits(cfg, SettleHead(cfg, s, w), id, row, until)
  {
    assert Head(s, w) in s.workers[w].queue;
    assert Live(cfg, s, w, Head(s, w));
    var s' := SettleHead(cfg, s, w);
    forall v | v in cfg ensures !Live(cfg, s', v, id) {
      assert !Live(cfg, s, v, id);
    }
  }

  lemma StepWaits(cfg: Config, s: State, step: Step, id: MessageId, row: Row, until: int)
    requires ValidConfig(cfg) && Sound(cfg, s) && Enabled(cfg, s, step) && Punctual(cfg, s, step)
    requires Waits(cfg, s, id, row, until) && Next(cfg, s, step).clock < until
    ensures Waits(cfg, Next(cfg, s, step), id, row, until)
  {
    match step
    case Claim(w, locked) => ClaimWaits(cfg, s, w, locked, id, row, until);
    case Finish(w) => FinishWaits(cfg, s, w, id, row, until);
    case _ =>
      forall v | v in cfg ensures !Live(cfg, Next(cfg, s, step), v, id) {
        assert !Live(cfg, s, v, id);
      }
  }

  lemma ClockOnlyAdvances(cfg: Config, s: State, step: Step)
    requires ValidConfig(cfg) && Enabled(cfg, s, step)
    ensures s.clock <= Next(cfg, s, step).clock
  {
  }

  lemma {:induction false} RunWaits(cfg: Config, steps: seq<Step>, i: nat, id: MessageId, row: Row, until: int)
    requires ValidConfig(cfg) && ValidRun(cfg, steps) && PunctualRun(cfg, steps)
    requires i <= |steps| && ValidRun(cfg, steps[..i]) && Waits(cfg, Final(cfg, steps[..i]), id, row, until)
    requires Final(cfg, steps).clock < until
    ensures Waits(cfg, Final(cfg, steps), id, row, until)
    decreases |steps|
  {
    if i == |steps| {
      assert steps[..i] == steps;
    } else {
      var before, step := steps[..|steps| - 1], steps[|steps| - 1];
      assert before[..i] == steps[..i];
      ClockOnlyAdvances(cfg, Final(cfg, before), step);
      RunWaits(cfg, before, i, id, row, until);
      RunSound(cfg, before);
      StepWaits(cfg, Final(cfg, before), step, id, row, until);
    }
  }

  /** A punctual worker that gives a row back leaves no running lease on it. */
  lemma GivenBack(cfg: Config, s: State, w: WorkerId)
    requires ValidConfig(cfg) && Sound(cfg, s) && Exclusive(cfg, s) && Enabled(cfg, s, Step.Finish(w))
    requires Punctual(cfg, s, Step.Finish(w))
    ensures s.rows[Head(s, w)].status == Retry
    ensures forall v :: v in cfg ==> !Live(cfg, SettleHead(cfg, s, w), v, Head(s, w))
  {
    var id, s' := Head(s, w), SettleHead(cfg, s, w);
    var queue := s.workers[w].queue;
    assert queue == [id] + queue[1..] && WorkerSound(cfg, s, w);
    assert Live(cfg, s, w, id) && HolderMarked(cfg, s, w, id);
    forall v | v in cfg ensures !Live(cfg, s', v, id) {
      if v != w && Live(cfg, s', v, id) {
        assert Live(cfg, s, v, id);
      }
    }
  }

  /**
   * With punctual workers a failed message rests: from the settlement of the failure until its
   * time has come, it stays exactly as that settlement left it, and nobody claims it.
   */
  lemma {:induction false} PunctualBackoff(cfg: Config, steps: seq<Step>, i: nat, w: WorkerId, answer: Answer)
    requires ValidConfig(cfg) && ValidRun(cfg, steps) && PunctualRun(cfg, steps) && i < |steps|
    requires ValidRun(cfg, steps[..i]) && PunctualRun(cfg, steps[..i])
    requires steps[i] == Step.Finish(w) && Enabled(cfg, Final(cfg, steps[..i]), steps[i])
    requires Punctual(cfg, Final(cfg, steps[..i]), steps[i])
    requires w in cfg && JustAnswered(steps[..i], w, answer) && Fails(cfg[w].kind, answer)
    requires var s := Final(cfg, steps[..i]);
      var row := s.rows[Head(s, w)];
      && 0 <= row.attemptCount < cfg[w].maxAttempts - 1
      && Final(cfg, steps).clock < s.workers[w].now + BackoffSeconds(row.attemptCount) * 1_000_000
    ensures var s := Final(cfg, steps[..i]);
      var id := Head(s, w);
      && id in Final(cfg, steps).rows
      && Final(cfg, steps).rows[id] ==
         FailedAgain(s.rows[id], s.workers[w].now, cfg[w].maxAttempts, FailureCode(cfg[w].kind, answer))
      && forall v :: v in cfg ==> !Live(cfg, Final(cfg, steps), v, id)
  {
    var before := steps[..i];
    var s := Final(cfg, before);
    RunSound(cfg, before);
    RunExclusive(cfg, before);
    GivenBack(cfg, s, w);
    FailureSettles(cfg, before, w, answer);
    var row' := FailedAgain(s.rows[Head(s, w)], s.workers[w].now, cfg[w].maxAttempts, FailureCode(cfg[w].kind, answer));
    NowWaits(cfg, steps, i, w, row');
    RunWaits(cfg, steps, i + 1, Head(s, w), row', row'.nextAttemptAt.value);
  }

  lemma NowWaits(cfg: Config, steps: seq<Step>, i: nat, w: WorkerId, row: Row)
    requires ValidConfig(cfg) && i < |steps| && ValidRun(cfg, steps[..i])
    requires steps[i] == Step.Finish(w) && Enabled(cfg, Final(cfg, steps[..i]), steps[i])
    requires var s := Final(cfg, steps[..i]);
      && Next(cfg, s, steps[i]).rows == s.rows[Head(s, w) := row] && row.nextAttemptAt.Some?
      && forall v :: v in cfg ==> !Live(cfg, Next(cfg, s, steps[i]), v, Head(s, w))
    ensures ValidRun(cfg, steps[..i + 1])
    ensures Waits(cfg, Final(cfg, steps[..i + 1]), Head(Final(cfg, steps[..i]), w), row, row.nextAttemptAt.value)
  {
    assert steps[..i + 1] == steps[..i] + [steps[i]];
    ExtendRun(cfg, steps[..i], steps[i]);
  }
}
