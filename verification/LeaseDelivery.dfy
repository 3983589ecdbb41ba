/** How often the outside effect of a message happens, and what punctual workers add to that. */
module LeaseDelivery {
  import opened Common
  import opened EventContracts
  import opened RetryPolicy
  import opened Outbox
  import opened ClaimRounds
  import opened LeaseProtocol
  import opened LeaseInvariants

  // ---- Every accepted delivery is accounted for, in every run ----

  ghost predicate AwaitsOn(s: State, w: WorkerId, id: MessageId) {
    Awaits(s, w) && Head(s, w) == id
  }

  ghost function Awaiting(s: State, id: MessageId): set<WorkerId> {
    set w | w in s.workers && AwaitsOn(s, w, id)
  }

  /** When only `w` moves, the number of awaiting workers changes by what `w` does. */
  lemma AwaitingChange(s: State, s': State, w: WorkerId, id: MessageId)
    requires s'.workers.Keys == s.workers.Keys && w in s.workers
    requires forall v :: v in s.workers && v != w ==> s'.workers[v] == s.workers[v]
    ensures |Awaiting(s', id)| + (if AwaitsOn(s, w, id) then 1 else 0)
         == |Awaiting(s, id)| + (if AwaitsOn(s', w, id) then 1 else 0)
  {
    var rest := Awaiting(s, id) - {w};
    assert forall v :: v in s.workers && v != w ==> (AwaitsOn(s', v, id) <==> AwaitsOn(s, v, id));
    assert Awaiting(s, id) == if AwaitsOn(s, w, id) then rest + {w} else rest;
    assert Awaiting(s', id) == if AwaitsOn(s', w, id) then rest + {w} else rest;
  }

  ghost function PublishedCount(rows: Table, id: MessageId): nat {
    if id in rows && rows[id].status == Published then 1 else 0
  }

  ghost predicate Conserved(s: State, id: MessageId) {
    Times(s.delivered, id) + Times(s.effectless, id) ==
      PublishedCount(s.rows, id) + Times(s.lost, id) + |Awaiting(s, id)| + Times(s.duplicated, id)
  }

  /** Retention messages may be published without a deletion; all others need their delivery. */
  ghost predicate NeedsDelivery(s: State, id: MessageId) {
    id in s.rows ==> s.rows[id].topic != RETENTION_TOPIC
  }

  /** Duplicates come after a publication, which itself may be without effect only for retention. */
  ghost predicate Plausible(s: State, id: MessageId) {
    && (Times(s.duplicated, id) > 0 ==> PublishedCount(s.rows, id) == 1)
    && Times(s.effectless, id) <= PublishedCount(s.rows, id)
    && (Times(s.effectless, id) > 0 ==> id in s.rows && s.rows[id].topic == RETENTION_TOPIC)
  }

  ghost predicate AllConserved(s: State) {
    forall id :: Conserved(s, id) && Plausible(s, id)
  }

  /** An accepted effect leads to the verdict to publish; outside retention nothing else does. */
  ghost predicate HonestPhase(w: Worker, phase: Phase) {
    phase.Decided? ==>
      && (phase.accepted ==> phase.verdict == Publish)
      && (w.kind != Retention ==> (phase.verdict == Publish ==> phase.accepted) && phase.verdict != PublishSkipped)
  }

  ghost predicate Honest(cfg: Config, s: State) {
    forall w :: w in cfg && w in s.workers && s.workers[w].Running? ==> HonestPhase(cfg[w], s.workers[w].phase)
  }

  lemma PlanNeverPublishes(w: Worker, row: Row)
    ensures HonestPhase(w, PhaseAfterRead(PlanFor(w, row)))
  {
  }

  lemma AnswerHonest(w: Worker, answer: Answer)
    requires AnswerPossible(w, answer)
    ensures HonestPhase(w, Decided(VerdictOf(w, answer), Accepted(w, answer)))
  {
  }

  lemma KindOfTopic(kind: Kind, topic: string)
    requires topic in Topics(kind)
    ensures kind == Retention <==> topic == RETENTION_TOPIC
  {
  }

  lemma StepHonest(cfg: Config, s: State, step: Step)
    requires ValidConfig(cfg) && s.workers.Keys == cfg.Keys && Honest(cfg, s) && Enabled(cfg, s, step)
    ensures Honest(cfg, Next(cfg, s, step))
  {
    match step
    case Read(w) => PlanNeverPublishes(cfg[w], s.rows[Head(s, w)]);
    case Answer(w, answer) => AnswerHonest(cfg[w], answer);
    case _ =>
  }

  /** Settling a verdict other than publishing leaves the PUBLISHED status as it was. */
  lemma SettleStatus(w: Worker, row: Row, now: int, verdict: Verdict)
    requires ValidLimit(w.maxAttempts)
    ensures var row' := Settle(w, row, now, verdict).0;
      && row'.topic == row.topic
      && (row'.status == Published <==> row.status == Published || verdict == Publish || verdict == PublishSkipped)
  {
  }

  lemma ClaimPublished(rows: Table, w: Worker, now: int, locked: set<MessageId>, id: MessageId)
    ensures PublishedCount(ClaimRows(rows, ClaimIds(rows, w, now, locked), LeaseEnd(w, now)), id)
         == PublishedCount(rows, id)
  {
    ClaimIdsSound(rows, w, now, locked);
  }

  lemma ClaimConserved(cfg: Config, s: State, w: WorkerId, locked: set<MessageId>, id: MessageId)
    requires w in cfg && w in s.workers && s.workers[w].Started? && Conserved(s, id)
    ensures Conserved(ClaimBatch(cfg, s, w, locked), id)
  {
    ClaimPublished(s.rows, cfg[w], s.workers[w].now, locked, id);
    AwaitingChange(s, ClaimBatch(cfg, s, w, locked), w, id);
  }

  lemma AnswerConserved(cfg: Config, s: State, w: WorkerId, answer: Answer, id: MessageId)
    requires ValidConfig(cfg) && Enabled(cfg, s, Step.Answer(w, answer)) && Conserved(s, id)
    ensures Conserved(Next(cfg, s, Step.Answer(w, answer)), id)
  {
    AwaitingChange(s, Next(cfg, s, Step.Answer(w, answer)), w, id);
  }

  lemma FinishConserved(cfg: Config, s: State, w: WorkerId, id: MessageId)
    requires w in cfg && ValidLimit(cfg[w].maxAttempts) && Busy(s, w) && Head(s, w) in s.rows
    requires s.workers[w].phase.Decided? && HonestPhase(cfg[w], s.workers[w].phase)
    requires Conserved(s, id)
    ensures Conserved(SettleHead(cfg, s, w), id)
  {
    var ws := s.workers[w];
    SettleStatus(cfg[w], s.rows[Head(s, w)], ws.now, ws.phase.verdict);
    AwaitingChange(s, SettleHead(cfg, s, w), w, id);
  }

  lemma FinishPlausible(cfg: Config, s: State, w: WorkerId, id: MessageId)
    requires w in cfg && ValidLimit(cfg[w].maxAttempts) && Busy(s, w) && Head(s, w) in s.rows
    requires s.workers[w].phase.Decided? && HonestPhase(cfg[w], s.workers[w].phase)
    requires s.rows[Head(s, w)].topic in Topics(cfg[w].kind) && Plausible(s, id)
    ensures Plausible(SettleHead(cfg, s, w), id)
  {
    var row, ws := s.rows[Head(s, w)], s.workers[w];
    SettleStatus(cfg[w], row, ws.now, ws.phase.verdict);
    KindOfTopic(cfg[w].kind, row.topic);
  }

  lemma ClaimPlausible(cfg: Config, s: State, w: WorkerId, locked: set<MessageId>, id: MessageId)
    requires w in cfg && w in s.workers && s.workers[w].Started? && Plausible(s, id)
    ensures Plausible(ClaimBatch(cfg, s, w, locked), id)
  {
    ClaimPublished(s.rows, cfg[w], s.workers[w].now, locked, id);
  }

  lemma StepPlausible(cfg: Config, s: State, step: Step, id: MessageId)
    requires ValidConfig(cfg) && Sound(cfg, s) && Honest(cfg, s) && Enabled(cfg, s, step) && Plausible(s, id)
    ensures Plausible(Next(cfg, s, step), id)
  {
    match step
    case Claim(w, locked) => ClaimPlausible(cfg, s, w, locked, id);
    case Finish(w) =>
      assert WorkerSound(cfg, s, w) && Head(s, w) in s.workers[w].queue;
      FinishPlausible(cfg, s, w, id);
    case _ =>
  }

  lemma CrashConserved(cfg: Config, s: State, w: WorkerId, id: MessageId)
    requires ValidConfig(cfg) && Enabled(cfg, s, Step.Crash(w)) && Conserved(s, id)
    ensures Conserved(Next(cfg, s, Step.Crash(w)), id)
  {
    AwaitingChange(s, Next(cfg, s, Step.Crash(w)), w, id);
  }

  lemma MoveConserved(cfg: Config, s: State, step: Step, id: MessageId)
    requires ValidConfig(cfg) && Enabled(cfg, s, step) && (step.Start? || step.End? || step.Read?) && Conserved(s, id)
    ensures Conserved(Next(cfg, s, step), id)
  {
    AwaitingChange(s, Next(cfg, s, step), step.w, id);
  }

  lemma StepConserved(cfg: Config, s: State, step: Step, id: MessageId)
    requires ValidConfig(cfg) && s.workers.Keys == cfg.Keys && Honest(cfg, s) && Enabled(cfg, s, step)
    requires Conserved(s, id)
    ensures Conserved(Next(cfg, s, step), id)
  {
    match step
    case Claim(w, locked) => ClaimConserved(cfg, s, w, locked, id);
    case Answer(w, answer) => AnswerConserved(cfg, s, w, answer, id);
    case Crash(w) => CrashConserved(cfg, s, w, id);
    case Finish(w) => FinishConserved(cfg, s, w, id);
    case Tick(_) => assert Awaiting(Next(cfg, s, step), id) == Awaiting(s, id);
    case Insert(_, _) => assert Awaiting(Next(cfg, s, step), id) == Awaiting(s, id);
    case _ => MoveConserved(cfg, s, step, id);
  }

  lemma {:induction false} RunConserved(cfg: Config, steps: seq<Step>)
    requires ValidConfig(cfg) && ValidRun(cfg, steps)
    ensures Honest(cfg, Final(cfg, steps)) && AllConserved(Final(cfg, steps))
    decreases |steps|
  {
    if steps == [] {
      assert forall id :: Awaiting(Init(cfg), id) == {};
    } else {
      var before, step := steps[..|steps| - 1], steps[|steps| - 1];
      var s := Final(cfg, before);
      RunConserved(cfg, before);
      RunSound(cfg, before);
      StepHonest(cfg, s, step);
      forall id ensures Conserved(Next(cfg, s, step), id) && Plausible(Next(cfg, s, step), id) {
        assert Conserved(s, id) && Plausible(s, id);
        StepConserved(cfg, s, step, id);
        StepPlausible(cfg, s, step, id);
      }
    }
  }

  /**
   * In every run, with or without punctual workers: the accepted deliveries of a message are the
   * published one, those whose worker crashed, those not committed yet, and those that came after
   * the message was already published. Only a retention message may be published without one. So
   * PUBLISHED means delivered at least once, or a retention message with nothing to delete.
   */
  lemma {:induction false} DeliveriesAccounted(cfg: Config, steps: seq<Step>, id: MessageId)
    requires ValidConfig(cfg) && ValidRun(cfg, steps)
    ensures var s := Final(cfg, steps);
      && Times(s.delivered, id) + Times(s.effectless, id) ==
           PublishedCount(s.rows, id) + Times(s.lost, id) + |Awaiting(s, id)| + Times(s.duplicated, id)
      && Times(s.effectless, id) <= PublishedCount(s.rows, id)
      && (NeedsDelivery(s, id) ==> Times(s.effectless, id) == 0)
      && (id in s.rows && s.rows[id].status == Published ==>
            Times(s.delivered, id) >= 1 || Times(s.effectless, id) == 1)
  {
    RunConserved(cfg, steps);
    assert Conserved(Final(cfg, steps), id) && Plausible(Final(cfg, steps), id);
  }

  // ---- When exactly a message is delivered once ----

  /** In this step a worker's outside effect for the message is accepted. */
  ghost predicate Delivers(cfg: Config, s: State, step: Step, id: MessageId) {
    step.Answer? && step.w in cfg && Busy(s, step.w) && Head(s, step.w) == id && Accepted(cfg[step.w], step.answer)
  }

  /**
   * A delivery is the first of its message exactly if the message has not been published (other
   * than for want of something to delete), no worker crashed after an acceptance and before its
   * commit, and none stands there now.
   */
  lemma {:induction false} FirstDeliveryExactly(cfg: Config, steps: seq<Step>, step: Step, id: MessageId)
    requires ValidConfig(cfg) && ValidRun(cfg, steps) && Enabled(cfg, Final(cfg, steps), step)
    requires Delivers(cfg, Final(cfg, steps), step, id)
    ensures var s := Final(cfg, steps);
      && Times(Next(cfg, s, step).delivered, id) == Times(s.delivered, id) + 1
      && (NeedsDelivery(s, id) ==>
            (Times(Next(cfg, s, step).delivered, id) == 1 <==>
               PublishedCount(s.rows, id) == 0 && Times(s.lost, id) == 0 && Awaiting(s, id) == {}))
      && (Times(Next(cfg, s, step).delivered, id) == 1 <==>
            && PublishedCount(s.rows, id) == Times(s.effectless, id) && Times(s.duplicated, id) == 0
            && Times(s.lost, id) == 0 && Awaiting(s, id) == {})
  {
    RunConserved(cfg, steps);
    assert Conserved(Final(cfg, steps), id) && Plausible(Final(cfg, steps), id);
  }

  /**
   * "Exactly once per outbox row": a message that was PUBLISHED by a delivery was delivered once
   * exactly if no worker crashed between an acceptance and its commit, none stands there now, and
   * none has committed a further delivery late.
   */
  lemma {:induction false} OnceExactly(cfg: Config, steps: seq<Step>, id: MessageId)
    requires ValidConfig(cfg) && ValidRun(cfg, steps)
    requires PublishedCount(Final(cfg, steps).rows, id) == 1
    requires NeedsDelivery(Final(cfg, steps), id) || Times(Final(cfg, steps).effectless, id) == 0
    ensures var s := Final(cfg, steps);
      Times(s.delivered, id) == 1 <==>
        Times(s.lost, id) == 0 && Awaiting(s, id) == {} && Times(s.duplicated, id) == 0
  {
    DeliveriesAccounted(cfg, steps, id);
  }

  /** Only stored messages are ever delivered. */
  lemma {:induction false} DeliveredAreStored(cfg: Config, steps: seq<Step>, id: MessageId)
    requires ValidConfig(cfg) && ValidRun(cfg, steps) && Times(Final(cfg, steps).delivered, id) > 0
    ensures id in Final(cfg, steps).rows
    decreases |steps|
  {
    if steps != [] {
      var before, step := steps[..|steps| - 1], steps[|steps| - 1];
      var s := Final(cfg, before);
      RunSound(cfg, before);
      StepTable(cfg, s, step);
      if Times(s.delivered, id) > 0 {
        DeliveredAreStored(cfg, before, id);
      } else {
        NewDelivery(cfg, s, step, id);
      }
    }
  }

  lemma NewDelivery(cfg: Config, s: State, step: Step, id: MessageId)
    requires ValidConfig(cfg) && Sound(cfg, s) && Enabled(cfg, s, step)
    requires Times(s.delivered, id) == 0 && Times(Next(cfg, s, step).delivered, id) > 0
    ensures id in s.rows
  {
    assert step.Answer? && Head(s, step.w) == id;
    assert WorkerSound(cfg, s, step.w) && id in s.workers[step.w].queue;
  }

  // ---- Punctual workers ----

  /** The worker holds the row and its lease has not run out. */
  ghost predicate Live(cfg: Config, s: State, w: WorkerId, id: MessageId) {
    w in cfg && w in s.workers && Holds(s.workers[w], id) && s.clock < LeaseEnd(cfg[w], s.workers[w].now)
  }

  /** A worker reads, acts on and settles a claimed row only before its lease runs out. */
  ghost predicate Punctual(cfg: Config, s: State, step: Step) {
    (step.Read? || step.Answer? || step.Finish?) && Busy(s, step.w) && step.w in cfg ==>
      s.clock < LeaseEnd(cfg[step.w], s.workers[step.w].now)
  }

  ghost predicate PunctualRun(cfg: Config, steps: seq<Step>)
    requires ValidConfig(cfg) && ValidRun(cfg, steps)
    decreases |steps|
  {
    steps == [] || (
      var before := steps[..|steps| - 1];
      PunctualRun(cfg, before) && Punctual(cfg, Final(cfg, before), steps[|steps| - 1]))
  }

  lemma {:induction false} ExtendPunctual(cfg: Config, run: seq<Step>, step: Step)
    requires ValidConfig(cfg) && ValidRun(cfg, run) && Enabled(cfg, Final(cfg, run), step)
    ensures ValidRun(cfg, run + [step]) && Final(cfg, run + [step]) == Next(cfg, Final(cfg, run), step)
    ensures PunctualRun(cfg, run + [step]) <==> PunctualRun(cfg, run) && Punctual(cfg, Final(cfg, run), step)
  {
    assert (run + [step])[..|run|] == run;
  }

  /** A live holder's row carries RETRY and exactly the holder's lease. */
  ghost predicate HolderMarked(cfg: Config, s: State, w: WorkerId, id: MessageId) {
    Live(cfg, s, w, id) ==>
      id in s.rows && s.rows[id].status == Retry
      && s.rows[id].nextAttemptAt == Some(LeaseEnd(cfg[w], s.workers[w].now))
  }

  ghost predicate Exclusive(cfg: Config, s: State) {
    && (forall w, id :: HolderMarked(cfg, s, w, id))
    && (forall w, v, id :: Live(cfg, s, w, id) && Live(cfg, s, v, id) ==> w == v)
  }

  /** A live lease keeps the row out of every other claim. */
  lemma LiveNotClaimed(cfg: Config, s: State, w: WorkerId, v: WorkerId, locked: set<MessageId>, id: MessageId)
    requires Sound(cfg, s) && w in cfg && s.workers[w].Started?
    requires HolderMarked(cfg, s, v, id) && Live(cfg, s, v, id)
    ensures id !in ClaimIds(s.rows, cfg[w], s.workers[w].now, locked)
  {
    ClaimIdsSound(s.rows, cfg[w], s.workers[w].now, locked);
    assert WorkerSound(cfg, s, w);
  }

  /** A lease that is live after another worker's claim was live before, and its row was not claimed. */
  lemma OthersAfterClaim(cfg: Config, s: State, w: WorkerId, locked: set<MessageId>, v: WorkerId, id: MessageId)
    requires Sound(cfg, s) && w in cfg && s.workers[w].Started? && Exclusive(cfg, s) && v != w
    requires Live(cfg, ClaimBatch(cfg, s, w, locked), v, id)
    ensures Live(cfg, s, v, id) && id !in ClaimIds(s.rows, cfg[w], s.workers[w].now, locked)
    ensures HolderMarked(cfg, ClaimBatch(cfg, s, w, locked), v, id)
  {
    assert Live(cfg, s, v, id) && HolderMarked(cfg, s, v, id);
    LiveNotClaimed(cfg, s, w, v, locked, id);
  }

  lemma ClaimerMarked(cfg: Config, s: State, w: WorkerId, locked: set<MessageId>, id: MessageId)
    requires w in cfg && w in s.workers && s.workers[w].Started?
    ensures HolderMarked(cfg, ClaimBatch(cfg, s, w, locked), w, id)
  {
    ClaimIdsSound(s.rows, cfg[w], s.workers[w].now, locked);
  }

  lemma ClaimExclusive(cfg: Config, s: State, w: WorkerId, locked: set<MessageId>)
    requires Sound(cfg, s) && w in cfg && s.workers[w].Started? && Exclusive(cfg, s)
    ensures Exclusive(cfg, ClaimBatch(cfg, s, w, locked))
  {
    var s' := ClaimBatch(cfg, s, w, locked);
    forall v, id | v != w && Live(cfg, s', v, id)
      ensures Live(cfg, s, v, id) && HolderMarked(cfg, s', v, id)
      ensures id !in ClaimIds(s.rows, cfg[w], s.workers[w].now, locked)
    {
      OthersAfterClaim(cfg, s, w, locked, v, id);
    }
    forall v, id ensures HolderMarked(cfg, s', v, id) {
      if v == w {
        ClaimerMarked(cfg, s, w, locked, id);
      }
    }
  }

  lemma FinishExclusive(cfg: Config, s: State, w: WorkerId)
    requires Sound(cfg, s) && w in cfg && ValidLimit(cfg[w].maxAttempts) && Exclusive(cfg, s)
    requires Busy(s, w) && Head(s, w) in s.rows && s.workers[w].phase.Decided?
    requires Live(cfg, s, w, Head(s, w))
    ensures Exclusive(cfg, SettleHead(cfg, s, w))
  {
    var s', head := SettleHead(cfg, s, w), Head(s, w);
    assert WorkerSound(cfg, s, w);
    var queue := s.workers[w].queue;
    assert queue == [queue[0]] + queue[1..];
    forall v, id | Live(cfg, s', v, id) ensures Live(cfg, s, v, id) && id != head {
      assert Live(cfg, s, v, id);
    }
    forall v, id ensures HolderMarked(cfg, s', v, id) {
      assert HolderMarked(cfg, s, v, id);
    }
  }

  /** Steps after which fewer leases are live and the leased rows are as they were. */
  lemma ShrinkExclusive(cfg: Config, s: State, s': State)
    requires Exclusive(cfg, s)
    requires forall w, id :: Live(cfg, s', w, id) ==> Live(cfg, s, w, id) && s'.workers[w].now == s.workers[w].now
    requires forall id :: id in s.rows ==> id in s'.rows && s'.rows[id] == s.rows[id]
    ensures Exclusive(cfg, s')
  {
    forall w, id ensures HolderMarked(cfg, s', w, id) {
      assert HolderMarked(cfg, s, w, id);
    }
  }

  lemma StepExclusive(cfg: Config, s: State, step: Step)
    requires ValidConfig(cfg) && Sound(cfg, s) && Enabled(cfg, s, step) && Punctual(cfg, s, step) && Exclusive(cfg, s)
    ensures Exclusive(cfg, Next(cfg, s, step))
  {
    match step
    case Claim(w, locked) => ClaimExclusive(cfg, s, w, locked);
    case Finish(w) =>
      assert Head(s, w) in s.workers[w].queue;
      FinishExclusive(cfg, s, w);
    case _ => ShrinkExclusive(cfg, s, Next(cfg, s, step));
  }

  ghost predicate Unduplicated(cfg: Config, s: State) {
    forall id :: Times(s.duplicated, id) == 0
  }

  ghost predicate WithinLimit(s: State, topic: string, limit: int) {
    forall id :: id in s.rows && s.rows[id].topic == topic ==> s.rows[id].attemptCount <= limit
  }

  lemma {:induction false} RunExclusive(cfg: Config, steps: seq<Step>)
    requires ValidConfig(cfg) && ValidRun(cfg, steps) && PunctualRun(cfg, steps)
    ensures Exclusive(cfg, Final(cfg, steps)) && Unduplicated(cfg, Final(cfg, steps))
    decreases |steps|
  {
    if steps != [] {
      var before, step := steps[..|steps| - 1], steps[|steps| - 1];
      var s := Final(cfg, before);
      RunExclusive(cfg, before);
      RunSound(cfg, before);
      StepExclusive(cfg, s, step);
      if step.Finish? {
        assert Head(s, step.w) in s.workers[step.w].queue;
        assert Live(cfg, s, step.w, Head(s, step.w)) && HolderMarked(cfg, s, step.w, Head(s, step.w));
      }
    }
  }

  /** At most one worker is live on a row, and the row carries RETRY and that worker's lease. */
  lemma {:induction false} PunctualHolderIsAlone(cfg: Config, steps: seq<Step>, w: WorkerId, v: WorkerId, id: MessageId)
    requires ValidConfig(cfg) && ValidRun(cfg, steps) && PunctualRun(cfg, steps)
    requires Live(cfg, Final(cfg, steps), w, id)
    ensures var s := Final(cfg, steps);
      && (Live(cfg, s, v, id) ==> v == w)
      && id in s.rows && s.rows[id].status == Retry
      && s.rows[id].nextAttemptAt == Some(LeaseEnd(cfg[w], s.workers[w].now))
  {
    RunExclusive(cfg, steps);
    assert HolderMarked(cfg, Final(cfg, steps), w, id);
  }

  /** Punctual workers never commit a delivery twice, so crashes are the only excess. */
  lemma {:induction false} PunctualDeliveries(cfg: Config, steps: seq<Step>, id: MessageId)
    requires ValidConfig(cfg) && ValidRun(cfg, steps) && PunctualRun(cfg, steps)
    ensures var s := Final(cfg, steps);
      && Times(s.delivered, id) + Times(s.effectless, id) ==
           PublishedCount(s.rows, id) + Times(s.lost, id) + |Awaiting(s, id)|
      && (NeedsDelivery(s, id) ==> Times(s.effectless, id) == 0)
  {
    DeliveriesAccounted(cfg, steps, id);
    RunExclusive(cfg, steps);
  }

  /** The worker's effect was accepted, and its lease ran out before it committed. */
  ghost predicate Stalled(cfg: Config, s: State, w: WorkerId, id: MessageId) {
    AwaitsOn(s, w, id) && w in cfg && s.clock >= LeaseEnd(cfg[w], s.workers[w].now)
  }

  /** Where a punctual worker delivers, the row is open and all who await a commit have stalled. */
  lemma {:induction false} OthersHaveStalled(cfg: Config, s: State, step: Step, id: MessageId)
    requires ValidConfig(cfg) && Sound(cfg, s) && Exclusive(cfg, s) && Punctual(cfg, s, step)
    requires Enabled(cfg, s, step) && Delivers(cfg, s, step, id)
    ensures PublishedCount(s.rows, id) == 0
    ensures forall v :: v in Awaiting(s, id) ==> Stalled(cfg, s, v, id)
  {
    assert id in s.workers[step.w].queue;
    assert Live(cfg, s, step.w, id) && HolderMarked(cfg, s, step.w, id);
    forall v | v in Awaiting(s, id) ensures Stalled(cfg, s, v, id) {
      assert id in s.workers[v].queue;
      if s.clock < LeaseEnd(cfg[v], s.workers[v].now) {
        assert Live(cfg, s, v, id);
      }
    }
  }

  /**
   * With punctual workers a delivery repeats an earlier one exactly if some worker crashed, or has
   * stalled past its lease, between the acceptance of that delivery and its commit.
   */
  lemma {:induction false} PunctualRepeatExactly(cfg: Config, steps: seq<Step>, step: Step, id: MessageId)
    requires ValidConfig(cfg) && ValidRun(cfg, steps) && PunctualRun(cfg, steps)
    requires Enabled(cfg, Final(cfg, steps), step) && Punctual(cfg, Final(cfg, steps), step)
    requires Delivers(cfg, Final(cfg, steps), step, id)
    ensures var s := Final(cfg, steps);
      Times(s.delivered, id) > 0 <==> Times(s.lost, id) > 0 || exists v :: Stalled(cfg, s, v, id)
  {
    var s := Final(cfg, steps);
    RunSound(cfg, steps);
    RunExclusive(cfg, steps);
    PunctualDeliveries(cfg, steps, id);
    DeliveriesAccounted(cfg, steps, id);
    OthersHaveStalled(cfg, s, step, id);
    if |Awaiting(s, id)| > 0 {
      var v :| v in Awaiting(s, id);
      assert Stalled(cfg, s, v, id);
    }
    if v :| Stalled(cfg, s, v, id) {
      assert v in Awaiting(s, id);
    }
  }

  /** With punctual workers it was delivered once exactly if none has crashed or stalled there. */
  lemma {:induction false} PunctualOnceExactly(cfg: Config, steps: seq<Step>, id: MessageId)
    requires ValidConfig(cfg) && ValidRun(cfg, steps) && PunctualRun(cfg, steps)
    requires PublishedCount(Final(cfg, steps).rows, id) == 1
    requires NeedsDelivery(Final(cfg, steps), id) || Times(Final(cfg, steps).effectless, id) == 0
    ensures var s := Final(cfg, steps);
      Times(s.delivered, id) == 1 <==> Times(s.lost, id) == 0 && !exists v :: Stalled(cfg, s, v, id)
  {
    var s := Final(cfg, steps);
    RunSound(cfg, steps);
    RunExclusive(cfg, steps);
    PunctualDeliveries(cfg, steps, id);
    forall v | v in Awaiting(s, id) ensures Stalled(cfg, s, v, id) {
      assert id in s.workers[v].queue;
      if s.clock < LeaseEnd(cfg[v], s.workers[v].now) {
        assert Live(cfg, s, v, id) && HolderMarked(cfg, s, v, id);
      }
    }
    if |Awaiting(s, id)| > 0 {
      var v :| v in Awaiting(s, id);
      assert Stalled(cfg, s, v, id);
    }
    if v :| Stalled(cfg, s, v, id) {
      assert v in Awaiting(s, id);
    }
  }

  lemma FinishWithin(cfg: Config, s: State, w: WorkerId, topic: string, limit: int)
    requires ValidConfig(cfg) && Sound(cfg, s) && w in cfg && WithinLimit(s, topic, limit)
    requires Busy(s, w) && Head(s, w) in s.rows && s.workers[w].phase.Decided?
    requires s.rows[Head(s, w)].status == Retry
    requires Limit(cfg, topic, limit) && AllCharged(cfg, s, topic, limit)
    ensures WithinLimit(SettleHead(cfg, s, w), topic, limit)
  {
    var id, ws := Head(s, w), s.workers[w];
    assert id in ws.queue && WorkerSound(cfg, s, w);
    SettleRow(cfg[w], s.rows[id], ws.now, ws.phase.verdict, Ceiling(cfg[w], s.rows[id]));
    if s.rows[id].topic == topic {
      assert Charged(cfg, s, id, limit);
    }
  }

  lemma ClaimWithin(cfg: Config, s: State, w: WorkerId, locked: set<MessageId>, topic: string, limit: int)
    requires w in cfg && w in s.workers && s.workers[w].Started? && WithinLimit(s, topic, limit)
    ensures WithinLimit(ClaimBatch(cfg, s, w, locked), topic, limit)
  {
  }

  lemma OtherWithin(cfg: Config, s: State, step: Step, topic: string, limit: int)
    requires ValidConfig(cfg) && Enabled(cfg, s, step) && !step.Claim? && !step.Finish?
    requires WithinLimit(s, topic, limit) && limit >= 1
    ensures WithinLimit(Next(cfg, s, step), topic, limit)
  {
  }

  lemma StepWithin(cfg: Config, s: State, step: Step, topic: string, limit: int)
    requires ValidConfig(cfg) && Sound(cfg, s) && Enabled(cfg, s, step) && Punctual(cfg, s, step) && Exclusive(cfg, s)
    requires Limit(cfg, topic, limit) && AllCharged(cfg, s, topic, limit) && WithinLimit(s, topic, limit)
    ensures WithinLimit(Next(cfg, s, step), topic, limit)
  {
    match step
    case Claim(w, locked) => ClaimWithin(cfg, s, w, locked, topic, limit);
    case Finish(w) =>
      assert Head(s, w) in s.workers[w].queue;
      assert Live(cfg, s, w, Head(s, w)) && HolderMarked(cfg, s, w, Head(s, w));
      FinishWithin(cfg, s, w, topic, limit);
    case _ => OtherWithin(cfg, s, step, topic, limit);
  }

  /** Punctual workers never bring a message past its limit, however many they are. */
  lemma {:induction false} PunctualAttempts(cfg: Config, steps: seq<Step>, topic: string, limit: int)
    requires ValidConfig(cfg) && ValidRun(cfg, steps) && PunctualRun(cfg, steps) && Limit(cfg, topic, limit)
    ensures WithinLimit(Final(cfg, steps), topic, limit)
    decreases |steps|
  {
    if steps != [] {
      var before := steps[..|steps| - 1];
      PunctualAttempts(cfg, before, topic, limit);
      RunSound(cfg, before);
      RunExclusive(cfg, before);
      RunCharged(cfg, before, topic, limit);
      StepWithin(cfg, Final(cfg, before), steps[|steps| - 1], topic, limit);
    }
  }

  /** A punctual step finds the row it settles marked RETRY, and claims only open rows. */
  lemma StepKeepsClosed(cfg: Config, s: State, step: Step, id: MessageId)
    requires ValidConfig(cfg) && Sound(cfg, s) && Enabled(cfg, s, step) && Punctual(cfg, s, step) && Exclusive(cfg, s)
    requires id in s.rows && !Claimable(s.rows[id])
    ensures id in Next(cfg, s, step).rows && Next(cfg, s, step).rows[id] == s.rows[id]
  {
    match step
    case Claim(w, locked) => ClaimIdsSound(s.rows, cfg[w], s.workers[w].now, locked);
    case Finish(w) =>
      assert Head(s, w) in s.workers[w].queue;
      assert Live(cfg, s, w, Head(s, w)) && HolderMarked(cfg, s, w, Head(s, w));
    case _ =>
  }

  /**
   * With punctual workers FAILED and NOT_CONFIGURED are final too: a closed row never changes
   * again. Without them it may, see `LeaseLateWorkers`.
   */
  lemma {:induction false} PunctualClosedIsFinal(cfg: Config, steps: seq<Step>, i: nat, id: MessageId)
    requires ValidConfig(cfg) && ValidRun(cfg, steps) && PunctualRun(cfg, steps)
    requires i <= |steps| && ValidRun(cfg, steps[..i])
    requires id in Final(cfg, steps[..i]).rows && !Claimable(Final(cfg, steps[..i]).rows[id])
    ensures id in Final(cfg, steps).rows && Final(cfg, steps).rows[id] == Final(cfg, steps[..i]).rows[id]
    decreases |steps|
  {
    if i == |steps| {
      assert steps[..i] == steps;
    } else {
      var before := steps[..|steps| - 1];
      assert before[..i] == steps[..i];
      PunctualClosedIsFinal(cfg, before, i, id);
      RunSound(cfg, before);
      RunExclusive(cfg, before);
      StepKeepsClosed(cfg, Final(cfg, before), steps[|steps| - 1], id);
    }
  }

  /** The step settles this message, with a verdict that the worker's guard lets through. */
  ghost predicate Overwriting(cfg: Config, s: State, step: Step, id: MessageId) {
    && step.Finish? && step.w in cfg && Busy(s, step.w) && Head(s, step.w) == id && id in s.rows
    && s.workers[step.w].phase.Decided? && Overwrites(cfg[step.w], s.rows[id], s.workers[step.w].phase.verdict)
  }

  /** And the worker's lease has run out. */
  ghost predicate LateOverwrite(cfg: Config, s: State, step: Step, id: MessageId) {
    Overwriting(cfg, s, step, id) && s.clock >= LeaseEnd(cfg[step.w], s.workers[step.w].now)
  }

  lemma SettlesClosed(cfg: Config, s: State, w: WorkerId, id: MessageId)
    requires ValidConfig(cfg) && AllShaped(s.rows) && w in cfg && Busy(s, w) && s.workers[w].phase.Decided?
    requires Head(s, w) in s.rows && id in s.rows && !Claimable(s.rows[id])
    ensures var row' := SettleHead(cfg, s, w).rows[id];
      row' != s.rows[id] <==> Head(s, w) == id && Overwrites(cfg[w], s.rows[id], s.workers[w].phase.verdict)
  {
    if Head(s, w) == id {
      LateSettlementChangesExactly(cfg[w], s.rows[id], s.workers[w].now, s.workers[w].phase.verdict);
    }
  }

  /**
   * Whatever happened before, a step changes a closed message exactly when it settles it with a
   * verdict that passes the worker's guard: never one that is PUBLISHED.
   */
  lemma {:induction false} ClosedOverwrittenExactly(cfg: Config, steps: seq<Step>, step: Step, id: MessageId)
    requires ValidConfig(cfg) && ValidRun(cfg, steps) && Enabled(cfg, Final(cfg, steps), step)
    requires id in Final(cfg, steps).rows && !Claimable(Final(cfg, steps).rows[id])
    ensures var s := Final(cfg, steps);
      && id in Next(cfg, s, step).rows
      && (Next(cfg, s, step).rows[id] != s.rows[id] <==> Overwriting(cfg, s, step, id))
  {
    var s := Final(cfg, steps);
    RunSound(cfg, steps);
    match step
    case Claim(w, locked) => ClaimIdsSound(s.rows, cfg[w], s.workers[w].now, locked);
    case Finish(w) => SettlesClosed(cfg, s, w, id);
    case _ =>
  }

  /**
   * As long as all workers have been punctual, that takes a worker whose lease has run out: such a
   * step changes a closed message exactly when it is a late settlement that passes the guard.
   */
  lemma {:induction false} ClosedChangesExactly(cfg: Config, steps: seq<Step>, step: Step, id: MessageId)
    requires ValidConfig(cfg) && ValidRun(cfg, steps) && PunctualRun(cfg, steps)
    requires Enabled(cfg, Final(cfg, steps), step)
    requires id in Final(cfg, steps).rows && !Claimable(Final(cfg, steps).rows[id])
    ensures var s := Final(cfg, steps);
      && id in Next(cfg, s, step).rows
      && (Next(cfg, s, step).rows[id] != s.rows[id] <==> LateOverwrite(cfg, s, step, id))
  {
    var s := Final(cfg, steps);
    RunSound(cfg, steps);
    RunExclusive(cfg, steps);
    ClosedOverwrittenExactly(cfg, steps, step, id);
    if Punctual(cfg, s, step) {
      StepKeepsClosed(cfg, s, step, id);
    }
  }
}
