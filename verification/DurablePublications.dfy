/**
 * Why a retention message is PUBLISHED, over runs of the whole system: the bytes of the object it
 * names were deleted, or a worker looked and there was nothing to delete.
 */
module DurablePublications {
  import opened Common
  import opened EventContracts
  import opened RetryPolicy
  import opened Outbox
  import opened StagedObjects
  import opened Dispatcher
  import opened DispatchLog
  import opened DurableSystem
  import opened DurableRetention
  import opened DurableDeletion
  import L = LeaseProtocol
  import LeaseBackoff
  import LeaseDelivery
  import LeaseInvariants

  /** The messages for which a worker looked and found nothing to delete. */
  ghost function Spared(p: Platform, cfg: L.Config, start: Db, steps: seq<Step>): set<MessageId>
    requires L.ValidConfig(cfg) && ValidRun(p, cfg, start, steps)
  {
    if steps == [] then {}
    else
      var before := steps[..|steps| - 1];
      Spared(p, cfg, start, before) + SparedBy(cfg, Final(p, cfg, start, before), steps[|steps| - 1])
  }

  ghost function SparedBy(cfg: L.Config, s: System, step: Step): set<MessageId> {
    if step.Look? && MayLook(cfg, s, step.w, step.target) && !MustGo(s.commands.db.roots, step.target) then
      {L.Head(s.delivery, step.w)}
    else {}
  }

  // ---- What the workers hold ----

  /** The worker is about to publish its message although it has deleted nothing. */
  ghost predicate PublishesIdly(s: L.State, w: L.WorkerId) {
    && L.Busy(s, w) && s.workers[w].phase.Decided? && !s.workers[w].phase.accepted
    && (s.workers[w].phase.verdict == Verdict.Publish || s.workers[w].phase.verdict == PublishSkipped)
  }

  /** All idle publications, made or about to be made, are for spared messages. */
  ghost predicate IdleAreSpared(cfg: L.Config, s: L.State, spared: set<MessageId>) {
    && (forall w :: IsRetention(cfg, w) && PublishesIdly(s, w) ==> L.Head(s, w) in spared)
    && (forall id :: L.Times(s.effectless, id) > 0 ==> id in spared)
  }

  /** The object of the message is beyond use, and this is its key. */
  ghost predicate GoesUnder(roots: Roots, row: Row, key: string) {
    var target := RetentionTargetOf(row.payload);
    target.Some? && MustGo(roots, target.value) && key == KeyOfTarget(roots, target.value)
  }

  /** A worker with a target stands between its look and its answer, with that object's key. */
  ghost predicate TargetFits(cfg: L.Config, s: System, w: L.WorkerId)
    requires w in s.targets
  {
    && IsRetention(cfg, w) && L.Busy(s.delivery, w) && s.delivery.workers[w].phase.Outward?
    && L.Head(s.delivery, w) in s.delivery.rows
    && GoesUnder(s.commands.db.roots, s.delivery.rows[L.Head(s.delivery, w)], s.targets[w])
  }

  ghost predicate AllFit(cfg: L.Config, s: System) {
    forall w :: w in s.targets ==> TargetFits(cfg, s, w)
  }

  /** The bytes of the object the message names are gone. */
  ghost predicate IsGone(roots: Roots, row: Row, deleted: set<string>) {
    exists key :: key in deleted && GoesUnder(roots, row, key)
  }

  ghost predicate DeliveredRetention(s: L.State, id: MessageId) {
    id in s.rows && s.rows[id].topic == RETENTION_TOPIC && L.Times(s.delivered, id) > 0
  }

  ghost predicate DeliveredAreGone(s: System) {
    forall id | DeliveredRetention(s.delivery, id) :: IsGone(s.commands.db.roots, s.delivery.rows[id], s.deleted)
  }

  // ---- Idle publications ----

  lemma ReadIsNotIdle(w: Worker, row: Row)
    ensures var phase := L.PhaseAfterRead(PlanFor(w, row));
      phase.Decided? ==> phase.verdict != Verdict.Publish && phase.verdict != PublishSkipped
  {
  }

  lemma AnswerIsNotIdle(w: Worker, answer: Answer)
    requires w.kind == Retention && (answer.Returned? || answer.Raised?)
    ensures Accepted(w, answer) || VerdictOf(w, answer).RetryWith?
  {
  }

  lemma AnswersAreNotIdle(w: Worker)
    requires w.kind == Retention
    ensures forall answer: Answer :: answer.Returned? || answer.Raised? ==>
      Accepted(w, answer) || VerdictOf(w, answer).RetryWith?
  {
    forall answer: Answer | answer.Returned? || answer.Raised?
      ensures Accepted(w, answer) || VerdictOf(w, answer).RetryWith?
    {
      AnswerIsNotIdle(w, answer);
    }
  }

  /** A worker that becomes idle in this way got a lookup's answer. */
  lemma BecomesIdle(cfg: L.Config, s: L.State, move: L.Step, w: L.WorkerId)
    requires L.ValidConfig(cfg) && L.Enabled(cfg, s, move) && IsRetention(cfg, w)
    requires PublishesIdly(L.Next(cfg, s, move), w)
    requires move.Answer? && move.w == w ==> move.answer.Returned? || move.answer.Raised?
    ensures PublishesIdly(s, w) && L.Head(L.Next(cfg, s, move), w) == L.Head(s, w)
  {
    if LeaseBackoff.IsBy(move, w) {
      AnswersAreNotIdle(cfg[w]);
      match move
      case Read(_) => ReadIsNotIdle(cfg[w], s.rows[L.Head(s, w)]);
      case _ =>
    } else {
      StaysInPlace(cfg, s, move, w);
    }
  }

  lemma StaysInPlace(cfg: L.Config, s: L.State, move: L.Step, w: L.WorkerId)
    requires L.ValidConfig(cfg) && L.Enabled(cfg, s, move) && !LeaseBackoff.IsBy(move, w)
    requires w in L.Next(cfg, s, move).workers
    ensures w in s.workers && L.Next(cfg, s, move).workers[w] == s.workers[w]
  {
    assert L.Next(cfg, s, move).workers.Keys == s.workers.Keys by {
      WorkersStay(cfg, s, move);
    }
    LeaseBackoff.OthersLeaveIt(cfg, s, move, w);
  }

  lemma WorkersStay(cfg: L.Config, s: L.State, move: L.Step)
    requires L.ValidConfig(cfg) && L.Enabled(cfg, s, move)
    ensures L.Next(cfg, s, move).workers.Keys == s.workers.Keys
  {
  }

  lemma EffectlessGrows(cfg: L.Config, s: L.State, w: L.WorkerId, id: MessageId)
    requires L.ValidConfig(cfg) && L.Enabled(cfg, s, L.Finish(w)) && LeaseDelivery.Honest(cfg, s)
    requires L.Times(L.SettleHead(cfg, s, w).effectless, id) > L.Times(s.effectless, id)
    ensures id == L.Head(s, w) && IsRetention(cfg, w) && PublishesIdly(s, w)
  {
    LeaseDelivery.SettleStatus(
      cfg[w], s.rows[L.Head(s, w)], s.workers[w].now, s.workers[w].phase.verdict);
    assert LeaseDelivery.HonestPhase(cfg[w], s.workers[w].phase);
  }

  lemma MoveKeepsSpared(cfg: L.Config, s: L.State, move: L.Step, spared: set<MessageId>)
    requires L.ValidConfig(cfg) && L.Enabled(cfg, s, move) && LeaseDelivery.Honest(cfg, s)
    requires IdleAreSpared(cfg, s, spared)
    requires move.Answer? && IsRetention(cfg, move.w) ==> move.answer.Returned? || move.answer.Raised?
    ensures IdleAreSpared(cfg, L.Next(cfg, s, move), spared)
  {
    var s' := L.Next(cfg, s, move);
    forall w | IsRetention(cfg, w) && PublishesIdly(s', w) ensures L.Head(s', w) in spared {
      BecomesIdle(cfg, s, move, w);
    }
    forall id | L.Times(s'.effectless, id) > 0 ensures id in spared {
      if move.Finish? && L.Times(s'.effectless, id) > L.Times(s.effectless, id) {
        EffectlessGrows(cfg, s, move.w, id);
      }
    }
  }

  lemma LookKeepsSpared(cfg: L.Config, s: System, w: L.WorkerId, target: RetentionTarget, spared: set<MessageId>)
    requires L.ValidConfig(cfg) && MayLook(cfg, s, w, target) && IdleAreSpared(cfg, s.delivery, spared)
    ensures var s' := LookAt(cfg, s, w, LookUp(s.commands.db.roots, target));
      IdleAreSpared(cfg, s'.delivery, spared + SparedBy(cfg, s, Look(w, target)))
  {
    var found := LookUp(s.commands.db.roots, target);
    var s' := LookAt(cfg, s, w, found);
    FoundExactly(s.commands.db.roots, target);
    LookedAt(cfg, s, w, found);
    if found.Answered? {
      forall v | IsRetention(cfg, v) && v != w && PublishesIdly(s'.delivery, v)
        ensures L.Head(s'.delivery, v) in spared
      {
        LeaseBackoff.OthersLeaveIt(cfg, s.delivery, L.Answer(w, found.answer), v);
        assert PublishesIdly(s.delivery, v);
      }
    }
  }

  lemma StepKeepsSpared(p: Platform, cfg: L.Config, s: System, step: Step, spared: set<MessageId>)
    requires L.ValidConfig(cfg) && Enabled(p, cfg, s, step) && LeaseDelivery.Honest(cfg, s.delivery)
    requires IdleAreSpared(cfg, s.delivery, spared)
    ensures IdleAreSpared(cfg, Next(p, cfg, s, step).delivery, spared + SparedBy(cfg, s, step))
  {
    match step
    case Command(command) => assert Next(p, cfg, s, step).delivery.workers == s.delivery.workers;
    case Deliver(move) => MoveKeepsSpared(cfg, s.delivery, move, spared);
    case Look(w, target) => LookKeepsSpared(cfg, s, w, target, spared);
    case DeleteBytes(_) =>
  }

  // ---- Deletions ----

  lemma StillGoes(roots: Roots, roots': Roots, row: Row, row': Row, key: string)
    requires RootsLater(roots, roots') && GoesUnder(roots, row, key) && row'.payload == row.payload
    ensures GoesUnder(roots', row', key)
  {
    var target := RetentionTargetOf(row.payload).value;
    assert ObjectLater(roots[target.objectId].row, roots'[target.objectId].row);
  }

  lemma StillGone(roots: Roots, roots': Roots, row: Row, row': Row, deleted: set<string>, deleted': set<string>)
    requires RootsLater(roots, roots') && IsGone(roots, row, deleted) && row'.payload == row.payload
    requires deleted <= deleted'
    ensures IsGone(roots', row', deleted')
  {
    var key :| key in deleted && GoesUnder(roots, row, key);
    StillGoes(roots, roots', row, row', key);
  }

  /** Where only the tables moved on, targets still fit and what is gone stays gone. */
  lemma TargetStays(cfg: L.Config, s: System, s': System, w: L.WorkerId)
    requires w in s.targets && w in s'.targets && s'.targets[w] == s.targets[w] && TargetFits(cfg, s, w)
    requires RootsLater(s.commands.db.roots, s'.commands.db.roots)
    requires LeaseInvariants.TableLater(s.delivery.rows, s'.delivery.rows)
    requires w in s'.delivery.workers && s'.delivery.workers[w] == s.delivery.workers[w]
    ensures TargetFits(cfg, s', w)
  {
    var id := L.Head(s.delivery, w);
    assert LeaseInvariants.Later(s.delivery.rows[id], s'.delivery.rows[id]);
    StillGoes(s.commands.db.roots, s'.commands.db.roots, s.delivery.rows[id], s'.delivery.rows[id], s.targets[w]);
  }

  lemma GoneStays(s: System, s': System, id: MessageId)
    requires id in s.delivery.rows && IsGone(s.commands.db.roots, s.delivery.rows[id], s.deleted)
    requires RootsLater(s.commands.db.roots, s'.commands.db.roots) && s.deleted <= s'.deleted
    requires LeaseInvariants.TableLater(s.delivery.rows, s'.delivery.rows)
    ensures id in s'.delivery.rows && IsGone(s'.commands.db.roots, s'.delivery.rows[id], s'.deleted)
  {
    assert LeaseInvariants.Later(s.delivery.rows[id], s'.delivery.rows[id]);
    StillGone(s.commands.db.roots, s'.commands.db.roots, s.delivery.rows[id], s'.delivery.rows[id], s.deleted,
              s'.deleted);
  }

  lemma RootsStay(roots: Roots)
    ensures RootsLater(roots, roots)
  {
  }

  /** A worker with a target does nothing but answer or crash. */
  lemma TargetWorkerMoves(cfg: L.Config, s: System, move: L.Step, w: L.WorkerId)
    requires L.ValidConfig(cfg) && L.Enabled(cfg, s.delivery, move) && AllFit(cfg, s)
    requires w in TargetsAfter(s.targets, move)
    ensures w in s.targets && TargetsAfter(s.targets, move)[w] == s.targets[w] && !LeaseBackoff.IsBy(move, w)
  {
    assert TargetFits(cfg, s, w);
  }

  lemma MoveKeepsFit(cfg: L.Config, s: System, move: L.Step)
    requires L.ValidConfig(cfg) && L.Enabled(cfg, s.delivery, move) && AllFit(cfg, s)
    requires LeaseInvariants.Sound(cfg, s.delivery)
    ensures AllFit(cfg, s.(delivery := L.Next(cfg, s.delivery, move), targets := TargetsAfter(s.targets, move)))
  {
    var s' := s.(delivery := L.Next(cfg, s.delivery, move), targets := TargetsAfter(s.targets, move));
    LeaseInvariants.StepTable(cfg, s.delivery, move);
    RootsStay(s.commands.db.roots);
    forall w | w in s'.targets ensures TargetFits(cfg, s', w) {
      TargetWorkerMoves(cfg, s, move, w);
      LeaseBackoff.OthersLeaveIt(cfg, s.delivery, move, w);
      TargetStays(cfg, s, s', w);
    }
  }

  lemma DeliversNow(cfg: L.Config, s: System, move: L.Step, id: MessageId)
    requires L.ValidConfig(cfg) && L.Enabled(cfg, s.delivery, move) && MayDeliver(cfg, s, move)
    requires LeaseInvariants.Sound(cfg, s.delivery) && AllFit(cfg, s)
    requires id in s.delivery.rows && s.delivery.rows[id].topic == RETENTION_TOPIC
    requires L.Times(L.Next(cfg, s.delivery, move).delivered, id) > L.Times(s.delivery.delivered, id)
    ensures IsGone(s.commands.db.roots, s.delivery.rows[id], s.deleted)
  {
    var w := move.w;
    assert id == L.Head(s.delivery, w) && id in s.delivery.workers[w].queue;
    assert LeaseInvariants.WorkerSound(cfg, s.delivery, w);
    LeaseDelivery.KindOfTopic(cfg[w].kind, RETENTION_TOPIC);
    assert TargetFits(cfg, s, w);
    assert s.targets[w] in s.deleted;
  }

  lemma MoveKeepsGone(cfg: L.Config, s: System, move: L.Step)
    requires L.ValidConfig(cfg) && L.Enabled(cfg, s.delivery, move) && MayDeliver(cfg, s, move)
    requires LeaseInvariants.Sound(cfg, s.delivery) && AllFit(cfg, s) && DeliveredAreGone(s)
    ensures DeliveredAreGone(s.(delivery := L.Next(cfg, s.delivery, move), targets := TargetsAfter(s.targets, move)))
  {
    var s' := s.(delivery := L.Next(cfg, s.delivery, move), targets := TargetsAfter(s.targets, move));
    LeaseInvariants.StepTable(cfg, s.delivery, move);
    LeaseInvariants.StepKeys(cfg, s.delivery, move);
    RootsStay(s.commands.db.roots);
    forall id | DeliveredRetention(s'.delivery, id)
      ensures IsGone(s'.commands.db.roots, s'.delivery.rows[id], s'.deleted)
    {
      assert LeaseInvariants.Later(s.delivery.rows[id], s'.delivery.rows[id]);
      if L.Times(s'.delivery.delivered, id) > L.Times(s.delivery.delivered, id) {
        DeliversNow(cfg, s, move, id);
      } else {
        DeliveredNotFewer(cfg, s.delivery, move, id);
      }
      GoneStays(s, s', id);
    }
  }

  lemma DeliveredNotFewer(cfg: L.Config, s: L.State, move: L.Step, id: MessageId)
    requires L.ValidConfig(cfg) && L.Enabled(cfg, s, move)
    ensures L.Times(L.Next(cfg, s, move).delivered, id) >= L.Times(s.delivered, id)
  {
  }

  /** Both invariants together. */
  ghost predicate DeletionsFit(cfg: L.Config, s: System) {
    AllFit(cfg, s) && DeliveredAreGone(s)
  }

  lemma RowsAdded(rows: Table, b: Batch)
    requires FreshBatch(rows, b)
    ensures forall id :: id in rows ==> id in AddAll(rows, b.ids, b.rows) && AddAll(rows, b.ids, b.rows)[id] == rows[id]
  {
    AddAllKeys(rows, b.ids, b.rows);
    forall id | id in rows ensures id !in b.ids {
    }
  }

  lemma CommandKeepsFit(cfg: L.Config, s: System, s': System, b: Batch)
    requires DeletionsFit(cfg, s) && RootsLater(s.commands.db.roots, s'.commands.db.roots)
    requires FreshBatch(s.delivery.rows, b) && s'.delivery == InsertAll(s.delivery, b)
    requires s'.targets == s.targets && s'.deleted == s.deleted
    requires forall id :: L.Times(s.delivery.delivered, id) > 0 ==> id in s.delivery.rows
    ensures DeletionsFit(cfg, s')
  {
    RowsAdded(s.delivery.rows, b);
    forall w | w in s'.targets ensures TargetFits(cfg, s', w) {
      TargetStays(cfg, s, s', w);
    }
    forall id | DeliveredRetention(s'.delivery, id)
      ensures IsGone(s'.commands.db.roots, s'.delivery.rows[id], s'.deleted)
    {
      GoneStays(s, s', id);
    }
  }

  lemma LookKeepsFit(cfg: L.Config, s: System, w: L.WorkerId, target: RetentionTarget)
    requires L.ValidConfig(cfg) && MayLook(cfg, s, w, target) && DeletionsFit(cfg, s)
    requires LeaseInvariants.Sound(cfg, s.delivery)
    ensures DeletionsFit(cfg, LookAt(cfg, s, w, LookUp(s.commands.db.roots, target)))
  {
    var found := LookUp(s.commands.db.roots, target);
    var s' := LookAt(cfg, s, w, found);
    FoundExactly(s.commands.db.roots, target);
    LookedAt(cfg, s, w, found);
    if found.Answered? {
      AnsweredKeepsFit(cfg, s, w, found.answer);
    } else {
      forall v | v in s'.targets ensures TargetFits(cfg, s', v) {
        assert v != w ==> TargetFits(cfg, s, v);
      }
    }
  }

  /** An answer of the lookup itself concerns a worker without a target. */
  lemma AnsweredKeepsFit(cfg: L.Config, s: System, w: L.WorkerId, answer: Answer)
    requires L.ValidConfig(cfg) && L.Enabled(cfg, s.delivery, L.Answer(w, answer)) && w !in s.targets
    requires DeletionsFit(cfg, s) && !answer.Returned? && LeaseInvariants.Sound(cfg, s.delivery)
    ensures DeletionsFit(cfg, s.(delivery := L.Next(cfg, s.delivery, L.Answer(w, answer))))
  {
    var s' := s.(delivery := L.Next(cfg, s.delivery, L.Answer(w, answer)));
    MoveKeepsFit(cfg, s, L.Answer(w, answer));
    assert s.targets - {w} == s.targets;
    assert s'.delivery.delivered == s.delivery.delivered && s'.delivery.rows == s.delivery.rows;
  }

  lemma StepKeepsFit(p: Platform, cfg: L.Config, s: System, step: Step)
    requires L.ValidConfig(cfg) && Enabled(p, cfg, s, step) && DeletionsFit(cfg, s)
    requires LeaseInvariants.Sound(cfg, s.delivery) && StorageKeysUnique(s.commands.db.roots)
    requires s.delivery.rows.Keys == s.commands.db.outbox.Keys
    requires forall id :: L.Times(s.delivery.delivered, id) > 0 ==> id in s.delivery.rows
    ensures DeletionsFit(cfg, Next(p, cfg, s, step))
  {
    match step
    case Command(command) =>
      CommandRoots(p, s.commands, command);
      NewMessagesFresh(p, s.commands, command, s.delivery.rows);
      CommandKeepsFit(cfg, s, Next(p, cfg, s, step), NewMessages(p, s.commands, command));
    case Deliver(move) =>
      MoveKeepsFit(cfg, s, move);
      MoveKeepsGone(cfg, s, move);
    case Look(w, target) => LookKeepsFit(cfg, s, w, target);
    case DeleteBytes(w) => DeletionKeepsFit(cfg, s, w);
  }

  lemma DeletionKeepsFit(cfg: L.Config, s: System, w: L.WorkerId)
    requires w in s.targets && DeletionsFit(cfg, s)
    ensures DeletionsFit(cfg, s.(deleted := s.deleted + {s.targets[w]}))
  {
    var s' := s.(deleted := s.deleted + {s.targets[w]});
    forall v | v in s'.targets ensures TargetFits(cfg, s', v) {
      assert TargetFits(cfg, s, v);
    }
    forall id | id in s.delivery.rows && IsGone(s.commands.db.roots, s.delivery.rows[id], s.deleted)
      ensures IsGone(s.commands.db.roots, s.delivery.rows[id], s'.deleted)
    {
      RootsStay(s.commands.db.roots);
      StillGone(s.commands.db.roots, s.commands.db.roots, s.delivery.rows[id], s.delivery.rows[id], s.deleted,
                s'.deleted);
    }
  }

  // ---- Over runs ----

  /** What is known of the workers' side from their own runs. */
  lemma {:induction false} DeliverySide(p: Platform, cfg: L.Config, start: Db, steps: seq<Step>)
    requires L.ValidConfig(cfg) && ValidRun(p, cfg, start, steps) && Empty(start)
    ensures var s := Final(p, cfg, start, steps);
      && LeaseInvariants.Sound(cfg, s.delivery) && LeaseDelivery.Honest(cfg, s.delivery)
      && s.delivery.rows.Keys == s.commands.db.outbox.Keys
      && (forall id :: L.Times(s.delivery.delivered, id) > 0 ==> id in s.delivery.rows)
  {
    RunProjects(p, cfg, start, steps);
    var run := AllDeliverySteps(p, cfg, start, steps);
    LeaseInvariants.RunSound(cfg, run);
    LeaseDelivery.RunConserved(cfg, run);
    forall id | L.Times(L.Final(cfg, run).delivered, id) > 0 ensures id in L.Final(cfg, run).rows {
      LeaseDelivery.DeliveredAreStored(cfg, run, id);
    }
  }

  lemma {:induction false} RunSpares(p: Platform, cfg: L.Config, start: Db, steps: seq<Step>)
    requires L.ValidConfig(cfg) && ValidRun(p, cfg, start, steps) && Empty(start)
    ensures IdleAreSpared(cfg, Final(p, cfg, start, steps).delivery, Spared(p, cfg, start, steps))
    decreases |steps|
  {
    if steps != [] {
      var before := steps[..|steps| - 1];
      RunSpares(p, cfg, start, before);
      DeliverySide(p, cfg, start, before);
      StepKeepsSpared(p, cfg, Final(p, cfg, start, before), steps[|steps| - 1], Spared(p, cfg, start, before));
    }
  }

  lemma {:induction false} RunFits(p: Platform, cfg: L.Config, start: Db, steps: seq<Step>)
    requires L.ValidConfig(cfg) && ValidRun(p, cfg, start, steps) && Empty(start) && StorageKeysUnique(start.roots)
    ensures DeletionsFit(cfg, Final(p, cfg, start, steps))
    decreases |steps|
  {
    if steps != [] {
      var before := steps[..|steps| - 1];
      RunFits(p, cfg, start, before);
      RunKeepsSafe(p, cfg, start, before);
      DeliverySide(p, cfg, start, before);
      StepKeepsFit(p, cfg, Final(p, cfg, start, before), steps[|steps| - 1]);
    }
  }

  /** At the `i`-th step a worker looked for this message, and there was nothing to delete. */
  ghost predicate LookedInVain(p: Platform, cfg: L.Config, start: Db, steps: seq<Step>, i: nat, id: MessageId)
    requires L.ValidConfig(cfg) && i < |steps| && ValidRun(p, cfg, start, steps[..i])
  {
    var s := Final(p, cfg, start, steps[..i]);
    && steps[i].Look? && MayLook(cfg, s, steps[i].w, steps[i].target) && L.Head(s.delivery, steps[i].w) == id
    && !MustGo(s.commands.db.roots, steps[i].target)
  }

  lemma {:induction false} SparedMeans(p: Platform, cfg: L.Config, start: Db, steps: seq<Step>, id: MessageId)
    returns (i: nat)
    requires L.ValidConfig(cfg) && ValidRun(p, cfg, start, steps) && id in Spared(p, cfg, start, steps)
    ensures i < |steps| && ValidRun(p, cfg, start, steps[..i]) && LookedInVain(p, cfg, start, steps, i, id)
    decreases |steps|
  {
    var n := |steps| - 1;
    var before := steps[..n];
    if id in Spared(p, cfg, start, before) {
      i := SparedMeans(p, cfg, start, before, id);
      assert before[..i] == steps[..i];
    } else {
      i := n;
    }
  }

  /**
   * A retention message that was published without a deletion: a worker had looked for the object
   * it names, and that object was missing, of another tenant, or neither REJECTED nor EXPIRED.
   */
  lemma {:induction false} NoDeletionMeansNothingToDelete(
    p: Platform, cfg: L.Config, start: Db, steps: seq<Step>, id: MessageId) returns (i: nat)
    requires L.ValidConfig(cfg) && ValidRun(p, cfg, start, steps) && Empty(start)
    requires L.Times(Final(p, cfg, start, steps).delivery.effectless, id) > 0
    ensures i < |steps| && ValidRun(p, cfg, start, steps[..i]) && LookedInVain(p, cfg, start, steps, i, id)
  {
    RunSpares(p, cfg, start, steps);
    i := SparedMeans(p, cfg, start, steps, id);
  }

  /**
   * Every PUBLISHED retention message is accounted for: the object it names is REJECTED or EXPIRED
   * and its bytes are deleted, or at some look there was nothing to delete.
   */
  lemma {:induction false} PublishedRetentionExplained(
    p: Platform, cfg: L.Config, start: Db, steps: seq<Step>, id: MessageId)
    requires L.ValidConfig(cfg) && ValidRun(p, cfg, start, steps) && Empty(start) && StorageKeysUnique(start.roots)
    requires var rows := Final(p, cfg, start, steps).delivery.rows;
      id in rows && rows[id].topic == RETENTION_TOPIC && rows[id].status == Published
    ensures var s := Final(p, cfg, start, steps);
      || IsGone(s.commands.db.roots, s.delivery.rows[id], s.deleted)
      || exists i | 0 <= i < |steps| && ValidRun(p, cfg, start, steps[..i]) ::
           LookedInVain(p, cfg, start, steps, i, id)
  {
    RunProjects(p, cfg, start, steps);
    RunFits(p, cfg, start, steps);
    LeaseDelivery.DeliveriesAccounted(cfg, AllDeliverySteps(p, cfg, start, steps), id);
    if L.Times(Final(p, cfg, start, steps).delivery.effectless, id) > 0 {
      var i := NoDeletionMeansNothingToDelete(p, cfg, start, steps, id);
    }
  }
}
