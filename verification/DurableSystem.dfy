/**
 * The dispatcher, the other writers, the outbox workers and the staged objects as one system:
 * commits put messages into the outbox the workers lease from, and the retention worker reads a
 * staged object, lets go of the transaction, and deletes the object's bytes with no lock held.
 */
module DurableSystem {
  import opened Common
  import opened EventContracts
  import opened Outbox
  import opened StagedObjects
  import opened Dispatcher
  import opened DispatchLog
  import D = DispatchProtocol
  import L = LeaseProtocol
  import LeaseInvariants

  /**
   * `targets` holds the storage key a retention worker has read and is about to delete,
   * `deleted` every key whose bytes a retention worker has deleted.
   */
  datatype System = System(
    commands: D.State,
    delivery: L.State,
    targets: map<L.WorkerId, string>,
    deleted: set<string>)

  datatype Step =
    | Command(command: D.Step)
    | Deliver(move: L.Step)
    | Look(w: L.WorkerId, target: RetentionTarget)
    | DeleteBytes(w: L.WorkerId)

  function Init(start: Db, cfg: L.Config): System {
    System(D.Init(start), L.Init(cfg), map[], {})
  }

  /** The messages a step of the dispatcher, or of other code, commits. */
  datatype Batch = Batch(ids: seq<MessageId>, rows: seq<Row>)

  ghost predicate Commits(p: Platform, s: D.State, step: D.Step)
    requires D.Enabled(p, s, step)
  {
    step.CommitTx? && Admissible(p, s.db, s.txs[step.t].phase.outcome, D.UsedChoice(s.txs[step.t]))
  }

  ghost predicate Writes(p: Platform, s: D.State, step: D.Step) {
    step.WriteElsewhere? && OtherWriteAllowed(p, s.db, step.write)
  }

  function BatchOf(tx: D.Tx): (b: Batch)
    requires tx.phase.Executed?
    ensures |b.ids| == |b.rows|
  {
    var events := tx.phase.outcome.events;
    Batch(MessageIds(D.UsedChoice(tx), |events|), MessageRows(tx.req, events, D.UsedChoice(tx), |events|))
  }

  ghost function NewMessages(p: Platform, s: D.State, step: D.Step): (b: Batch)
    requires D.Enabled(p, s, step)
    ensures |b.ids| == |b.rows|
  {
    if Commits(p, s, step) then BatchOf(s.txs[step.t])
    else if Writes(p, s, step) then Batch(step.write.ids, step.write.rows)
    else Batch([], [])
  }

  function InsertAll(s: L.State, b: Batch): L.State
    requires |b.ids| == |b.rows|
  {
    s.(rows := AddAll(s.rows, b.ids, b.rows))
  }

  // ---- The retention worker outside its transactions ----

  datatype Found = Answered(answer: Answer) | Deletable(storageKey: string)

  /** What the worker reads of the object its message names. */
  function LookUp(roots: Roots, target: RetentionTarget): Found {
    if target.objectId !in roots || !roots[target.objectId].Staged? then Answered(ObjectMissing)
    else
      var o := roots[target.objectId].row;
      if o.identity.tenant != target.tenant then Answered(ObjectMissing)
      else if o.state in DELETABLE then Deletable(o.identity.storageKey)
      else Answered(ObjectKept)
  }

  predicate IsRetention(cfg: L.Config, w: L.WorkerId) {
    w in cfg && cfg[w].kind == Retention
  }

  /** The worker has read a message that names this object, and has not chosen a deletion yet. */
  ghost predicate MayLook(cfg: L.Config, s: System, w: L.WorkerId, target: RetentionTarget) {
    && IsRetention(cfg, w) && w !in s.targets && L.Busy(s.delivery, w) && s.delivery.workers[w].phase.Outward?
    && L.Head(s.delivery, w) in s.delivery.rows
    && RetentionTargetOf(s.delivery.rows[L.Head(s.delivery, w)].payload) == Some(target)
  }

  /** A retention worker answers for a deletion only after choosing it, any other worker freely. */
  ghost predicate MayDeliver(cfg: L.Config, s: System, move: L.Step) {
    match move
    case Insert(_, _) => false
    case Answer(w, answer) =>
      IsRetention(cfg, w) ==>
        && w in s.targets && (answer.Returned? || answer.Raised?)
        && (answer.Returned? ==> s.targets[w] in s.deleted)
    case _ => true
  }

  ghost predicate Enabled(p: Platform, cfg: L.Config, s: System, step: Step) {
    match step
    case Command(command) => D.Enabled(p, s.commands, command)
    case Deliver(move) => L.Enabled(cfg, s.delivery, move) && MayDeliver(cfg, s, move)
    case Look(w, target) => MayLook(cfg, s, w, target)
    case DeleteBytes(w) => w in s.targets
  }

  /** A worker that has answered or crashed is no longer about to delete anything. */
  function TargetsAfter(targets: map<L.WorkerId, string>, move: L.Step): map<L.WorkerId, string> {
    match move
    case Answer(w, _) => targets - {w}
    case Crash(w) => targets - {w}
    case _ => targets
  }

  function LookAt(cfg: L.Config, s: System, w: L.WorkerId, found: Found): System
    requires L.ValidConfig(cfg) && (found.Answered? ==> L.Enabled(cfg, s.delivery, L.Answer(w, found.answer)))
  {
    match found
    case Answered(answer) => s.(delivery := L.Next(cfg, s.delivery, L.Answer(w, answer)))
    case Deletable(key) => s.(targets := s.targets[w := key])
  }

  ghost function Next(p: Platform, cfg: L.Config, s: System, step: Step): System
    requires L.ValidConfig(cfg) && Enabled(p, cfg, s, step)
  {
    match step
    case Command(command) =>
      s.(commands := D.Next(p, s.commands, command),
         delivery := InsertAll(s.delivery, NewMessages(p, s.commands, command)))
    case Deliver(move) =>
      s.(delivery := L.Next(cfg, s.delivery, move), targets := TargetsAfter(s.targets, move))
    case Look(w, target) => LookAt(cfg, s, w, LookUp(s.commands.db.roots, target))
    case DeleteBytes(w) => s.(deleted := s.deleted + {s.targets[w]})
  }

  ghost predicate ValidRun(p: Platform, cfg: L.Config, start: Db, steps: seq<Step>)
    requires L.ValidConfig(cfg)
    decreases |steps|, 0
  {
    steps == [] || (
      var before := steps[..|steps| - 1];
      ValidRun(p, cfg, start, before) && Enabled(p, cfg, Final(p, cfg, start, before), steps[|steps| - 1]))
  }

  ghost function Final(p: Platform, cfg: L.Config, start: Db, steps: seq<Step>): System
    requires L.ValidConfig(cfg) && ValidRun(p, cfg, start, steps)
    decreases |steps|, 1
  {
    if steps == [] then Init(start, cfg)
    else Next(p, cfg, Final(p, cfg, start, steps[..|steps| - 1]), steps[|steps| - 1])
  }

  // ---- The system projects onto the dispatcher and onto the workers ----

  ghost function CommandSteps(steps: seq<Step>): seq<D.Step> {
    if steps == [] then []
    else
      CommandSteps(steps[..|steps| - 1])
      + match steps[|steps| - 1] case Command(c) => [c] case _ => []
  }

  function Inserts(b: Batch): seq<L.Step>
    requires |b.ids| == |b.rows|
  {
    seq(|b.ids|, i requires 0 <= i < |b.ids| => L.Insert(b.ids[i], b.rows[i]))
  }

  function LookSteps(w: L.WorkerId, found: Found): seq<L.Step> {
    match found
    case Answered(answer) => [L.Answer(w, answer)]
    case Deletable(_) => []
  }

  /** What one step of the system looks like to the workers. */
  ghost function DeliverySteps(p: Platform, cfg: L.Config, s: System, step: Step): seq<L.Step>
    requires Enabled(p, cfg, s, step)
  {
    match step
    case Command(command) => Inserts(NewMessages(p, s.commands, command))
    case Deliver(move) => [move]
    case Look(w, target) => LookSteps(w, LookUp(s.commands.db.roots, target))
    case DeleteBytes(_) => []
  }

  ghost function AllDeliverySteps(p: Platform, cfg: L.Config, start: Db, steps: seq<Step>): seq<L.Step>
    requires L.ValidConfig(cfg) && ValidRun(p, cfg, start, steps)
  {
    if steps == [] then []
    else
      var before := steps[..|steps| - 1];
      AllDeliverySteps(p, cfg, start, before)
      + DeliverySteps(p, cfg, Final(p, cfg, start, before), steps[|steps| - 1])
  }

  /** The messages as the dispatcher wrote them and as the workers have left them. */
  ghost predicate SameMessages(outbox: Table, rows: Table) {
    rows.Keys == outbox.Keys && forall id :: id in outbox ==> LeaseInvariants.SameMessage(outbox[id], rows[id])
  }

  // Runs of the workers

  ghost predicate FreshBatch(rows: Table, b: Batch) {
    && |b.ids| == |b.rows| && NoDuplicates(b.ids)
    && (forall i :: 0 <= i < |b.ids| ==> b.ids[i] !in rows)
    && (forall i :: 0 <= i < |b.rows| ==> Fresh(b.rows[i]))
  }

  function Butlast(b: Batch): Batch
    requires |b.ids| == |b.rows| > 0
  {
    Batch(b.ids[..|b.ids| - 1], b.rows[..|b.rows| - 1])
  }

  lemma InsertLast(cfg: L.Config, s: L.State, b: Batch)
    requires L.ValidConfig(cfg) && FreshBatch(s.rows, b) && b.ids != []
    ensures FreshBatch(s.rows, Butlast(b))
    ensures var n := |b.ids| - 1;
      var move := L.Insert(b.ids[n], b.rows[n]);
      && L.Enabled(cfg, InsertAll(s, Butlast(b)), move)
      && L.Next(cfg, InsertAll(s, Butlast(b)), move) == InsertAll(s, b)
      && Inserts(b) == Inserts(Butlast(b)) + [move]
  {
    AddAllKeys(s.rows, Butlast(b).ids, Butlast(b).rows);
  }

  lemma {:induction false} InsertRun(cfg: L.Config, run: seq<L.Step>, b: Batch)
    requires L.ValidConfig(cfg) && L.ValidRun(cfg, run) && FreshBatch(L.Final(cfg, run).rows, b)
    ensures L.ValidRun(cfg, run + Inserts(b)) && L.Final(cfg, run + Inserts(b)) == InsertAll(L.Final(cfg, run), b)
    decreases |b.ids|
  {
    if b.ids == [] {
      assert run + Inserts(b) == run;
    } else {
      var n := |b.ids| - 1;
      var move := L.Insert(b.ids[n], b.rows[n]);
      InsertLast(cfg, L.Final(cfg, run), b);
      InsertRun(cfg, run, Butlast(b));
      LeaseInvariants.ExtendRun(cfg, run + Inserts(Butlast(b)), move);
      assert run + Inserts(b) == run + Inserts(Butlast(b)) + [move];
    }
  }

  lemma BatchRow(tx: D.Tx, i: nat)
    requires tx.phase.Executed? && i < |BatchOf(tx).ids|
    ensures BatchOf(tx).ids[i] == tx.choice.messageId(i) && Fresh(BatchOf(tx).rows[i])
  {
    WrittenAt(tx.req, tx.phase.outcome.events, D.UsedChoice(tx), |tx.phase.outcome.events|, i);
  }

  lemma BatchIsFresh(db: Db, tx: D.Tx, rows: Table)
    requires tx.phase.Executed? && FreshIds(db, D.UsedChoice(tx), |tx.phase.outcome.events|)
    requires rows.Keys == db.outbox.Keys
    ensures FreshBatch(rows, BatchOf(tx))
  {
    forall i | 0 <= i < |BatchOf(tx).ids|
      ensures BatchOf(tx).ids[i] == tx.choice.messageId(i) && Fresh(BatchOf(tx).rows[i])
    {
      BatchRow(tx, i);
    }
  }

  // What one step does to the messages

  lemma CommandOutbox(p: Platform, s: D.State, step: D.Step)
    requires D.Enabled(p, s, step)
    ensures var b := NewMessages(p, s, step); D.Next(p, s, step).db.outbox == AddAll(s.db.outbox, b.ids, b.rows)
  {
  }

  lemma SameMessagesAdd(outbox: Table, rows: Table, b: Batch)
    requires SameMessages(outbox, rows) && |b.ids| == |b.rows| && NoDuplicates(b.ids)
    ensures SameMessages(AddAll(outbox, b.ids, b.rows), AddAll(rows, b.ids, b.rows))
  {
    AddAllKeys(outbox, b.ids, b.rows);
    AddAllKeys(rows, b.ids, b.rows);
    forall id | id in outbox || id in b.ids
      ensures LeaseInvariants.SameMessage(AddAll(outbox, b.ids, b.rows)[id], AddAll(rows, b.ids, b.rows)[id])
    {
      if id in b.ids {
        var i :| 0 <= i < |b.ids| && b.ids[i] == id;
        AddAllAt(outbox, b.ids, b.rows, i);
        AddAllAt(rows, b.ids, b.rows, i);
      }
    }
  }

  lemma SameMessagesLater(outbox: Table, rows: Table, rows': Table)
    requires SameMessages(outbox, rows) && LeaseInvariants.TableLater(rows, rows') && rows'.Keys == rows.Keys
    ensures SameMessages(outbox, rows')
  {
  }

  lemma NewMessagesFresh(p: Platform, s: D.State, step: D.Step, rows: Table)
    requires D.Enabled(p, s, step) && rows.Keys == s.db.outbox.Keys
    ensures FreshBatch(rows, NewMessages(p, s, step))
  {
    if Commits(p, s, step) {
      BatchIsFresh(s.db, s.txs[step.t], rows);
    }
  }

  // The projection

  ghost predicate Projects(p: Platform, cfg: L.Config, start: Db, steps: seq<Step>)
    requires L.ValidConfig(cfg) && ValidRun(p, cfg, start, steps)
  {
    var s, run := Final(p, cfg, start, steps), AllDeliverySteps(p, cfg, start, steps);
    && D.ValidRun(p, start, CommandSteps(steps)) && D.Final(p, start, CommandSteps(steps)) == s.commands
    && L.ValidRun(cfg, run) && L.Final(cfg, run) == s.delivery
    && SameMessages(s.commands.db.outbox, s.delivery.rows)
  }

  lemma {:induction false} MoveProjects(cfg: L.Config, run: seq<L.Step>, move: L.Step, outbox: Table)
    requires L.ValidConfig(cfg) && L.ValidRun(cfg, run) && SameMessages(outbox, L.Final(cfg, run).rows)
    requires L.Enabled(cfg, L.Final(cfg, run), move) && !move.Insert?
    ensures L.ValidRun(cfg, run + [move]) && L.Final(cfg, run + [move]) == L.Next(cfg, L.Final(cfg, run), move)
    ensures SameMessages(outbox, L.Next(cfg, L.Final(cfg, run), move).rows)
  {
    var s := L.Final(cfg, run);
    LeaseInvariants.ExtendRun(cfg, run, move);
    LeaseInvariants.RunSound(cfg, run);
    LeaseInvariants.StepTable(cfg, s, move);
    LeaseInvariants.StepKeys(cfg, s, move);
    SameMessagesLater(outbox, s.rows, L.Next(cfg, s, move).rows);
  }

  lemma {:induction false} CommandProjects(
    p: Platform, cfg: L.Config, start: Db, run: seq<D.Step>, deliveries: seq<L.Step>, step: D.Step)
    requires L.ValidConfig(cfg) && D.ValidRun(p, start, run) && L.ValidRun(cfg, deliveries)
    requires SameMessages(D.Final(p, start, run).db.outbox, L.Final(cfg, deliveries).rows)
    requires D.Enabled(p, D.Final(p, start, run), step)
    ensures var s, b := D.Final(p, start, run), NewMessages(p, D.Final(p, start, run), step);
      && D.ValidRun(p, start, run + [step]) && D.Final(p, start, run + [step]) == D.Next(p, s, step)
      && L.ValidRun(cfg, deliveries + Inserts(b))
      && L.Final(cfg, deliveries + Inserts(b)) == InsertAll(L.Final(cfg, deliveries), b)
      && SameMessages(D.Next(p, s, step).db.outbox, InsertAll(L.Final(cfg, deliveries), b).rows)
  {
    var s := D.Final(p, start, run);
    assert (run + [step])[..|run|] == run;
    NewMessagesFresh(p, s, step, L.Final(cfg, deliveries).rows);
    InsertRun(cfg, deliveries, NewMessages(p, s, step));
    CommandOutbox(p, s, step);
    SameMessagesAdd(s.db.outbox, L.Final(cfg, deliveries).rows, NewMessages(p, s, step));
  }

  lemma {:induction false} LookProjects(cfg: L.Config, s: System, w: L.WorkerId, run: seq<L.Step>, found: Found)
    requires L.ValidConfig(cfg) && L.ValidRun(cfg, run) && L.Final(cfg, run) == s.delivery
    requires SameMessages(s.commands.db.outbox, s.delivery.rows)
    requires found.Answered? ==> L.Enabled(cfg, s.delivery, L.Answer(w, found.answer))
    ensures var s', run' := LookAt(cfg, s, w, found), run + LookSteps(w, found);
      && s'.commands == s.commands && L.ValidRun(cfg, run') && L.Final(cfg, run') == s'.delivery
      && SameMessages(s.commands.db.outbox, s'.delivery.rows)
  {
    assert run + [] == run;
    match found
    case Answered(answer) => MoveProjects(cfg, run, L.Answer(w, answer), s.commands.db.outbox);
    case Deletable(_) =>
  }

  lemma StepProjects(p: Platform, cfg: L.Config, start: Db, s: System, deliveries: seq<L.Step>, step: Step)
    requires L.ValidConfig(cfg) && L.ValidRun(cfg, deliveries) && L.Final(cfg, deliveries) == s.delivery
    requires SameMessages(s.commands.db.outbox, s.delivery.rows) && Enabled(p, cfg, s, step) && !step.Command?
    ensures var s', deliveries' := Next(p, cfg, s, step), deliveries + DeliverySteps(p, cfg, s, step);
      && s'.commands == s.commands && L.ValidRun(cfg, deliveries') && L.Final(cfg, deliveries') == s'.delivery
      && SameMessages(s.commands.db.outbox, s'.delivery.rows)
  {
    match step
    case Deliver(move) => MoveProjects(cfg, deliveries, move, s.commands.db.outbox);
    case Look(w, target) => LookProjects(cfg, s, w, deliveries, LookUp(s.commands.db.roots, target));
    case DeleteBytes(_) => assert deliveries + [] == deliveries;
  }

  /**
   * Every run of the system is a run of the dispatcher and a run of the workers, whose table
   * holds the messages that were committed, by whichever code, and no others. So whatever holds of
   * all their runs holds here.
   */
  lemma {:induction false} RunProjects(p: Platform, cfg: L.Config, start: Db, steps: seq<Step>)
    requires L.ValidConfig(cfg) && ValidRun(p, cfg, start, steps) && Empty(start)
    ensures Projects(p, cfg, start, steps)
    decreases |steps|
  {
    if steps != [] {
      var before, step := steps[..|steps| - 1], steps[|steps| - 1];
      var s := Final(p, cfg, start, before);
      var run, deliveries := CommandSteps(before), AllDeliverySteps(p, cfg, start, before);
      RunProjects(p, cfg, start, before);
      if step.Command? {
        CommandProjects(p, cfg, start, run, deliveries, step.command);
      } else {
        assert run + [] == run;
        StepProjects(p, cfg, start, s, deliveries, step);
      }
    }
  }
}
