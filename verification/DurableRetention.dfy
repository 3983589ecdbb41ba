/** Deleting the bytes of staged objects without a lock is safe. */
module DurableRetention {
  import opened Uuids
  import opened EventContracts
  import opened StagedObjects
  import opened Dispatcher
  import opened DurableSystem
  import D = DispatchProtocol
  import L = LeaseProtocol

  /** Some object under this key is in a state from which it cannot come back. */
  ghost predicate Doomed(roots: Roots, key: string) {
    exists id | id in roots :: DoomedBy(roots[id], key)
  }

  ghost predicate DoomedBy(root: Root, key: string) {
    root.Staged? && root.row.state in DELETABLE && root.row.identity.storageKey == key
  }

  lemma DoomedStays(roots: Roots, roots': Roots, key: string)
    requires RootsLater(roots, roots') && Doomed(roots, key)
    ensures Doomed(roots', key)
  {
    var id :| id in roots && DoomedBy(roots[id], key);
    assert DoomedBy(roots'[id], key);
  }

  lemma LookUpDoomed(roots: Roots, target: RetentionTarget)
    requires LookUp(roots, target).Deletable?
    ensures Doomed(roots, LookUp(roots, target).storageKey)
  {
    assert DoomedBy(roots[target.objectId], LookUp(roots, target).storageKey);
  }

  lemma CommandRoots(p: Platform, s: D.State, step: D.Step)
    requires D.Enabled(p, s, step) && StorageKeysUnique(s.db.roots)
    ensures StorageKeysUnique(D.Next(p, s, step).db.roots) && RootsLater(s.db.roots, D.Next(p, s, step).db.roots)
  {
    if Commits(p, s, step) {
      WritesAreLater(s.db.roots, s.db.roots, s.txs[step.t].phase.outcome.writes);
    }
    if Writes(p, s, step) {
      WritesAreLater(s.db.roots, s.db.roots, step.write.writes);
    }
  }

  ghost predicate DeletionsSafe(s: System) {
    && StorageKeysUnique(s.commands.db.roots)
    && (forall w :: w in s.targets ==> Doomed(s.commands.db.roots, s.targets[w]))
    && (forall key :: key in s.deleted ==> Doomed(s.commands.db.roots, key))
  }

  lemma CommandKeepsSafe(p: Platform, s: System, s': System, step: D.Step)
    requires DeletionsSafe(s) && D.Enabled(p, s.commands, step)
    requires s'.commands == D.Next(p, s.commands, step) && s'.targets == s.targets && s'.deleted == s.deleted
    ensures DeletionsSafe(s')
  {
    CommandRoots(p, s.commands, step);
    forall key | Doomed(s.commands.db.roots, key) ensures Doomed(s'.commands.db.roots, key) {
      DoomedStays(s.commands.db.roots, s'.commands.db.roots, key);
    }
  }

  lemma LookKeepsSafe(cfg: L.Config, s: System, w: L.WorkerId, target: RetentionTarget)
    requires L.ValidConfig(cfg) && DeletionsSafe(s)
    requires var found := LookUp(s.commands.db.roots, target);
      found.Answered? ==> L.Enabled(cfg, s.delivery, L.Answer(w, found.answer))
    ensures DeletionsSafe(LookAt(cfg, s, w, LookUp(s.commands.db.roots, target)))
  {
    if LookUp(s.commands.db.roots, target).Deletable? {
      LookUpDoomed(s.commands.db.roots, target);
    }
  }

  lemma StepKeepsSafe(p: Platform, cfg: L.Config, s: System, step: Step)
    requires L.ValidConfig(cfg) && Enabled(p, cfg, s, step) && DeletionsSafe(s)
    ensures DeletionsSafe(Next(p, cfg, s, step))
  {
    match step
    case Command(command) => CommandKeepsSafe(p, s, Next(p, cfg, s, step), command);
    case Deliver(_) =>
    case Look(w, target) => LookKeepsSafe(cfg, s, w, target);
    case DeleteBytes(_) =>
  }

  lemma {:induction false} RunKeepsSafe(p: Platform, cfg: L.Config, start: Db, steps: seq<Step>)
    requires L.ValidConfig(cfg) && ValidRun(p, cfg, start, steps) && StorageKeysUnique(start.roots)
    ensures DeletionsSafe(Final(p, cfg, start, steps))
    decreases |steps|
  {
    if steps != [] {
      var before := steps[..|steps| - 1];
      RunKeepsSafe(p, cfg, start, before);
      StepKeepsSafe(p, cfg, Final(p, cfg, start, before), steps[|steps| - 1]);
    }
  }

  /**
   * However sweeps, uploads, consumers and retention workers interleave, and however long a
   * worker waits between its lookup and its deletion: no object outside REJECTED and EXPIRED,
   * CONSUMED ones in particular, ever finds its bytes deleted or about to be deleted.
   */
  lemma {:induction false} LiveObjectsKeepTheirBytes(p: Platform, cfg: L.Config, start: Db, steps: seq<Step>, id: Uuid)
    requires L.ValidConfig(cfg) && ValidRun(p, cfg, start, steps) && StorageKeysUnique(start.roots)
    requires var roots := Final(p, cfg, start, steps).commands.db.roots;
      id in roots && roots[id].Staged? && roots[id].row.state !in DELETABLE
    ensures var s := Final(p, cfg, start, steps);
      var key := s.commands.db.roots[id].row.identity.storageKey;
      key !in s.deleted && forall w :: w in s.targets ==> s.targets[w] != key
  {
    RunKeepsSafe(p, cfg, start, steps);
    var roots := Final(p, cfg, start, steps).commands.db.roots;
    var key := roots[id].row.identity.storageKey;
    assert !Doomed(roots, key);
  }
}
