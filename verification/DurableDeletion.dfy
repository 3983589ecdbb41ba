/**
 * What the retention worker deletes and what it leaves, over runs of the whole system: a message
 * that names a rejected or expired object leads to the deletion of that object's bytes, and a
 * message published without a deletion named no such object when the worker looked.
 */
module DurableDeletion {
  import opened EventContracts
  import opened RetryPolicy
  import opened Outbox
  import opened StagedObjects
  import opened Dispatcher
  import opened DurableSystem
  import L = LeaseProtocol

  // ---- What one look decides ----

  /** The object the message names, in its own tenant. */
  ghost predicate Names(roots: Roots, target: RetentionTarget) {
    && target.objectId in roots && roots[target.objectId].Staged?
    && roots[target.objectId].row.identity.tenant == target.tenant
  }

  /** Its bytes are to go: nobody can consume it any more. */
  ghost predicate MustGo(roots: Roots, target: RetentionTarget) {
    Names(roots, target)
    && (roots[target.objectId].row.state == Rejected || roots[target.objectId].row.state == ObjectState.Expired)
  }

  /** It is on its way to a consumption, or consumed. */
  ghost predicate MayStillBeUsed(roots: Roots, target: RetentionTarget) {
    Names(roots, target)
    && (match roots[target.objectId].row.state
        case AwaitingUpload => true
        case Uploading => true
        case Quarantined => true
        case Clean => true
        case Consumed => true
        case _ => false)
  }

  function KeyOfTarget(roots: Roots, target: RetentionTarget): string
    requires target.objectId in roots && roots[target.objectId].Staged?
  {
    roots[target.objectId].row.identity.storageKey
  }

  lemma FoundExactly(roots: Roots, target: RetentionTarget)
    ensures MustGo(roots, target) ==> LookUp(roots, target) == Deletable(KeyOfTarget(roots, target))
    ensures !MustGo(roots, target) ==>
      LookUp(roots, target) == Answered(if MayStillBeUsed(roots, target) then ObjectKept else ObjectMissing)
  {
  }

  lemma LookedAt(cfg: L.Config, s: System, w: L.WorkerId, found: Found)
    requires L.ValidConfig(cfg) && (found.Answered? ==> L.Enabled(cfg, s.delivery, L.Answer(w, found.answer)))
    requires w in cfg && w !in s.targets
    ensures found.Deletable? ==> LookAt(cfg, s, w, found) == s.(targets := s.targets[w := found.storageKey])
    ensures found.Answered? ==>
      var s' := LookAt(cfg, s, w, found);
      && s'.targets == s.targets && w in s'.delivery.workers && s'.delivery.workers[w].Running?
      && s'.delivery.workers[w].phase == L.Decided(VerdictOf(cfg[w], found.answer), Accepted(cfg[w], found.answer))
  {
  }

  /**
   * A worker that looks is about to delete the object's key exactly if the object named exists in
   * the message's tenant and is REJECTED or EXPIRED. Otherwise it is about to publish the message:
   * as skipped if the object may still be used, as done if there is none.
   */
  lemma {:induction false} LookExactly(
    p: Platform, cfg: L.Config, s: System, w: L.WorkerId, target: RetentionTarget)
    requires L.ValidConfig(cfg) && Enabled(p, cfg, s, Look(w, target))
    ensures var s', roots := Next(p, cfg, s, Look(w, target)), s.commands.db.roots;
      && (w in s'.targets <==> MustGo(roots, target))
      && (MustGo(roots, target) ==>
            && s'.targets[w] == KeyOfTarget(roots, target) && s'.delivery == s.delivery)
      && (!MustGo(roots, target) ==>
            && w in s'.delivery.workers && s'.delivery.workers[w].Running?
            && s'.delivery.workers[w].phase ==
               L.Decided(if MayStillBeUsed(roots, target) then PublishSkipped else Verdict.Publish, false))
  {
    FoundExactly(s.commands.db.roots, target);
    LookedAt(cfg, s, w, LookUp(s.commands.db.roots, target));
  }

  // ---- A deletable object is deleted ----

  lemma {:induction false} OneMore(p: Platform, cfg: L.Config, start: Db, steps: seq<Step>, step: Step)
    requires L.ValidConfig(cfg) && ValidRun(p, cfg, start, steps) && Enabled(p, cfg, Final(p, cfg, start, steps), step)
    ensures ValidRun(p, cfg, start, steps + [step])
    ensures Final(p, cfg, start, steps + [step]) == Next(p, cfg, Final(p, cfg, start, steps), step)
  {
    assert (steps + [step])[..|steps|] == steps;
  }

  /** The worker reads its next message and looks: on to the deletion. */
  lemma {:induction false} LooksAndDeletes(
    p: Platform, cfg: L.Config, start: Db, steps: seq<Step>, w: L.WorkerId, target: RetentionTarget)
    returns (run: seq<Step>)
    requires L.ValidConfig(cfg) && ValidRun(p, cfg, start, steps)
    requires MayLook(cfg, Final(p, cfg, start, steps), w, target)
    requires MustGo(Final(p, cfg, start, steps).commands.db.roots, target)
    ensures ValidRun(p, cfg, start, run)
    ensures var s, s' := Final(p, cfg, start, steps), Final(p, cfg, start, run);
      var key := KeyOfTarget(s.commands.db.roots, target);
      s' == s.(targets := s.targets[w := key], deleted := s.deleted + {key})
  {
    var s := Final(p, cfg, start, steps);
    LookExactly(p, cfg, s, w, target);
    OneMore(p, cfg, start, steps, Look(w, target));
    run := steps + [Look(w, target)];
    OneMore(p, cfg, start, run, DeleteBytes(w));
    run := run + [DeleteBytes(w)];
  }

  /** And from the deletion to the publication. */
  lemma {:induction false} AnswersAndPublishes(
    p: Platform, cfg: L.Config, start: Db, steps: seq<Step>, w: L.WorkerId) returns (run: seq<Step>)
    requires L.ValidConfig(cfg) && ValidRun(p, cfg, start, steps)
    requires var s := Final(p, cfg, start, steps);
      && IsRetention(cfg, w) && L.Busy(s.delivery, w) && s.delivery.workers[w].phase.Outward?
      && L.Head(s.delivery, w) in s.delivery.rows && w in s.targets && s.targets[w] in s.deleted
    ensures ValidRun(p, cfg, start, run)
    ensures var s, s' := Final(p, cfg, start, steps), Final(p, cfg, start, run);
      var id := L.Head(s.delivery, w);
      && s'.deleted == s.deleted && s'.delivery.effectless == s.delivery.effectless
      && L.Times(s'.delivery.delivered, id) == L.Times(s.delivery.delivered, id) + 1
      && id in s'.delivery.rows && s'.delivery.rows[id].status == Published
  {
    var answer := Deliver(L.Answer(w, Returned(204)));
    OneMore(p, cfg, start, steps, answer);
    run := steps + [answer];
    OneMore(p, cfg, start, run, Deliver(L.Finish(w)));
    run := run + [Deliver(L.Finish(w))];
  }

  /**
   * From every reachable state in which a worker has read a message for a REJECTED or EXPIRED
   * object, it can go on to delete that object's bytes and publish the message as delivered.
   */
  lemma {:induction false} DeletableIsDeleted(
    p: Platform, cfg: L.Config, start: Db, steps: seq<Step>, w: L.WorkerId, target: RetentionTarget)
    returns (run: seq<Step>)
    requires L.ValidConfig(cfg) && ValidRun(p, cfg, start, steps)
    requires MayLook(cfg, Final(p, cfg, start, steps), w, target)
    requires MustGo(Final(p, cfg, start, steps).commands.db.roots, target)
    ensures ValidRun(p, cfg, start, run)
    ensures var s, s' := Final(p, cfg, start, steps), Final(p, cfg, start, run);
      var id := L.Head(s.delivery, w);
      && KeyOfTarget(s.commands.db.roots, target) in s'.deleted
      && s'.delivery.effectless == s.delivery.effectless
      && L.Times(s'.delivery.delivered, id) == L.Times(s.delivery.delivered, id) + 1
      && id in s'.delivery.rows && s'.delivery.rows[id].status == Published
  {
    run := LooksAndDeletes(p, cfg, start, steps, w, target);
    run := AnswersAndPublishes(p, cfg, start, run, w);
  }
}
