/** Every step of the protocol keeps its invariant. */
module DispatchSteps {
  import opened Common
  import opened Json
  import opened CommandRequests
  import opened Dispatcher
  import opened DispatchLog
  import opened StagedObjects
  import opened DispatchProtocol
  import opened DispatchInvariant

  // ---- The receipt ----

  lemma {:induction false} LookupSound(p: Platform, start: Db, s: State, t: TxId)
    requires Sound(p, start, s) && t in s.txs && s.txs[t].phase.Begun?
    ensures Sound(p, start, LookupTx(s, t))
  {
    assert TxSound(p, s.db, s.txs[t]);
    var req := s.txs[t].req;
    if KeyOf(req) in s.db.receipts {
      EndUnchanged(p, start, s, t, s.txs[t].choice, Resolve(s.db.receipts[KeyOf(req)], RequestText(req.command)));
    } else {
      MoveSound(p, start, s, t, Missed);
    }
  }

  lemma {:induction false} InsertSound(p: Platform, start: Db, s: State, t: TxId)
    requires Sound(p, start, s) && t in s.txs && s.txs[t].phase.Missed?
    requires forall u :: u in s.txs ==> !InsertWaitsFor(s, t, u)
    ensures Sound(p, start, InsertTx(s, t))
  {
    assert TxSound(p, s.db, s.txs[t]);
    if Taken(s.db, s.txs[t].req) {
      MoveSound(p, start, s, t, Collided);
    } else {
      forall u | u in s.txs && u != t ensures Apart(s.txs[t].(phase := Inserted([])), s.txs[u]) {
        assert !InsertWaitsFor(s, t, u);
      }
      MoveSound(p, start, s, t, Inserted([]));
    }
  }

  lemma {:induction false} RefindSound(p: Platform, start: Db, s: State, t: TxId)
    requires Sound(p, start, s) && t in s.txs && s.txs[t].phase.Collided?
    ensures Sound(p, start, RefindTx(s, t))
  {
    assert TxSound(p, s.db, s.txs[t]);
    var req := s.txs[t].req;
    EndUnchanged(p, start, s, t, s.txs[t].choice,
                 if KeyOf(req) in s.db.receipts then Resolve(s.db.receipts[KeyOf(req)], RequestText(req.command))
                 else Err(CollisionUnresolved));
  }

  // ---- The handler ----

  lemma LocksAfterLook(progress: Progress, roots: Roots, told: nat -> Json, seen: seq<Seen>)
    ensures LockedIds(LookOnce(progress, roots, told, seen)) ==
      LockedIds(seen) + if progress.LockRow? then {progress.id} else {}
  {
    var seen' := LookOnce(progress, roots, told, seen);
    forall id ensures id in LockedIds(seen') <==> id in LockedIds(seen) || (progress.LockRow? && id == progress.id) {
      if id in LockedIds(seen) {
        var i :| 0 <= i < |seen| && seen[i].Locked? && seen[i].id == id;
        assert seen'[i] == seen[i];
      }
      if progress.LockRow? && id == progress.id {
        assert seen'[|seen|].id == id;
      }
    }
  }

  lemma LookApart(s: State, t: TxId, seen: seq<Seen>, u: TxId)
    requires t in s.txs && u in s.txs && u != t && s.txs[t].phase.Inserted? && Apart(s.txs[t], s.txs[u])
    requires forall id :: id in LockedIds(seen) && id !in Held(s.txs[t]) ==> !LockedByOther(s, t, id)
    ensures Apart(s.txs[t].(phase := Inserted(seen)), s.txs[u])
  {
    forall id | id in LockedIds(seen) ensures id !in Held(s.txs[u]) {
      if id !in Held(s.txs[t]) {
        assert !LockedByOther(s, t, id);
      }
    }
  }

  lemma {:induction false} LookSound(p: Platform, start: Db, s: State, t: TxId)
    requires Sound(p, start, s) && t in s.txs && s.txs[t].phase.Inserted? && Handled(p, s.txs[t]) && MayLook(p, s, t)
    ensures Sound(p, start, LookTx(p, s, t))
  {
    var tx := s.txs[t];
    assert TxSound(p, s.db, tx);
    var seen := LookOnce(NextOfTx(p, tx), s.db.roots, tx.choice.told, tx.phase.seen);
    LocksAfterLook(NextOfTx(p, tx), s.db.roots, tx.choice.told, tx.phase.seen);
    forall u | u in s.txs && u != t ensures Apart(tx.(phase := Inserted(seen)), s.txs[u]) {
      assert Apart(tx, s.txs[u]);
      LookApart(s, t, seen, u);
    }
    assert |seen| == |tx.phase.seen| + 1;
    assert seen == Observed(p, tx.req, s.db.roots, tx.choice.told, |seen|);
    MoveSound(p, start, s, t, Inserted(seen));
  }

  lemma ExecutesAsSeen(p: Platform, db: Db, tx: Tx)
    requires TxSound(p, db, tx) && OwnsReceipt(tx)
    ensures Execute(p, tx.req, db.roots, UsedChoice(tx)) == ResultOfHandler(NextOfTx(p, tx), tx.phase.seen)
  {
  }

  lemma {:induction false} HandlerSound(p: Platform, start: Db, s: State, t: TxId)
    requires Sound(p, start, s) && t in s.txs && s.txs[t].phase.Inserted? && Handled(p, s.txs[t])
    requires NextOfTx(p, s.txs[t]).Done?
    ensures Sound(p, start, FinishTx(p, s, t))
  {
    var tx := s.txs[t];
    assert TxSound(p, s.db, tx);
    ExecutesAsSeen(p, s.db, tx);
    match ResultOfHandler(NextOfTx(p, tx), tx.phase.seen)
    case Err(failure) => EndUnchanged(p, start, s, t, UsedChoice(tx), Err(failure));
    case Ok(outcome) =>
      forall u | u in s.txs && u != t ensures Apart(tx.(phase := Executed(tx.phase.seen, outcome)), s.txs[u]) {
        assert Apart(tx, s.txs[u]);
      }
      MoveSound(p, start, s, t, Executed(tx.phase.seen, outcome));
  }

  // ---- Commits and other writes do not disturb the open transactions ----

  lemma LocksGrow(p: Platform, req: Request, roots: Roots, told: nat -> Json, n: nat)
    requires req.command.commandType in p.handlers && n > 0
    ensures LockedIds(Observed(p, req, roots, told, n - 1)) <= LockedIds(Observed(p, req, roots, told, n))
  {
    var seen := Observed(p, req, roots, told, n - 1);
    LocksAfterLook(NextOf(p, req, seen), roots, told, seen);
  }

  /** Rows the handler has not locked may change without any trace in what it has seen. */
  lemma {:induction false} SameView(p: Platform, req: Request, roots: Roots, roots': Roots, told: nat -> Json, n: nat)
    requires req.command.commandType in p.handlers
    requires forall id :: id in LockedIds(Observed(p, req, roots, told, n)) ==> RowAt(roots', id) == RowAt(roots, id)
    ensures Observed(p, req, roots', told, n) == Observed(p, req, roots, told, n)
  {
    if n > 0 {
      var seen := Observed(p, req, roots, told, n - 1);
      LocksGrow(p, req, roots, told, n);
      SameView(p, req, roots, roots', told, n - 1);
      LocksAfterLook(NextOf(p, req, seen), roots, told, seen);
    }
  }

  lemma StillSees(p: Platform, db: Db, db': Db, tx: Tx)
    requires Handled(p, tx) && SeesNow(p, db, tx)
    requires forall id :: id in Held(tx) ==> RowAt(db'.roots, id) == RowAt(db.roots, id)
    ensures SeesNow(p, db', tx)
  {
    SameView(p, tx.req, db.roots, db'.roots, tx.choice.told, |SeenBy(tx)|);
  }

  lemma WritesAreLocked(progress: Progress, seen: seq<Seen>, outcome: Outcome)
    requires ResultOfHandler(progress, seen) == Ok(outcome)
    ensures outcome.writes.Keys <= LockedIds(seen)
  {
  }

  lemma TakenAfter(db: Db, req: Request, outcome: Outcome, choice: Choice, other: Request)
    requires KeyOf(req) !in db.receipts
    ensures Taken(Committed(db, req, outcome, choice), other) <==> Taken(db, other) || Clash(req, other)
  {
    var r := SucceededReceipt(req, outcome, choice);
    UsedStaysUsed(db.receipts, KeyOf(req), r, other.context.tenant, other.command.commandId);
  }

  lemma BystanderSound(p: Platform, db: Db, tx: Tx, outcome: Outcome, choice: Choice, other: Tx)
    requires TxSound(p, db, tx) && tx.phase.Executed? && tx.phase.outcome == outcome
    requires TxSound(p, db, other) && Apart(tx, other)
    ensures TxSound(p, Committed(db, tx.req, outcome, choice), other)
  {
    var db' := Committed(db, tx.req, outcome, choice);
    TakenAfter(db, tx.req, outcome, choice, other.req);
    WritesAreLocked(NextOfTx(p, tx), tx.phase.seen, outcome);
    if OwnsReceipt(other) {
      StillSees(p, db, db', other);
    }
  }

  lemma {:induction false} CommitSound(p: Platform, start: Db, s: State, t: TxId)
    requires Sound(p, start, s) && t in s.txs && s.txs[t].phase.Executed?
    ensures Sound(p, start, CommitOf(p, s, t))
  {
    var tx := s.txs[t];
    var outcome, choice := tx.phase.outcome, UsedChoice(tx);
    assert TxSound(p, s.db, tx);
    ExecutesAsSeen(p, s.db, tx);
    var (db, reply) := Commit(p, s.db, tx.req, outcome, choice);
    forall u | u in s.txs && u != t ensures TxSound(p, db, s.txs[u]) {
      assert Apart(tx, s.txs[u]) && TxSound(p, s.db, s.txs[u]);
      BystanderSound(p, s.db, tx, outcome, choice, s.txs[u]);
    }
    EndSound(p, start, s, t, choice, db, reply);
  }

  lemma BystanderOfWrite(p: Platform, db: Db, w: OtherWrite, tx: Tx)
    requires TxSound(p, db, tx) && Held(tx) !! w.writes.Keys
    ensures TxSound(p, Written(p, db, w), tx)
  {
    if OwnsReceipt(tx) {
      StillSees(p, db, Written(p, db, w), tx);
    }
  }

  lemma WriteMatches(s: State, db: Db, w: OtherWrite)
    requires CallersMatch(s)
    ensures CallersMatch(s.(db := db, log := s.log + [Elsewhere(w)]))
  {
    forall t | t in s.places ensures InPlace(s.(db := db, log := s.log + [Elsewhere(w)]), t) {
      assert InPlace(s, t);
    }
  }

  lemma {:induction false} WriteSound(p: Platform, start: Db, s: State, w: OtherWrite)
    requires Sound(p, start, s) && forall u :: u in s.txs ==> Held(s.txs[u]) !! w.writes.Keys
    ensures Sound(p, start, s.(db := Written(p, s.db, w), log := s.log + [Elsewhere(w)]))
  {
    LogOne(p, start, s.log, Elsewhere(w));
    WriteMatches(s, Written(p, s.db, w), w);
    forall u | u in s.txs ensures TxSound(p, Written(p, s.db, w), s.txs[u]) {
      assert TxSound(p, s.db, s.txs[u]);
      BystanderOfWrite(p, s.db, w, s.txs[u]);
    }
  }

  lemma {:induction false} StepSound(p: Platform, start: Db, s: State, step: Step)
    requires Sound(p, start, s) && Enabled(p, s, step)
    ensures Sound(p, start, Next(p, s, step))
  {
    match step
    case Begin(t, req, choice) => BeginSound(p, start, s, t, req, choice);
    case Lookup(t) => LookupSound(p, start, s, t);
    case Insert(t) => InsertSound(p, start, s, t);
    case Refind(t) => RefindSound(p, start, s, t);
    case Look(t) => LookSound(p, start, s, t);
    case Finish(t) => HandlerSound(p, start, s, t);
    case CommitTx(t) => CommitSound(p, start, s, t);
    case Abort(t) =>
      assert TxSound(p, s.db, s.txs[t]);
      EndUnchanged(p, start, s, t, s.txs[t].choice.(aborted := true), Err(CommandFailed));
    case WriteElsewhere(w) => WriteSound(p, start, s, w);
  }

  lemma {:induction false} RunSound(p: Platform, start: Db, steps: seq<Step>)
    requires ValidRun(p, start, steps)
    ensures Sound(p, start, Final(p, start, steps))
    decreases |steps|
  {
    if steps == [] {
      assert Faithful(p, start, []) && After(p, start, []) == start;
    } else {
      RunSound(p, start, steps[..|steps| - 1]);
      StepSound(p, start, Final(p, start, steps[..|steps| - 1]), steps[|steps| - 1]);
    }
  }
}
