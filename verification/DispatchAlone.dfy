/**
 * A command that nothing else gets in the way of: from every state in which no transaction is
 * open, the protocol's steps take it to the reply and the tables of one dispatch on its own.
 */
module DispatchAlone {
  import opened Common
  import opened Json
  import opened CommandRequests
  import opened StagedObjects
  import opened Dispatcher
  import opened DispatchProtocol
  import opened DispatchCallers

  lemma {:induction false} OneMore(p: Platform, start: Db, steps: seq<Step>, step: Step)
    requires ValidRun(p, start, steps) && Enabled(p, Final(p, start, steps), step)
    ensures ValidRun(p, start, steps + [step])
    ensures Final(p, start, steps + [step]) == Next(p, Final(p, start, steps), step)
  {
    assert (steps + [step])[..|steps|] == steps;
  }

  /** All transactions but this one have ended. */
  ghost predicate AllEnded(s: State, t: TxId) {
    forall u :: u in s.txs && u != t ==> s.txs[u].phase.Ended?
  }

  /** The handler is done after just these looks. */
  ghost predicate EndsAfter(p: Platform, req: Request, roots: Roots, told: nat -> Json, looks: nat)
    requires req.command.commandType in p.handlers
  {
    var seen := Observed(p, req, roots, told, looks);
    |seen| == looks && NextOf(p, req, seen).Done?
  }

  lemma NotBefore(p: Platform, req: Request, roots: Roots, told: nat -> Json, n: nat, looks: nat)
    requires req.command.commandType in p.handlers && EndsAfter(p, req, roots, told, looks) && n < looks
    ensures |Observed(p, req, roots, told, n)| == n && !NextOf(p, req, Observed(p, req, roots, told, n)).Done?
    decreases looks - n
  {
    AtMost(p, req, roots, told, n);
    AtMost(p, req, roots, told, n + 1);
    if n + 1 < looks {
      NotBefore(p, req, roots, told, n + 1, looks);
    }
  }

  lemma {:induction false} AtMost(p: Platform, req: Request, roots: Roots, told: nat -> Json, n: nat)
    requires req.command.commandType in p.handlers
    ensures |Observed(p, req, roots, told, n)| <= n
  {
    if n > 0 {
      AtMost(p, req, roots, told, n - 1);
    }
  }

  lemma NobodyHolds(s: State, t: TxId)
    requires AllEnded(s, t)
    ensures forall id :: !LockedByOther(s, t, id)
  {
  }

  /** The transaction is alone, at its handler, and has looked this many times. */
  ghost predicate HasLooked(p: Platform, s: State, t: TxId, tx: Tx, db: Db, n: nat) {
    && s.db == db && AllEnded(s, t) && t in s.txs && Handled(p, tx)
    && s.txs[t] == tx.(phase := Inserted(Observed(p, tx.req, db.roots, tx.choice.told, n)))
  }

  lemma OneLook(p: Platform, s: State, t: TxId, tx: Tx, db: Db, n: nat)
    requires HasLooked(p, s, t, tx, db, n) && n < tx.choice.looks
    requires EndsAfter(p, tx.req, db.roots, tx.choice.told, tx.choice.looks)
    ensures Enabled(p, s, Look(t)) && HasLooked(p, Next(p, s, Look(t)), t, tx, db, n + 1)
  {
    NotBefore(p, tx.req, db.roots, tx.choice.told, n, tx.choice.looks);
    NobodyHolds(s, t);
  }

  /** The handler takes its remaining looks one by one. */
  lemma {:induction false} LooksAlone(p: Platform, start: Db, steps: seq<Step>, t: TxId, tx: Tx, db: Db, n: nat)
    returns (run: seq<Step>)
    requires ValidRun(p, start, steps) && HasLooked(p, Final(p, start, steps), t, tx, db, n) && n <= tx.choice.looks
    requires EndsAfter(p, tx.req, db.roots, tx.choice.told, tx.choice.looks)
    ensures ValidRun(p, start, run) && steps <= run
    ensures HasLooked(p, Final(p, start, run), t, tx, db, tx.choice.looks)
    decreases tx.choice.looks - n
  {
    run := steps;
    if n < tx.choice.looks {
      OneLook(p, Final(p, start, steps), t, tx, db, n);
      OneMore(p, start, steps, Look(t));
      run := LooksAlone(p, start, steps + [Look(t)], t, tx, db, n + 1);
    }
  }

  /** The handler ends, and its outcome, if it has one, is committed. */
  lemma {:induction false} EndsAlone(p: Platform, start: Db, steps: seq<Step>, t: TxId) returns (run: seq<Step>)
    requires ValidRun(p, start, steps) && t in Final(p, start, steps).txs
    requires var s, tx := Final(p, start, steps), Final(p, start, steps).txs[t];
      && Handled(p, tx) && tx.phase.Inserted? && |tx.phase.seen| == tx.choice.looks
      && tx.phase.seen == Observed(p, tx.req, s.db.roots, tx.choice.told, tx.choice.looks)
      && NextOfTx(p, tx).Done?
    ensures ValidRun(p, start, run) && steps <= run
    ensures var s, s' := Final(p, start, steps), Final(p, start, run);
      var (db, reply) := ExecuteAndCommit(p, s.db, s.txs[t].req, s.txs[t].choice);
      s'.db == db && Answered(s', t, reply)
  {
    var tx := Final(p, start, steps).txs[t];
    assert tx.choice.(looks := |tx.phase.seen|) == tx.choice;
    OneMore(p, start, steps, Finish(t));
    run := steps + [Finish(t)];
    if Final(p, start, run).txs[t].phase.Executed? {
      OneMore(p, start, run, CommitTx(t));
      run := run + [CommitTx(t)];
    }
  }

  /** From the inserted receipt to the reply. */
  lemma {:induction false} HandledAlone(p: Platform, start: Db, steps: seq<Step>, t: TxId) returns (run: seq<Step>)
    requires ValidRun(p, start, steps) && t in Final(p, start, steps).txs && AllEnded(Final(p, start, steps), t)
    requires var s, tx := Final(p, start, steps), Final(p, start, steps).txs[t];
      && Handled(p, tx) && tx.phase == Inserted([])
      && EndsAfter(p, tx.req, s.db.roots, tx.choice.told, tx.choice.looks)
    ensures ValidRun(p, start, run) && steps <= run
    ensures var s, s' := Final(p, start, steps), Final(p, start, run);
      var (db, reply) := ExecuteAndCommit(p, s.db, s.txs[t].req, s.txs[t].choice);
      s'.db == db && Answered(s', t, reply)
  {
    var s := Final(p, start, steps);
    run := LooksAlone(p, start, steps, t, s.txs[t], s.db, 0);
    run := EndsAlone(p, start, run, t);
  }

  /** The savepoint of a command whose key is not on record. */
  lemma {:induction false} SavepointAlone(p: Platform, start: Db, steps: seq<Step>, t: TxId, tx: Tx, db: Db)
    returns (run: seq<Step>)
    requires ValidRun(p, start, steps) && AllEnded(Final(p, start, steps), t) && t in Final(p, start, steps).txs
    requires Final(p, start, steps).txs[t] == tx && tx.phase.Missed? && Final(p, start, steps).db == db
    requires KeyOf(tx.req) !in db.receipts
    ensures ValidRun(p, start, run) && steps <= run && AllEnded(Final(p, start, run), t)
    ensures var s' := Final(p, start, run);
      && s'.db == db && t in s'.txs
      && if Taken(db, tx.req) then Answered(s', t, Err(CollisionUnresolved))
         else s'.txs[t] == tx.(phase := Inserted([]))
  {
    OneMore(p, start, steps, Insert(t));
    run := steps + [Insert(t)];
    if Taken(db, tx.req) {
      OneMore(p, start, run, Refind(t));
      run := run + [Refind(t)];
    }
  }

  /** The lookup of a command. */
  lemma {:induction false} LookupAlone(
    p: Platform, start: Db, steps: seq<Step>, t: TxId, req: Request, choice: Choice) returns (run: seq<Step>)
    requires ValidRun(p, start, steps) && AllEnded(Final(p, start, steps), t) && t !in Final(p, start, steps).txs
    requires !choice.aborted && req.command.commandType in p.handlers
    ensures ValidRun(p, start, run) && steps <= run && AllEnded(Final(p, start, run), t)
    ensures var s, s' := Final(p, start, steps), Final(p, start, run);
      && s'.db == s.db && t in s'.txs
      && if KeyOf(req) in s.db.receipts then
           Answered(s', t, Resolve(s.db.receipts[KeyOf(req)], RequestText(req.command)))
         else s'.txs[t] == Tx(req, choice, Missed)
  {
    OneMore(p, start, steps, Begin(t, req, choice));
    run := steps + [Begin(t, req, choice)];
    OneMore(p, start, run, Lookup(t));
    run := run + [Lookup(t)];
  }

  /** The lookup, and the savepoint if it finds nothing. */
  lemma {:induction false} ReachesHandler(
    p: Platform, start: Db, steps: seq<Step>, t: TxId, req: Request, choice: Choice) returns (run: seq<Step>)
    requires ValidRun(p, start, steps) && AllEnded(Final(p, start, steps), t) && t !in Final(p, start, steps).txs
    requires !choice.aborted && req.command.commandType in p.handlers
    ensures ValidRun(p, start, run) && steps <= run && AllEnded(Final(p, start, run), t)
    ensures var s, s' := Final(p, start, steps), Final(p, start, run);
      && s'.db == s.db && t in s'.txs
      && if Taken(s.db, req) then Answered(s', t, Dispatched(p, s.db, req, choice).1)
         else s'.txs[t] == Tx(req, choice, Inserted([]))
  {
    var db := Final(p, start, steps).db;
    run := LookupAlone(p, start, steps, t, req, choice);
    if KeyOf(req) !in db.receipts {
      run := SavepointAlone(p, start, run, t, Tx(req, choice, Missed), db);
    }
  }

  /**
   * Every dispatch on its own is a run of the protocol: whatever happened before, a command that
   * comes when no transaction is open can go to its end, with the reply and the tables of
   * `Dispatched`.
   */
  lemma {:induction false} DispatchedAlone(
    p: Platform, start: Db, steps: seq<Step>, t: TxId, req: Request, choice: Choice) returns (run: seq<Step>)
    requires ValidRun(p, start, steps) && AllEnded(Final(p, start, steps), t) && t !in Final(p, start, steps).txs
    requires !choice.aborted
    requires req.command.commandType in p.handlers ==>
               EndsAfter(p, req, Final(p, start, steps).db.roots, choice.told, choice.looks)
    ensures ValidRun(p, start, run) && steps <= run
    ensures var s, s' := Final(p, start, steps), Final(p, start, run);
      var (db, reply) := Dispatched(p, s.db, req, choice);
      s'.db == db && Answered(s', t, reply)
  {
    if req.command.commandType !in p.handlers {
      OneMore(p, start, steps, Begin(t, req, choice));
      run := steps + [Begin(t, req, choice)];
    } else {
      run := ReachesHandler(p, start, steps, t, req, choice);
      if !Taken(Final(p, start, steps).db, req) {
        run := HandledAlone(p, start, run, t);
      }
    }
  }
}
