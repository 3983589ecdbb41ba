/**
 * What the protocol means for concurrent callers: a one-at-a-time order of decisions that
 * respects time, one commit per key, and one result for all who succeed.
 */
module DispatchCallers {
  import opened Common
  import opened Dispatcher
  import opened DispatchLog
  import opened DispatchHistory
  import opened DispatchOutcomes
  import opened DispatchProtocol
  import opened DispatchInvariant
  import opened DispatchSteps

  /**
   * Any interleaving of dispatch transactions and other writes, with crashes at any point, refines
   * the dispatcher that decides one command at a time: same tables, the same reply to each caller.
   * Each handler runs there on the rows it locked, as they are at its place, and is told again
   * what it read without a lock.
   */
  lemma {:induction false} Linearizable(p: Platform, start: Db, steps: seq<Step>)
    requires ValidRun(p, start, steps)
    ensures Linear(p, start, Final(p, start, steps)) && CallersMatch(Final(p, start, steps))
  {
    RunSound(p, start, steps);
  }

  ghost predicate Answered(s: State, t: TxId, reply: Reply) {
    t in s.txs && s.txs[t].phase == Ended(reply)
  }

  /** The place of an ended transaction in the order of decisions. */
  lemma PlaceOf(p: Platform, start: Db, s: State, t: TxId, reply: Reply) returns (k: nat)
    requires Sound(p, start, s) && Answered(s, t, reply)
    ensures k < |s.log| && t in s.places && s.places[t] == k
    ensures s.log[k].Decided? && s.log[k].req == s.txs[t].req && s.log[k].reply == reply
  {
    assert InPlace(s, t);
    k := s.places[t];
  }

  lemma CommitsApart(p: Platform, start: Db, log: seq<Entry>, i: nat, j: nat)
    requires Faithful(p, start, log) && i != j && Commits(log, i) && Commits(log, j)
    ensures !Clash(log[i].req, log[j].req)
  {
    if i < j {
      AtMostOneCommit(p, start, log, i, j);
    } else {
      AtMostOneCommit(p, start, log, j, i);
    }
  }

  /** No two transactions, however interleaved, both commit for one key or one command id. */
  lemma {:induction false} NoTwoCommits(p: Platform, start: Db, steps: seq<Step>, t: TxId, u: TxId, a: Reply, b: Reply)
    requires ValidRun(p, start, steps) && t != u
    requires Answered(Final(p, start, steps), t, a) && Answered(Final(p, start, steps), u, b)
    requires CommitReply(a) && CommitReply(b)
    ensures var s := Final(p, start, steps); !Clash(s.txs[t].req, s.txs[u].req)
  {
    RunSound(p, start, steps);
    var s := Final(p, start, steps);
    var i := PlaceOf(p, start, s, t, a);
    var j := PlaceOf(p, start, s, u, b);
    CommitsApart(p, start, s.log, i, j);
  }

  /** Concurrent callers of one key that succeed hold the same result, save for `replayed`. */
  lemma {:induction false} ConcurrentSuccessesAgree(
    p: Platform, start: Db, steps: seq<Step>, t: TxId, u: TxId, a: Reply, b: Reply)
    requires ValidRun(p, start, steps) && Empty(start)
    requires Answered(Final(p, start, steps), t, a) && Answered(Final(p, start, steps), u, b) && a.Ok? && b.Ok?
    requires var s := Final(p, start, steps); KeyOf(s.txs[t].req) == KeyOf(s.txs[u].req)
    ensures a.value.(replayed := true) == b.value.(replayed := true)
    ensures t != u ==> a.value.replayed || b.value.replayed
  {
    RunSound(p, start, steps);
    var s := Final(p, start, steps);
    var i := PlaceOf(p, start, s, t, a);
    var j := PlaceOf(p, start, s, u, b);
    if i < j {
      SuccessesAgree(p, start, s.log, i, j);
    } else if j < i {
      SuccessesAgree(p, start, s.log, j, i);
    }
  }

  /**
   * However transactions interleave: a committed reply goes back to a handler that returned after
   * what it saw of the tables at its place in the order, and all it returned is carried out there.
   */
  lemma {:induction false} ConcurrentCommitGoesBack(p: Platform, start: Db, steps: seq<Step>, t: TxId, a: Reply)
    returns (k: nat, choice: Choice, seen: seq<Seen>, o: Outcome)
    requires ValidRun(p, start, steps) && Answered(Final(p, start, steps), t, a) && CommitReply(a)
    ensures var s := Final(p, start, steps);
      && t in s.places && s.places[t] == k < |s.log| && s.log[k] == Decided(s.txs[t].req, choice, a)
      && s.txs[t].req.command.commandType in p.handlers
      && Talk(p, s.txs[t].req, DbAt(p, start, s.log, k).roots, choice, seen)
      && NextOf(p, s.txs[t].req, seen) == Done(Ok(o))
      && Carried(DbAt(p, start, s.log, k), DbAt(p, start, s.log, k + 1), s.txs[t].req, choice, a.value, seen, o)
  {
    RunSound(p, start, steps);
    var s := Final(p, start, steps);
    k := PlaceOf(p, start, s, t, a);
    choice := s.log[k].choice;
    seen, o := CommitGoesBack(p, start, s.log, k);
  }

  /** In every reachable state the committed tables are consistent. */
  lemma {:induction false} CommittedTablesConsistent(p: Platform, start: Db, steps: seq<Step>)
    requires ValidRun(p, start, steps) && Empty(start)
    ensures Consistent(Final(p, start, steps).db)
  {
    RunSound(p, start, steps);
    AlwaysConsistent(p, start, Final(p, start, steps).log);
  }

  /** However the transactions interleave, no caller is told that its command is in progress. */
  lemma {:induction false} NobodySeesInProgress(p: Platform, start: Db, steps: seq<Step>, t: TxId)
    requires ValidRun(p, start, steps) && Empty(start)
    ensures !Answered(Final(p, start, steps), t, Err(InProgress))
  {
    RunSound(p, start, steps);
    var s := Final(p, start, steps);
    if Answered(s, t, Err(InProgress)) {
      var k := PlaceOf(p, start, s, t, Err(InProgress));
      NeverInProgress(p, start, s.log, k);
    }
  }

  // ---- The order of decisions respects time ----

  /** Decisions stay, at their places. */
  ghost predicate Extends(a: State, b: State) {
    a.log <= b.log && forall t :: t in a.places ==> t in b.places && b.places[t] == a.places[t]
  }

  lemma EndExtends(s: State, t: TxId, choice: Choice, db: Db, reply: Reply)
    requires t in s.txs && t !in s.places
    ensures Extends(s, End(s, t, choice, db, reply))
  {
  }

  lemma BeginExtends(p: Platform, s: State, t: TxId, req: Request, choice: Choice)
    requires t !in s.places
    ensures Extends(s, BeginTx(p, s, t, req, choice))
  {
    EndExtends(s.(txs := s.txs[t := Tx(req, choice, Begun)]), t, choice, s.db, Err(UnsupportedCommand));
  }

  lemma LookupExtends(s: State, t: TxId)
    requires t in s.txs && t !in s.places
    ensures Extends(s, LookupTx(s, t)) && Extends(s, RefindTx(s, t))
  {
  }

  lemma FinishExtends(p: Platform, s: State, t: TxId)
    requires t in s.txs && t !in s.places && s.txs[t].phase.Inserted? && Handled(p, s.txs[t])
    ensures Extends(s, FinishTx(p, s, t))
  {
  }

  lemma CommitExtends(p: Platform, s: State, t: TxId)
    requires t in s.txs && t !in s.places && s.txs[t].phase.Executed?
    ensures Extends(s, CommitOf(p, s, t))
  {
  }

  lemma StepExtends(p: Platform, s: State, step: Step)
    requires CallersMatch(s) && Enabled(p, s, step)
    ensures Extends(s, Next(p, s, step))
  {
    forall t | t in s.places ensures t in s.txs && s.txs[t].phase.Ended? {
      assert InPlace(s, t);
    }
    match step
    case Begin(t, req, choice) => BeginExtends(p, s, t, req, choice);
    case Lookup(t) => LookupExtends(s, t);
    case Refind(t) => LookupExtends(s, t);
    case Finish(t) => FinishExtends(p, s, t);
    case CommitTx(t) => CommitExtends(p, s, t);
    case Abort(t) => EndExtends(s, t, s.txs[t].choice.(aborted := true), s.db, Err(CommandFailed));
    case _ =>
  }

  lemma {:induction false} DecisionsStand(p: Platform, start: Db, steps: seq<Step>, n: nat)
    requires ValidRun(p, start, steps) && n <= |steps|
    ensures ValidRun(p, start, steps[..n])
    ensures Extends(Final(p, start, steps[..n]), Final(p, start, steps))
    decreases |steps|
  {
    if n < |steps| {
      var before := steps[..|steps| - 1];
      DecisionsStand(p, start, before, n);
      assert before[..n] == steps[..n];
      RunSound(p, start, before);
      StepExtends(p, Final(p, start, before), steps[|steps| - 1]);
    } else {
      assert steps[..n] == steps;
    }
  }

  /** A command that was answered before another one began comes before it in the sequence. */
  lemma {:induction false} OrderRespectsTime(p: Platform, start: Db, steps: seq<Step>, n: nat, t: TxId, u: TxId)
    requires ValidRun(p, start, steps) && n <= |steps| && ValidRun(p, start, steps[..n])
    requires var s := Final(p, start, steps[..n]); t in s.txs && s.txs[t].phase.Ended? && u !in s.txs
    requires u in Final(p, start, steps).places
    ensures var places := Final(p, start, steps).places; t in places && places[t] < places[u]
  {
    DecisionsStand(p, start, steps, n);
    RunSound(p, start, steps[..n]);
    RunSound(p, start, steps);
    var early, late := Final(p, start, steps[..n]), Final(p, start, steps);
    assert InPlace(early, t) && InPlace(late, u);
    PlaceIsLater(early, late, u);
  }

  /** What was decided early belongs to transactions that were there early. */
  lemma PlaceIsLater(early: State, late: State, u: TxId)
    requires CallersMatch(early) && CallersMatch(late) && Extends(early, late) && u in late.places && u !in early.txs
    ensures late.places[u] >= |early.log|
  {
    forall k | 0 <= k < |early.log| && early.log[k].Decided? ensures late.places[u] != k {
      assert IsPlace(early.places, k);
      var t :| t in early.places && early.places[t] == k;
      assert InPlace(early, t);
    }
    assert InPlace(late, u);
  }
}
