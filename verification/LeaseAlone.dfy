/**
 * A worker that nobody gets in the way of: the steps of the lease protocol take it through its
 * whole batch, with exactly the rows and counters of one run of the store.
 */
module LeaseAlone {
  import opened Common
  import opened RetryPolicy
  import opened Outbox
  import opened OutboxStore
  import opened ClaimRounds
  import opened LeaseProtocol
  import opened LeaseInvariants

  lemma VerdictProcesses(w: Worker, row: Row, now: int, answer: Answer)
    requires ValidLimit(w.maxAttempts)
    ensures Process(w, row, now, answer) ==
      Settle(w, row, now, if PlanFor(w, row).Settled? then PlanFor(w, row).verdict else VerdictOf(w, answer))
  {
  }

  /** The worker reads its next message and, if need be, acts outside; then it knows its verdict. */
  lemma {:induction false} DecidesAlone(cfg: Config, steps: seq<Step>, w: WorkerId, answer: Answer)
    returns (run: seq<Step>)
    requires ValidConfig(cfg) && ValidRun(cfg, steps) && w in cfg && Busy(Final(cfg, steps), w)
    requires Final(cfg, steps).workers[w].phase.Ready? && Head(Final(cfg, steps), w) in Final(cfg, steps).rows
    requires AnswerPossible(cfg[w], answer)
    ensures ValidRun(cfg, run) && steps <= run
    ensures var s, s' := Final(cfg, steps), Final(cfg, run);
      var plan := PlanFor(cfg[w], s.rows[Head(s, w)]);
      && s'.rows == s.rows && s'.clock == s.clock && w in s'.workers && s'.workers[w].Running?
      && s'.workers[w].phase.Decided?
      && s'.workers[w] == s.workers[w].(phase := s'.workers[w].phase)
      && s'.workers[w].phase.verdict == (if plan.Settled? then plan.verdict else VerdictOf(cfg[w], answer))
  {
    var s := Final(cfg, steps);
    ExtendRun(cfg, steps, Step.Read(w));
    run := steps + [Step.Read(w)];
    if PlanFor(cfg[w], s.rows[Head(s, w)]).Outside? {
      ExtendRun(cfg, run, Step.Answer(w, answer));
      run := run + [Step.Answer(w, answer)];
    }
  }

  /** One message from the read to the settlement is `Process`. */
  lemma {:induction false} ProcessesAlone(cfg: Config, steps: seq<Step>, w: WorkerId, answer: Answer)
    returns (run: seq<Step>)
    requires ValidConfig(cfg) && ValidRun(cfg, steps) && w in cfg && Busy(Final(cfg, steps), w)
    requires Final(cfg, steps).workers[w].phase.Ready? && Head(Final(cfg, steps), w) in Final(cfg, steps).rows
    requires AnswerPossible(cfg[w], answer)
    ensures ValidRun(cfg, run) && steps <= run
    ensures var s, s' := Final(cfg, steps), Final(cfg, run);
      var id, ws := Head(s, w), s.workers[w];
      var (row, report) := Process(cfg[w], s.rows[id], ws.now, answer);
      && s'.rows == s.rows[id := row] && s'.clock == s.clock && w in s'.workers
      && s'.workers[w] == ws.(queue := ws.queue[1..], result := Merge(ws.result, One(report)))
  {
    var s := Final(cfg, steps);
    var decided := DecidesAlone(cfg, steps, w, answer);
    VerdictProcesses(cfg[w], s.rows[Head(s, w)], s.workers[w].now, answer);
    ExtendRun(cfg, decided, Step.Finish(w));
    run := decided + [Step.Finish(w)];
  }

  /** The worker has done this many of the rows it claimed. */
  ghost predicate Done(
    cfg: Config, before: State, s: State, w: WorkerId, ids: seq<MessageId>, answers: MessageId -> Answer, done: nat)
    requires ValidConfig(cfg) && w in cfg && done <= |ids|
  {
    var all := Reports(before.rows, cfg[w], before.clock, ids, answers);
    && Processed(before.rows, s.rows, cfg[w], before.clock, ids, done, answers)
    && w in s.workers && s.workers[w] == Running(before.clock, ids[done..], Ready, |ids|, Tally(all[..done]))
    && s.clock == before.clock
  }

  lemma DoneOneMore(
    cfg: Config, before: State, s: State, s': State, w: WorkerId, ids: seq<MessageId>, answers: MessageId -> Answer,
    done: nat)
    requires ValidConfig(cfg) && w in cfg && done < |ids| && NoDuplicates(ids)
    requires Done(cfg, before, s, w, ids, answers, done)
    requires var id, ws := ids[done], s.workers[w];
      && id in s.rows
      && var (row, report) := Process(cfg[w], s.rows[id], ws.now, answers(id));
         && s'.rows == s.rows[id := row] && s'.clock == s.clock && w in s'.workers
         && s'.workers[w] == ws.(queue := ws.queue[1..], result := Merge(ws.result, One(report)))
    ensures Done(cfg, before, s', w, ids, answers, done + 1)
  {
    var all := Reports(before.rows, cfg[w], before.clock, ids, answers);
    ProcessedStep(before.rows, s.rows, cfg[w], before.clock, ids, done, answers);
    TallyStep(all, done);
    assert ids[done..][1..] == ids[done + 1..];
  }

  lemma {:induction false} RestAlone(
    cfg: Config, before: State, steps: seq<Step>, w: WorkerId, ids: seq<MessageId>, answers: MessageId -> Answer,
    done: nat) returns (run: seq<Step>)
    requires ValidConfig(cfg) && ValidRun(cfg, steps) && w in cfg && done <= |ids| && NoDuplicates(ids)
    requires Done(cfg, before, Final(cfg, steps), w, ids, answers, done)
    requires forall id :: id in ids ==> AnswerPossible(cfg[w], answers(id))
    ensures ValidRun(cfg, run) && steps <= run && Done(cfg, before, Final(cfg, run), w, ids, answers, |ids|)
    decreases |ids| - done
  {
    run := steps;
    if done < |ids| {
      var s := Final(cfg, steps);
      assert Head(s, w) == ids[done] && ids[done] in ids;
      run := ProcessesAlone(cfg, steps, w, answers(ids[done]));
      DoneOneMore(cfg, before, s, Final(cfg, run), w, ids, answers, done);
      run := RestAlone(cfg, before, run, w, ids, answers, done + 1);
    }
  }

  lemma ClaimedAll(rows: Table, w: Worker, now: int, locked: set<MessageId>, answers: MessageId -> Answer)
    requires ValidLimit(w.maxAttempts)
    ensures var ids := ClaimIds(rows, w, now, locked);
      NoDuplicates(ids) && Processed(rows, ClaimRows(rows, ids, LeaseEnd(w, now)), w, now, ids, 0, answers)
  {
    ClaimIdsSound(rows, w, now, locked);
  }

  lemma JustClaimed(
    cfg: Config, before: State, s: State, w: WorkerId, locked: set<MessageId>, answers: MessageId -> Answer)
    requires ValidConfig(cfg) && w in cfg && w in s.workers && s.workers[w] == Started(before.clock)
    requires s.rows == before.rows && s.clock == before.clock
    ensures var ids := ClaimIds(before.rows, cfg[w], before.clock, locked);
      NoDuplicates(ids) && Done(cfg, before, ClaimBatch(cfg, s, w, locked), w, ids, answers, 0)
  {
    var ids := ClaimIds(before.rows, cfg[w], before.clock, locked);
    ClaimedAll(before.rows, cfg[w], before.clock, locked, answers);
    assert ids[0..] == ids && Reports(before.rows, cfg[w], before.clock, ids, answers)[..0] == [];
  }

  lemma {:induction false} ClaimsAlone(
    cfg: Config, steps: seq<Step>, w: WorkerId, locked: set<MessageId>, answers: MessageId -> Answer)
    returns (run: seq<Step>)
    requires ValidConfig(cfg) && ValidRun(cfg, steps) && w in cfg
    requires w in Final(cfg, steps).workers && Final(cfg, steps).workers[w].Idle?
    ensures ValidRun(cfg, run) && steps <= run
    ensures var s := Final(cfg, steps);
      var ids := ClaimIds(s.rows, cfg[w], s.clock, locked);
      NoDuplicates(ids) && Done(cfg, s, Final(cfg, run), w, ids, answers, 0)
  {
    var s := Final(cfg, steps);
    ExtendRun(cfg, steps, Step.Start(w));
    run := steps + [Step.Start(w)];
    JustClaimed(cfg, s, Final(cfg, run), w, locked, answers);
    ExtendRun(cfg, run, Step.Claim(w, locked));
    run := run + [Step.Claim(w, locked)];
  }

  lemma DoneAll(cfg: Config, before: State, s: State, w: WorkerId, ids: seq<MessageId>, answers: MessageId -> Answer)
    requires ValidConfig(cfg) && w in cfg && Done(cfg, before, s, w, ids, answers, |ids|)
    ensures Processed(before.rows, s.rows, cfg[w], before.clock, ids, |ids|, answers)
    ensures w in s.workers && s.workers[w].Running? && s.workers[w].queue == []
    ensures s.workers[w].result == Tally(Reports(before.rows, cfg[w], before.clock, ids, answers))
  {
    var all := Reports(before.rows, cfg[w], before.clock, ids, answers);
    assert all[..|ids|] == all;
  }

  /**
   * Every run of the store on its own is a run of the protocol: from every reachable state, an
   * idle worker can claim its batch and process all of it, and then the rows and the counters are
   * those of `RunOnce`.
   */
  lemma {:induction false} RunOnceAlone(
    cfg: Config, steps: seq<Step>, w: WorkerId, locked: set<MessageId>, answers: MessageId -> Answer)
    returns (run: seq<Step>)
    requires ValidConfig(cfg) && ValidRun(cfg, steps) && w in cfg
    requires w in Final(cfg, steps).workers && Final(cfg, steps).workers[w].Idle?
    requires forall id :: AnswerPossible(cfg[w], answers(id))
    ensures ValidRun(cfg, run) && steps <= run
    ensures var s, s' := Final(cfg, steps), Final(cfg, run);
      var ids := ClaimIds(s.rows, cfg[w], s.clock, locked);
      && Processed(s.rows, s'.rows, cfg[w], s.clock, ids, |ids|, answers)
      && w in s'.workers && s'.workers[w].Running? && s'.workers[w].queue == []
      && s'.workers[w].result == Tally(Reports(s.rows, cfg[w], s.clock, ids, answers))
  {
    var s := Final(cfg, steps);
    var ids := ClaimIds(s.rows, cfg[w], s.clock, locked);
    run := ClaimsAlone(cfg, steps, w, locked, answers);
    run := RestAlone(cfg, s, run, w, ids, answers, 0);
    DoneAll(cfg, s, Final(cfg, run), w, ids, answers);
  }
}
