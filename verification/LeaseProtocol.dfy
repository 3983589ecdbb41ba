/**
 * Any number of outbox workers over one table, as a step machine. A worker captures `now`,
 * claims a batch in one transaction, performs each outside effect with no lock held, and settles
 * the row in a second transaction. Steps of different workers interleave freely, time passes
 * between any two of them, and a worker may crash at any point.
 */
module LeaseProtocol {
  import opened RetryPolicy
  import opened Outbox

  type WorkerId = nat
  type Config = map<WorkerId, Worker>

  /**
   * Where a worker stands with the first row of its queue: not read yet, about to act outside,
   * or about to settle it; `accepted` tells that an accepted outside effect led to the verdict.
   */
  datatype Phase = Ready | Outward | Decided(verdict: Verdict, accepted: bool)

  /** A running worker holds the rows of its queue and works on the first one. */
  datatype WorkerState =
    | Idle
    | Started(now: int)
    | Running(now: int, queue: seq<MessageId>, phase: Phase, claimed: nat, result: RunResult)

  /**
   * The table and the workers, with four histories per message: accepted outside effects,
   * crashes between such an effect and its commit, commits of such an effect that found the row
   * already PUBLISHED, and publications that no such effect led to (nothing was to be deleted).
   */
  datatype State = State(
    clock: int,
    rows: Table,
    workers: map<WorkerId, WorkerState>,
    delivered: map<MessageId, nat>,
    lost: map<MessageId, nat>,
    duplicated: map<MessageId, nat>,
    effectless: map<MessageId, nat>)

  function Times(history: map<MessageId, nat>, id: MessageId): nat {
    if id in history then history[id] else 0
  }

  function Bump(history: map<MessageId, nat>, id: MessageId): map<MessageId, nat> {
    history[id := Times(history, id) + 1]
  }

  datatype Step =
    | Tick(clock: int)
    | Insert(id: MessageId, row: Row)
    | Start(w: WorkerId)
    | Claim(w: WorkerId, locked: set<MessageId>)
    | Read(w: WorkerId)
    | Answer(w: WorkerId, answer: Answer)
    | Finish(w: WorkerId)
    | End(w: WorkerId)
    | Crash(w: WorkerId)

  ghost predicate ValidConfig(cfg: Config) {
    forall w :: w in cfg ==> ValidLimit(cfg[w].maxAttempts)
  }

  function Init(cfg: Config): State {
    State(0, map[], map w | w in cfg :: Idle, map[], map[], map[], map[])
  }

  predicate Busy(s: State, w: WorkerId) {
    w in s.workers && s.workers[w].Running? && s.workers[w].queue != []
  }

  function Head(s: State, w: WorkerId): MessageId
    requires Busy(s, w)
  {
    s.workers[w].queue[0]
  }

  /** An accepted outside effect of this worker waits for its commit. */
  predicate Awaits(s: State, w: WorkerId) {
    Busy(s, w) && s.workers[w].phase.Decided? && s.workers[w].phase.accepted
  }

  ghost predicate Enabled(cfg: Config, s: State, step: Step) {
    match step
    case Tick(clock) => clock >= s.clock
    case Insert(id, row) => id !in s.rows && Fresh(row)
    case Start(w) => w in s.workers && w in cfg && s.workers[w].Idle?
    case Claim(w, _) => w in s.workers && w in cfg && s.workers[w].Started?
    case Read(w) => Busy(s, w) && w in cfg && Head(s, w) in s.rows && s.workers[w].phase.Ready?
    case Answer(w, answer) =>
      Busy(s, w) && w in cfg && s.workers[w].phase.Outward? && AnswerPossible(cfg[w], answer)
    case Finish(w) => Busy(s, w) && w in cfg && Head(s, w) in s.rows && s.workers[w].phase.Decided?
    case End(w) => w in s.workers && s.workers[w].Running? && s.workers[w].queue == []
    case Crash(w) => w in s.workers
  }

  /** What the worker makes of the stored row it has read. */
  function PhaseAfterRead(plan: Plan): Phase {
    match plan
    case Settled(verdict) => Decided(verdict, false)
    case Outside => Outward
  }

  /** `_claim_due_messages`: one transaction that leases the batch to the worker. */
  function ClaimBatch(cfg: Config, s: State, w: WorkerId, locked: set<MessageId>): State
    requires w in cfg && w in s.workers && s.workers[w].Started?
  {
    var now := s.workers[w].now;
    var ids := ClaimIds(s.rows, cfg[w], now, locked);
    s.(rows := ClaimRows(s.rows, ids, LeaseEnd(cfg[w], now)),
       workers := s.workers[w := Running(now, ids, Ready, |ids|, NOTHING)])
  }

  /** The second transaction on the first row of the queue, under its row lock. */
  function SettleHead(cfg: Config, s: State, w: WorkerId): State
    requires w in cfg && ValidLimit(cfg[w].maxAttempts)
    requires Busy(s, w) && Head(s, w) in s.rows && s.workers[w].phase.Decided?
  {
    var ws, id := s.workers[w], Head(s, w);
    var settled := Settle(cfg[w], s.rows[id], ws.now, ws.phase.verdict);
    s.(rows := s.rows[id := settled.0],
       workers := s.workers[w := ws.(queue := ws.queue[1..], phase := Ready,
                                     result := Merge(ws.result, One(settled.1)))],
       duplicated :=
         if ws.phase.accepted && s.rows[id].status == Published then Bump(s.duplicated, id) else s.duplicated,
       effectless :=
         if !ws.phase.accepted && s.rows[id].status != Published && settled.0.status == Published then
           Bump(s.effectless, id)
         else s.effectless)
  }

  function WithPhase(s: State, w: WorkerId, phase: Phase): State
    requires Busy(s, w)
  {
    s.(workers := s.workers[w := s.workers[w].(phase := phase)])
  }

  function Next(cfg: Config, s: State, step: Step): State
    requires ValidConfig(cfg) && Enabled(cfg, s, step)
  {
    match step
    case Tick(clock) => s.(clock := clock)
    case Insert(id, row) => s.(rows := s.rows[id := row])
    case Start(w) => s.(workers := s.workers[w := Started(s.clock)])
    case Claim(w, locked) => ClaimBatch(cfg, s, w, locked)
    case Read(w) => WithPhase(s, w, PhaseAfterRead(PlanFor(cfg[w], s.rows[Head(s, w)])))
    case Answer(w, answer) =>
      var accepted := Accepted(cfg[w], answer);
      WithPhase(s, w, Decided(VerdictOf(cfg[w], answer), accepted))
        .(delivered := if accepted then Bump(s.delivered, Head(s, w)) else s.delivered)
    case Finish(w) => SettleHead(cfg, s, w)
    case End(w) => s.(workers := s.workers[w := Idle])
    case Crash(w) =>
      s.(workers := s.workers[w := Idle],
         lost := if Awaits(s, w) then Bump(s.lost, Head(s, w)) else s.lost)
  }

  /** Every step of the run was possible when it was taken. */
  ghost predicate ValidRun(cfg: Config, steps: seq<Step>)
    requires ValidConfig(cfg)
    decreases |steps|, 0
  {
    steps == [] || (
      var before := steps[..|steps| - 1];
      ValidRun(cfg, before) && Enabled(cfg, Final(cfg, before), steps[|steps| - 1]))
  }

  ghost function Final(cfg: Config, steps: seq<Step>): State
    requires ValidConfig(cfg) && ValidRun(cfg, steps)
    decreases |steps|, 1
  {
    if steps == [] then Init(cfg)
    else Next(cfg, Final(cfg, steps[..|steps| - 1]), steps[|steps| - 1])
  }
}
