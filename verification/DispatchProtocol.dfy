/**
 * Dispatch transactions that run at the same time, under READ COMMITTED: rows of an open
 * transaction are invisible to the others, an insert into a unique key that another open
 * transaction has taken waits until that transaction ends, and rows locked FOR UPDATE stay
 * locked until the end. Handlers choose their locks as they go, read other rows without a lock
 * and draw ids; other code commits events, messages and rows in between. Every run has the
 * outcome of deciding the same commands one at a time.
 */
module DispatchProtocol {
  import opened Common
  import opened CommandRequests
  import opened Dispatcher
  import opened DispatchLog
  import opened Uuids

  type TxId = nat

  /**
   * Where a transaction stands in `dispatch`. `Inserted` has its receipt in and its handler at
   * work, `Executed` has its outcome; until `Ended` none of its rows are committed.
   */
  datatype TxPhase =
    | Begun
    | Missed
    | Collided
    | Inserted(seen: seq<Seen>)
    | Executed(seen: seq<Seen>, outcome: Outcome)
    | Ended(reply: Reply)

  /** `choice` holds what the transaction will draw and be told. */
  datatype Tx = Tx(req: Request, choice: Choice, phase: TxPhase)

  /** The committed tables, the transactions, what was decided in order, and whose decision is where. */
  datatype State = State(db: Db, txs: map<TxId, Tx>, log: seq<Entry>, places: map<TxId, nat>)

  datatype Step =
    | Begin(t: TxId, req: Request, choice: Choice)
    | Lookup(t: TxId)
    | Insert(t: TxId)
    | Refind(t: TxId)
    | Look(t: TxId)
    | Finish(t: TxId)
    | CommitTx(t: TxId)
    | Abort(t: TxId)
    | WriteElsewhere(write: OtherWrite)

  function Init(db: Db): State {
    State(db, map[], [], map[])
  }

  /** The transaction has inserted its receipt and has not ended. */
  predicate OwnsReceipt(tx: Tx) {
    tx.phase.Inserted? || tx.phase.Executed?
  }

  function SeenBy(tx: Tx): seq<Seen> {
    if OwnsReceipt(tx) then tx.phase.seen else []
  }

  /** The rows the transaction holds locked. */
  function Held(tx: Tx): set<Uuid> {
    LockedIds(SeenBy(tx))
  }

  /** The receipts of the two requests collide in one of the unique constraints. */
  predicate Clash(a: Request, b: Request) {
    KeyOf(a) == KeyOf(b) || (a.context.tenant == b.context.tenant && a.command.commandId == b.command.commandId)
  }

  predicate Taken(db: Db, req: Request) {
    KeyOf(req) in db.receipts || CommandIdUsed(db.receipts, req.context.tenant, req.command.commandId)
  }

  /** The insert of `t` waits for the end of `u`. */
  predicate InsertWaitsFor(s: State, t: TxId, u: TxId)
    requires t in s.txs && u in s.txs
  {
    u != t && OwnsReceipt(s.txs[u]) && Clash(s.txs[t].req, s.txs[u].req)
  }

  ghost predicate Handled(p: Platform, tx: Tx) {
    tx.req.command.commandType in p.handlers
  }

  /** What the handler at work does next. */
  function NextOfTx(p: Platform, tx: Tx): Progress
    requires Handled(p, tx) && OwnsReceipt(tx)
  {
    NextOf(p, tx.req, tx.phase.seen)
  }

  /** The row is locked by another transaction. */
  predicate LockedByOther(s: State, t: TxId, id: Uuid) {
    exists u :: u in s.txs && u != t && id in Held(s.txs[u])
  }

  ghost predicate MayLook(p: Platform, s: State, t: TxId)
    requires t in s.txs && s.txs[t].phase.Inserted? && Handled(p, s.txs[t])
  {
    var next := NextOfTx(p, s.txs[t]);
    !next.Done? && (next.LockRow? ==> !LockedByOther(s, t, next.id))
  }

  ghost predicate Enabled(p: Platform, s: State, step: Step) {
    match step
    case Begin(t, _, choice) => t !in s.txs && !choice.aborted
    case Lookup(t) => t in s.txs && s.txs[t].phase.Begun?
    case Insert(t) =>
      t in s.txs && s.txs[t].phase.Missed? && forall u :: u in s.txs ==> !InsertWaitsFor(s, t, u)
    case Refind(t) => t in s.txs && s.txs[t].phase.Collided?
    case Look(t) => t in s.txs && s.txs[t].phase.Inserted? && Handled(p, s.txs[t]) && MayLook(p, s, t)
    case Finish(t) =>
      t in s.txs && s.txs[t].phase.Inserted? && Handled(p, s.txs[t]) && NextOfTx(p, s.txs[t]).Done?
    case CommitTx(t) => t in s.txs && s.txs[t].phase.Executed?
    case Abort(t) => t in s.txs && !s.txs[t].phase.Ended?
    case WriteElsewhere(w) => forall u :: u in s.txs ==> Held(s.txs[u]) !! w.writes.Keys
  }

  function Move(s: State, t: TxId, phase: TxPhase): State
    requires t in s.txs
  {
    s.(txs := s.txs[t := s.txs[t].(phase := phase)])
  }

  /** The transaction ends with this reply and leaves these tables behind. */
  function End(s: State, t: TxId, choice: Choice, db: Db, reply: Reply): State
    requires t in s.txs
  {
    State(db, s.txs[t := s.txs[t].(phase := Ended(reply))], s.log + [Decided(s.txs[t].req, choice, reply)],
          s.places[t := |s.log|])
  }

  function EndWith(s: State, t: TxId, reply: Reply): State
    requires t in s.txs
  {
    End(s, t, s.txs[t].choice, s.db, reply)
  }

  function BeginTx(p: Platform, s: State, t: TxId, req: Request, choice: Choice): State {
    var s' := s.(txs := s.txs[t := Tx(req, choice, Begun)]);
    if req.command.commandType in p.handlers then s' else EndWith(s', t, Err(UnsupportedCommand))
  }

  function LookupTx(s: State, t: TxId): State
    requires t in s.txs
  {
    var req := s.txs[t].req;
    if KeyOf(req) in s.db.receipts then EndWith(s, t, Resolve(s.db.receipts[KeyOf(req)], RequestText(req.command)))
    else Move(s, t, Missed)
  }

  /** The savepoint: waiting is over, so a taken key is a committed one. */
  function InsertTx(s: State, t: TxId): State
    requires t in s.txs
  {
    if Taken(s.db, s.txs[t].req) then Move(s, t, Collided) else Move(s, t, Inserted([]))
  }

  function RefindTx(s: State, t: TxId): State
    requires t in s.txs
  {
    var req := s.txs[t].req;
    if KeyOf(req) in s.db.receipts then EndWith(s, t, Resolve(s.db.receipts[KeyOf(req)], RequestText(req.command)))
    else EndWith(s, t, Err(CollisionUnresolved))
  }

  function LookTx(p: Platform, s: State, t: TxId): State
    requires t in s.txs && s.txs[t].phase.Inserted? && Handled(p, s.txs[t])
  {
    var tx := s.txs[t];
    Move(s, t, Inserted(LookOnce(NextOfTx(p, tx), s.db.roots, tx.choice.told, tx.phase.seen)))
  }

  /** The choice as the transaction has used it. */
  function UsedChoice(tx: Tx): Choice {
    tx.choice.(looks := |SeenBy(tx)|)
  }

  function FinishTx(p: Platform, s: State, t: TxId): State
    requires t in s.txs && s.txs[t].phase.Inserted? && Handled(p, s.txs[t])
  {
    var tx := s.txs[t];
    match ResultOfHandler(NextOfTx(p, tx), tx.phase.seen)
    case Err(failure) => End(s, t, UsedChoice(tx), s.db, Err(failure))
    case Ok(outcome) => Move(s, t, Executed(tx.phase.seen, outcome))
  }

  function CommitOf(p: Platform, s: State, t: TxId): State
    requires t in s.txs && s.txs[t].phase.Executed?
  {
    var tx := s.txs[t];
    var (db, reply) := Commit(p, s.db, tx.req, tx.phase.outcome, UsedChoice(tx));
    End(s, t, UsedChoice(tx), db, reply)
  }

  function Next(p: Platform, s: State, step: Step): State
    requires Enabled(p, s, step)
  {
    match step
    case Begin(t, req, choice) => BeginTx(p, s, t, req, choice)
    case Lookup(t) => LookupTx(s, t)
    case Insert(t) => InsertTx(s, t)
    case Refind(t) => RefindTx(s, t)
    case Look(t) => LookTx(p, s, t)
    case Finish(t) => FinishTx(p, s, t)
    case CommitTx(t) => CommitOf(p, s, t)
    case Abort(t) => End(s, t, s.txs[t].choice.(aborted := true), s.db, Err(CommandFailed))
    case WriteElsewhere(w) => s.(db := Written(p, s.db, w), log := s.log + [Elsewhere(w)])
  }

  ghost predicate ValidRun(p: Platform, start: Db, steps: seq<Step>)
    decreases |steps|, 0
  {
    steps == [] || (
      var before := steps[..|steps| - 1];
      ValidRun(p, start, before) && Enabled(p, Final(p, start, before), steps[|steps| - 1]))
  }

  ghost function Final(p: Platform, start: Db, steps: seq<Step>): State
    requires ValidRun(p, start, steps)
    decreases |steps|, 1
  {
    if steps == [] then Init(start)
    else Next(p, Final(p, start, steps[..|steps| - 1]), steps[|steps| - 1])
  }
}
