/**
 * Expiry of staged objects: the handler, and what becomes of an object however many expiries,
 * other commands and other writes run at the same time.
 */
module StagingExpiry {
  import opened Common
  import opened Json
  import opened Uuids
  import opened EventContracts
  import opened StagedObjects
  import opened CommandRequests
  import opened Dispatcher
  import opened DispatchLog
  import opened DispatchHistory
  import D = DispatchProtocol
  import I = DispatchInvariant
  import S = DispatchSteps
  import C = DispatchCallers

  const EXPIRE := "ExpireDceStagedObject"

  // ---- The handler ----

  function TargetOf(c: Command): Option<Uuid> {
    match Get(c.dump, "storage_object_id")
    case Some(v) => UuidOf(v)
    case None => None
  }

  function AggregateRef(id: Uuid): Json {
    JObject([
      Field("aggregate_type", JString(STAGED_OBJECT)),
      Field("aggregate_id", JString(Format(id))),
      Field("aggregate_revision", JInt(0))])
  }

  function ExpiredRow(o: StagedObject, actor: Uuid): StagedObject {
    o.(state := ObjectState.Expired, updatedBy := Some(actor))
  }

  /** What the handler makes of the locked row. */
  function ExpireRow(id: Uuid, ctx: Context, row: Option<Root>): Result<Outcome, HandlerError> {
    if row.None? || !row.value.Staged? then Err(Exception("DCE_STAGED_OBJECT_NOT_EXPIRABLE"))
    else
      var o := row.value.row;
      if o.identity.tenant != ctx.tenant || o.state in {Consumed, ObjectState.Expired} then
        Err(Exception("DCE_STAGED_OBJECT_NOT_EXPIRABLE"))
      else if o.identity.expiresAt > ctx.receivedAt then Err(Exception("DCE_STAGED_OBJECT_NOT_EXPIRED"))
      else
        Ok(Outcome("DCE_STAGING_EXPIRED", [AggregateRef(id)],
                   [StagingEvent(StagingFact.Expired, id, ctx.tenant, o.identity.consultation)],
                   map[id := Staged(ExpiredRow(o, ctx.actor))]))
  }

  /** Check the actor, lock the object, decide. */
  function ExpireHandler(c: Command, ctx: Context, seen: seq<Seen>): Progress {
    if ctx.actorKind != "SYSTEM" then Done(Err(Exception("DCE_STAGING_SYSTEM_ACTOR_REQUIRED")))
    else
      match TargetOf(c)
      case None => Done(Err(Exception("DCE_STAGED_OBJECT_NOT_EXPIRABLE")))
      case Some(id) =>
        if seen == [] then LockRow(id) else Done(ExpireRow(id, ctx, if seen[0].Locked? then seen[0].row else None))
  }

  ghost predicate HandlesExpiry(p: Platform) {
    EXPIRE in p.handlers && p.handlers[EXPIRE] == ExpireHandler
  }

  ghost predicate IsExpiry(req: Request, id: Uuid) {
    req.command.commandType == EXPIRE && TargetOf(req.command) == Some(id)
  }

  /** The system asks, for its tenant, in time, and the object is still open. */
  predicate Expirable(req: Request, roots: Roots, id: Uuid) {
    && req.context.actorKind == "SYSTEM" && id in roots && roots[id].Staged?
    && roots[id].row.identity.tenant == req.context.tenant
    && roots[id].row.state !in {Consumed, ObjectState.Expired}
    && roots[id].row.identity.expiresAt <= req.context.receivedAt
  }

  /** The handler looks at most once, and then at its object. */
  lemma {:induction false} LooksOnce(p: Platform, req: Request, roots: Roots, told: nat -> Json, n: nat, id: Uuid)
    requires HandlesExpiry(p) && IsExpiry(req, id)
    ensures Observed(p, req, roots, told, n) ==
      if n == 0 || req.context.actorKind != "SYSTEM" then [] else [Locked(id, RowAt(roots, id))]
  {
    if n > 0 {
      LooksOnce(p, req, roots, told, n - 1, id);
    }
  }

  lemma OwnRowOnly(id: Uuid, root: Root, row: Option<Root>)
    ensures LockedIds([Locked(id, row)]) == {id} && Only(map[id := root], {id}) == map[id := root]
  {
    assert [Locked(id, row)][0].id == id;
  }

  lemma {:induction false} ExpireExactly(p: Platform, req: Request, roots: Roots, choice: Choice, id: Uuid)
    requires HandlesExpiry(p) && IsExpiry(req, id)
    ensures Execute(p, req, roots, choice).Ok? <==> choice.looks > 0 && Expirable(req, roots, id)
    ensures choice.looks > 0 && Expirable(req, roots, id) ==>
      var outcome := Execute(p, req, roots, choice).value;
      && outcome.writes == map[id := Staged(ExpiredRow(roots[id].row, req.context.actor))]
      && |outcome.events| == 1
  {
    LooksOnce(p, req, roots, choice.told, choice.looks, id);
    if choice.looks > 0 && Expirable(req, roots, id) {
      OwnRowOnly(id, Staged(ExpiredRow(roots[id].row, req.context.actor)), RowAt(roots, id));
    }
  }

  /** Rows as the constraints leave them. */
  ghost predicate RootsValid(roots: Roots) {
    StorageKeysUnique(roots) && forall id :: id in roots && roots[id].Staged? ==> RowAllowed(roots[id].row)
  }

  lemma WritesKeepValid(roots: Roots, writes: Roots)
    requires RootsValid(roots) && WritesAllowed(roots, writes)
    ensures RootsValid(roots + writes)
  {
    forall id | id in roots + writes && (roots + writes)[id].Staged? ensures RowAllowed((roots + writes)[id].row) {
      if id in writes {
        assert WriteAllowed(roots, id, writes[id]);
      }
    }
  }

  /** Neither trigger nor constraint ever refuses an expiry the handler lets through. */
  lemma {:induction false} ExpiryAllowed(req: Request, roots: Roots, id: Uuid)
    requires RootsValid(roots) && Expirable(req, roots, id)
    ensures WritesAllowed(roots, map[id := Staged(ExpiredRow(roots[id].row, req.context.actor))])
  {
    var writes := map[id := Staged(ExpiredRow(roots[id].row, req.context.actor))];
    assert WriteAllowed(roots, id, writes[id]);
    forall a, b | a in roots + writes && b in roots + writes && (roots + writes)[a].Staged?
      && (roots + writes)[b].Staged?
      ensures (roots + writes)[a].row.identity.storageKey == (roots + writes)[b].row.identity.storageKey ==> a == b
    {
      assert roots[a].Staged? && roots[b].Staged?;
    }
  }

  // ---- Staged objects over a sequence of commands and other writes ----

  lemma DispatchRoots(p: Platform, first: Roots, db: Db, req: Request, choice: Choice)
    requires RootsLater(first, db.roots)
    ensures RootsLater(first, Dispatched(p, db, req, choice).0.roots)
  {
    if req.command.commandType in p.handlers {
      match Execute(p, req, db.roots, choice)
      case Ok(outcome) =>
        if WritesAllowed(db.roots, outcome.writes) {
          WritesAreLater(first, db.roots, outcome.writes);
        }
      case Err(_) =>
    }
  }

  lemma EntryRoots(p: Platform, first: Roots, db: Db, e: Entry)
    requires RootsLater(first, db.roots)
    ensures RootsLater(first, Apply(p, db, e).roots)
  {
    match e
    case Decided(req, choice, _) => DispatchRoots(p, first, db, req, choice);
    case Elsewhere(w) =>
      if OtherWriteAllowed(p, db, w) {
        WritesAreLater(first, db.roots, w.writes);
      }
  }

  /** Whatever handlers run and whoever else writes, staged objects move only along the transitions. */
  lemma {:induction false} ObjectsOnlyGetLater(p: Platform, start: Db, log: seq<Entry>, i: nat, j: nat)
    requires i <= j <= |log| && Faithful(p, start, log)
    ensures RootsLater(DbAt(p, start, log, i).roots, DbAt(p, start, log, j).roots)
    decreases j - i
  {
    if i < j {
      ObjectsOnlyGetLater(p, start, log, i, j - 1);
      OneStep(p, start, log, j - 1);
      EntryRoots(p, DbAt(p, start, log, i).roots, DbAt(p, start, log, j - 1), log[j - 1]);
    }
  }

  ghost predicate InState(roots: Roots, id: Uuid, state: ObjectState) {
    id in roots && roots[id].Staged? && roots[id].row.state == state
  }

  lemma CommittedExpiryMoves(p: Platform, db: Db, req: Request, choice: Choice, id: Uuid)
    requires HandlesExpiry(p) && IsExpiry(req, id) && CommitReply(Dispatched(p, db, req, choice).1)
    ensures Expirable(req, db.roots, id) && InState(Dispatched(p, db, req, choice).0.roots, id, ObjectState.Expired)
    ensures forall other :: other in db.roots && other != id ==>
      other in Dispatched(p, db, req, choice).0.roots
        && Dispatched(p, db, req, choice).0.roots[other] == db.roots[other]
  {
    CommitOutcome(p, db, req, choice);
    ExpireExactly(p, req, db.roots, choice, id);
  }

  lemma {:induction false} ExpiryMoves(p: Platform, start: Db, log: seq<Entry>, i: nat, id: Uuid)
    requires Faithful(p, start, log) && HandlesExpiry(p) && Commits(log, i) && IsExpiry(log[i].req, id)
    ensures Expirable(log[i].req, DbAt(p, start, log, i).roots, id)
    ensures InState(DbAt(p, start, log, i + 1).roots, id, ObjectState.Expired)
  {
    OneStep(p, start, log, i);
    CommittedExpiryMoves(p, DbAt(p, start, log, i), log[i].req, log[i].choice, id);
  }

  lemma {:induction false} ExpiredStaysClosed(
    p: Platform, start: Db, log: seq<Entry>, i: nat, j: nat, id: Uuid, req: Request)
    requires i <= j <= |log| && Faithful(p, start, log)
    requires InState(DbAt(p, start, log, i).roots, id, ObjectState.Expired)
    ensures !Expirable(req, DbAt(p, start, log, j).roots, id)
  {
    ObjectsOnlyGetLater(p, start, log, i, j);
  }

  lemma DispatchKeepsValid(p: Platform, db: Db, req: Request, choice: Choice)
    requires RootsValid(db.roots)
    ensures RootsValid(Dispatched(p, db, req, choice).0.roots)
  {
    if req.command.commandType in p.handlers {
      match Execute(p, req, db.roots, choice)
      case Ok(outcome) =>
        if WritesAllowed(db.roots, outcome.writes) {
          WritesKeepValid(db.roots, outcome.writes);
        }
      case Err(_) =>
    }
  }

  lemma EntryKeepsValid(p: Platform, db: Db, e: Entry)
    requires RootsValid(db.roots)
    ensures RootsValid(Apply(p, db, e).roots)
  {
    match e
    case Decided(req, choice, _) => DispatchKeepsValid(p, db, req, choice);
    case Elsewhere(w) =>
      if OtherWriteAllowed(p, db, w) {
        WritesKeepValid(db.roots, w.writes);
      }
  }

  /** The constraints hold of the staged objects at every point of the sequence. */
  lemma {:induction false} RootsStayValid(p: Platform, start: Db, log: seq<Entry>, i: nat)
    requires i <= |log| && Faithful(p, start, log) && RootsValid(start.roots)
    ensures RootsValid(DbAt(p, start, log, i).roots)
  {
    if i == 0 {
      assert log[..0] == [];
    } else {
      RootsStayValid(p, start, log, i - 1);
      OneStep(p, start, log, i - 1);
      EntryKeepsValid(p, DbAt(p, start, log, i - 1), log[i - 1]);
    }
  }

  /** A new command that nothing outside the staged objects stands in the way of. */
  ghost predicate Unhindered(p: Platform, db: Db, req: Request, choice: Choice) {
    && !choice.aborted && choice.looks > 0 && KeyOf(req) !in db.receipts
    && !CommandIdUsed(db.receipts, req.context.tenant, req.command.commandId)
    && FreshIds(db, choice, 1) && forall roots, writes :: p.otherConstraints(roots, writes)
  }

  lemma UnhinderedExpiry(p: Platform, db: Db, req: Request, choice: Choice, id: Uuid)
    requires HandlesExpiry(p) && IsExpiry(req, id) && Unhindered(p, db, req, choice) && RootsValid(db.roots)
    ensures CommitReply(Dispatched(p, db, req, choice).1) <==> Expirable(req, db.roots, id)
  {
    ExpireExactly(p, req, db.roots, choice, id);
    if Expirable(req, db.roots, id) {
      ExpiryAllowed(req, db.roots, id);
    }
  }

  /**
   * A new expiry command commits if and only if the system sent it for its tenant, the object is
   * neither consumed nor expired, and its time has come: no trigger ever refuses it.
   */
  lemma {:induction false} ExpirySucceedsExactly(p: Platform, start: Db, log: seq<Entry>, j: nat, id: Uuid)
    requires j < |log| && Faithful(p, start, log) && RootsValid(start.roots) && HandlesExpiry(p)
    requires log[j].Decided? && IsExpiry(log[j].req, id)
    requires Unhindered(p, DbAt(p, start, log, j), log[j].req, log[j].choice)
    ensures Commits(log, j) <==> Expirable(log[j].req, DbAt(p, start, log, j).roots, id)
  {
    RootsStayValid(p, start, log, j);
    OneStep(p, start, log, j);
    UnhinderedExpiry(p, DbAt(p, start, log, j), log[j].req, log[j].choice, id);
  }

  /** An object is expired by at most one committed command, whoever sends how many. */
  lemma {:induction false} ExpiredAtMostOnce(p: Platform, start: Db, log: seq<Entry>, i: nat, j: nat, id: Uuid)
    requires Faithful(p, start, log) && HandlesExpiry(p) && Commits(log, i) && Commits(log, j)
    requires IsExpiry(log[i].req, id) && IsExpiry(log[j].req, id)
    ensures i == j
  {
    var first, last := if i < j then i else j, if i < j then j else i;
    if first < last {
      ExpiryMoves(p, start, log, first, id);
      ExpiredStaysClosed(p, start, log, first + 1, last, id, log[last].req);
      ExpiryMoves(p, start, log, last, id);
    }
  }

  /** A consumed object has never been expired and never will be. */
  lemma {:induction false} ConsumedNeverExpired(p: Platform, start: Db, log: seq<Entry>, i: nat, j: nat, id: Uuid)
    requires Faithful(p, start, log) && HandlesExpiry(p) && Commits(log, i) && j <= |log|
    requires InState(DbAt(p, start, log, j).roots, id, Consumed)
    ensures !IsExpiry(log[i].req, id)
  {
    if IsExpiry(log[i].req, id) {
      ExpiryMoves(p, start, log, i, id);
      if j <= i {
        ObjectsOnlyGetLater(p, start, log, j, i);
      } else {
        ObjectsOnlyGetLater(p, start, log, i + 1, j);
      }
    }
  }

  lemma SamePayloadSameTarget(c: Command, d: Command)
    requires SamePayload(c.dump, d.dump)
    ensures TargetOf(c) == TargetOf(d)
  {
    var key := "storage_object_id";
    assert EntryMeaning(c.dump, key) == EntryMeaning(d.dump, key);
  }

  /** Python dicts never hold a key twice. */
  ghost predicate DumpsWellFormed(log: seq<Entry>) {
    forall k :: 0 <= k < |log| && log[k].Decided? ==> WellFormed(JObject(log[k].req.command.dump))
  }

  /**
   * A sweep that comes too late: the object is consumed, the sweep fails, and it leaves no
   * receipt, no event, no message and the object as it is.
   */
  lemma {:induction false} LateSweepLeavesNothing(p: Platform, start: Db, log: seq<Entry>, j: nat, id: Uuid)
    requires j < |log| && Faithful(p, start, log) && Empty(start) && HandlesExpiry(p)
    requires DumpsWellFormed(log)
    requires log[j].Decided? && IsExpiry(log[j].req, id) && InState(DbAt(p, start, log, j).roots, id, Consumed)
    ensures log[j].reply.Err? && DbAt(p, start, log, j + 1) == DbAt(p, start, log, j)
  {
    if Commits(log, j) {
      ConsumedNeverExpired(p, start, log, j, j, id);
    }
    OnlyCommitsWrite(p, start, log, j);
    if log[j].reply.Ok? {
      var k := OriginOf(p, start, log, j);
      OneStep(p, start, log, j);
      OkNotAborted(p, DbAt(p, start, log, j), log[j].req, log[j].choice);
      ReuseExactly(p, start, log, k, j);
      SamePayloadSameTarget(log[k].req.command, log[j].req.command);
      ConsumedNeverExpired(p, start, log, k, j, id);
    }
  }

  /** Success, fresh or replayed, means that the object is expired from then on. */
  lemma {:induction false} SuccessMeansExpired(p: Platform, start: Db, log: seq<Entry>, i: nat, j: nat, id: Uuid)
    requires i < j <= |log| && Faithful(p, start, log) && Empty(start) && HandlesExpiry(p)
    requires DumpsWellFormed(log)
    requires log[i].Decided? && IsExpiry(log[i].req, id) && log[i].reply.Ok?
    ensures InState(DbAt(p, start, log, j).roots, id, ObjectState.Expired)
  {
    var k := OriginOf(p, start, log, i);
    if k < i {
      OneStep(p, start, log, i);
      OkNotAborted(p, DbAt(p, start, log, i), log[i].req, log[i].choice);
      ReuseExactly(p, start, log, k, i);
      SamePayloadSameTarget(log[k].req.command, log[i].req.command);
    }
    ExpiryMoves(p, start, log, k, id);
    ObjectsOnlyGetLater(p, start, log, k + 1, j);
  }

  // ---- Concurrent sweeps ----

  /** However many sweeps and other callers run at the same time, one of them expires the object. */
  lemma {:induction false} ConcurrentExpiry(
    p: Platform, start: Db, steps: seq<D.Step>, t: D.TxId, u: D.TxId, a: Reply, b: Reply, id: Uuid)
    requires D.ValidRun(p, start, steps) && HandlesExpiry(p)
    requires C.Answered(D.Final(p, start, steps), t, a) && CommitReply(a)
    requires C.Answered(D.Final(p, start, steps), u, b) && CommitReply(b)
    requires var txs := D.Final(p, start, steps).txs; IsExpiry(txs[t].req, id) && IsExpiry(txs[u].req, id)
    ensures t == u
  {
    var s := D.Final(p, start, steps);
    S.RunSound(p, start, steps);
    var i := C.PlaceOf(p, start, s, t, a);
    var j := C.PlaceOf(p, start, s, u, b);
    ExpiredAtMostOnce(p, start, s.log, i, j, id);
  }

  lemma LogWellFormed(p: Platform, start: Db, s: D.State)
    requires I.Sound(p, start, s) && forall t :: t in s.txs ==> WellFormed(JObject(s.txs[t].req.command.dump))
    ensures DumpsWellFormed(s.log)
  {
    forall k | 0 <= k < |s.log| && s.log[k].Decided? ensures WellFormed(JObject(s.log[k].req.command.dump)) {
      assert I.IsPlace(s.places, k);
      var t :| t in s.places && s.places[t] == k;
      assert I.InPlace(s, t);
    }
  }

  /** Success for an object that is consumed in the end is impossible, fresh or replayed. */
  lemma {:induction false} NoSuccessOnConsumed(p: Platform, start: Db, log: seq<Entry>, i: nat, id: Uuid)
    requires i < |log| && Faithful(p, start, log) && Empty(start) && HandlesExpiry(p) && DumpsWellFormed(log)
    requires log[i].Decided? && IsExpiry(log[i].req, id) && InState(After(p, start, log).roots, id, Consumed)
    ensures log[i].reply.Err?
  {
    assert log[..|log|] == log;
    if log[i].reply.Ok? {
      SuccessMeansExpired(p, start, log, i, |log|, id);
    }
  }

  /**
   * An object that a consumer won: every expiry of it, however it interleaved, has failed, and its
   * decision left no receipt, no event, no message and no change of any row.
   */
  lemma {:induction false} ConsumerWins(p: Platform, start: Db, steps: seq<D.Step>, t: D.TxId, a: Reply, id: Uuid)
    requires D.ValidRun(p, start, steps) && HandlesExpiry(p) && Empty(start)
    requires forall u :: u in D.Final(p, start, steps).txs ==>
               WellFormed(JObject(D.Final(p, start, steps).txs[u].req.command.dump))
    requires InState(D.Final(p, start, steps).db.roots, id, Consumed)
    requires C.Answered(D.Final(p, start, steps), t, a) && IsExpiry(D.Final(p, start, steps).txs[t].req, id)
    ensures a.Err?
    ensures var s := D.Final(p, start, steps);
      t in s.places && s.places[t] < |s.log|
      && DbAt(p, start, s.log, s.places[t] + 1) == DbAt(p, start, s.log, s.places[t])
  {
    var i := DecidedAt(p, start, steps, t, a);
    LateDecision(p, start, D.Final(p, start, steps).log, i, id);
  }

  /** An answered transaction has its place among the decisions, which lead to the tables. */
  lemma {:induction false} DecidedAt(p: Platform, start: Db, steps: seq<D.Step>, t: D.TxId, a: Reply) returns (i: nat)
    requires D.ValidRun(p, start, steps) && C.Answered(D.Final(p, start, steps), t, a)
    requires forall u :: u in D.Final(p, start, steps).txs ==>
               WellFormed(JObject(D.Final(p, start, steps).txs[u].req.command.dump))
    ensures var s := D.Final(p, start, steps);
      && t in s.places && s.places[t] == i < |s.log|
      && s.log[i].Decided? && s.log[i].req == s.txs[t].req && s.log[i].reply == a
      && Faithful(p, start, s.log) && s.db == After(p, start, s.log) && DumpsWellFormed(s.log)
  {
    S.RunSound(p, start, steps);
    LogWellFormed(p, start, D.Final(p, start, steps));
    i := C.PlaceOf(p, start, D.Final(p, start, steps), t, a);
  }

  lemma LateDecision(p: Platform, start: Db, log: seq<Entry>, i: nat, id: Uuid)
    requires i < |log| && Faithful(p, start, log) && Empty(start) && HandlesExpiry(p) && DumpsWellFormed(log)
    requires log[i].Decided? && IsExpiry(log[i].req, id) && InState(After(p, start, log).roots, id, Consumed)
    ensures log[i].reply.Err? && DbAt(p, start, log, i + 1) == DbAt(p, start, log, i)
  {
    NoSuccessOnConsumed(p, start, log, i, id);
    OnlyCommitsWrite(p, start, log, i);
  }
}
