/**
 * The expiry sweep of the retention worker: it selects due objects and dispatches one command
 * per object, with command ids derived from the object.
 */
module StagingSweep {
  import opened Common
  import opened Text
  import opened Json
  import opened Uuids
  import opened StagedObjects
  import opened CommandRequests
  import opened Dispatcher
  import opened DispatcherStore
  import opened DispatchLog
  import opened DispatchHistory
  import opened StagingExpiry
  import D = DispatchProtocol
  import I = DispatchInvariant
  import C = DispatchCallers

  // ---- The command of a sweep ----

  /** The system actor, and `uuid5` of an object id and a name. */
  datatype Sweeper = Sweeper(actor: Uuid, derive: (Uuid, string) -> Uuid)

  /** The command a sweep sends for an object; only the time of receipt differs between sweeps. */
  function SweepRequest(sw: Sweeper, tenant: Uuid, id: Uuid, now: int): Request {
    var commandId, key := sw.derive(id, "dce-retention:expire"), sw.derive(id, "dce-retention:expire-receipt");
    Request(Command(EXPIRE, commandId, key, Some(id), SweepDump(commandId, key, id)),
            Context(tenant, sw.actor, "SYSTEM", now))
  }

  function SweepDump(commandId: Uuid, key: Uuid, id: Uuid): seq<Field> {
    [Field("command_id", JString(Format(commandId))),
     Field("idempotency_key", JString(Format(key))),
     Field("correlation_id", JString(Format(id))),
     Field("storage_object_id", JString(Format(id)))]
  }

  lemma SweepDumpReads(commandId: Uuid, key: Uuid, id: Uuid)
    ensures var dump := SweepDump(commandId, key, id);
      WellFormed(JObject(dump)) && Get(dump, "storage_object_id") == Some(JString(Format(id)))
  {
    var dump := SweepDump(commandId, key, id);
    assert dump[0].key == "command_id" && dump[1].key == "idempotency_key";
    assert dump[2].key == "correlation_id" && dump[3].key == "storage_object_id";
    FoundAt(dump, 3);
  }

  lemma SweepTarget(sw: Sweeper, tenant: Uuid, id: Uuid, now: int)
    ensures IsExpiry(SweepRequest(sw, tenant, id, now), id)
    ensures WellFormed(JObject(SweepRequest(sw, tenant, id, now).command.dump))
  {
    SweepDumpReads(sw.derive(id, "dce-retention:expire"), sw.derive(id, "dce-retention:expire-receipt"), id);
    ParseFormat(id);
  }

  /** Every sweep of an object is the same command under the same key. */
  lemma {:induction false} SweepsCoincide(sw: Sweeper, tenant: Uuid, id: Uuid, now: int, later: int)
    ensures SweepRequest(sw, tenant, id, now).command == SweepRequest(sw, tenant, id, later).command
    ensures KeyOf(SweepRequest(sw, tenant, id, now)) == KeyOf(SweepRequest(sw, tenant, id, later))
  {
  }

  /** A sweep after a successful one is answered with the first reply and changes nothing. */
  lemma {:induction false} SweepAgain(
    p: Platform, start: Db, log: seq<Entry>, i: nat, j: nat, sw: Sweeper, tenant: Uuid, id: Uuid, now: int, later: int)
    requires i < j < |log| && Faithful(p, start, log) && Empty(start) && Commits(log, i)
    requires log[j].Decided? && !log[j].choice.aborted && log[i].req == SweepRequest(sw, tenant, id, now)
    requires log[j].req == SweepRequest(sw, tenant, id, later)
    ensures log[j].reply == Ok(log[i].reply.value.(replayed := true))
      && DbAt(p, start, log, j + 1) == DbAt(p, start, log, j)
  {
    SweepsCoincide(sw, tenant, id, now, later);
    ReplyOnRecord(p, start, log, i, j);
    OnlyCommitsWrite(p, start, log, j);
  }

  /** Concurrent sweeps of one object commit at most once. */
  lemma {:induction false} ConcurrentSweeps(
    p: Platform, start: Db, steps: seq<D.Step>, t: D.TxId, u: D.TxId, a: Reply, b: Reply,
    sw: Sweeper, tenant: Uuid, id: Uuid, now: int, later: int)
    requires D.ValidRun(p, start, steps) && HandlesExpiry(p)
    requires C.Answered(D.Final(p, start, steps), t, a) && CommitReply(a)
    requires C.Answered(D.Final(p, start, steps), u, b) && CommitReply(b)
    requires D.Final(p, start, steps).txs[t].req == SweepRequest(sw, tenant, id, now)
    requires D.Final(p, start, steps).txs[u].req == SweepRequest(sw, tenant, id, later)
    ensures t == u
  {
    SweepTarget(sw, tenant, id, now);
    SweepTarget(sw, tenant, id, later);
    ConcurrentExpiry(p, start, steps, t, u, a, b, id);
  }

  // ---- The selection and the loop ----

  /** An object the sweep has selected. */
  datatype DueObject = DueObject(id: Uuid, tenant: Uuid)

  predicate DueAt(roots: Roots, now: int, id: Uuid) {
    id in roots && roots[id].Staged? && roots[id].row.state !in {Consumed, ObjectState.Expired}
    && roots[id].row.identity.expiresAt <= now
  }

  /** ORDER BY expires_at, id. */
  predicate Sooner(roots: Roots, a: Uuid, b: Uuid)
    requires a in roots && roots[a].Staged? && b in roots && roots[b].Staged?
  {
    var x, y := roots[a].row.identity.expiresAt, roots[b].row.identity.expiresAt;
    x < y || (x == y && StringLeq(a.digits, b.digits))
  }

  /**
   * What the first transaction of the sweep reads, in whatever order: due objects that nobody
   * holds, the soonest ones if there are more than a batch.
   */
  ghost predicate IsSelection(roots: Roots, now: int, batch: nat, locked: set<Uuid>, records: seq<DueObject>) {
    && |records| <= batch
    && (forall i, j :: 0 <= i < j < |records| ==> records[i].id != records[j].id)
    && (forall i | 0 <= i < |records| ::
          DueAt(roots, now, records[i].id) && records[i].id !in locked
          && records[i].tenant == roots[records[i].id].row.identity.tenant)
    && (forall id | DueAt(roots, now, id) && id !in locked && !IsSelected(records, id) ::
          |records| == batch && forall i :: 0 <= i < |records| ==> Sooner(roots, records[i].id, id))
  }

  ghost predicate IsSelected(records: seq<DueObject>, id: Uuid) {
    exists i :: 0 <= i < |records| && records[i].id == id
  }

  // ---- One command after another ----

  /** The log of dispatching these requests in order. */
  ghost function DispatchAll(p: Platform, db: Db, reqs: seq<Request>, choices: nat -> Choice): (log: seq<Entry>)
    ensures |log| == |reqs|
  {
    if reqs == [] then []
    else
      var n := |reqs| - 1;
      var before := DispatchAll(p, db, reqs[..n], choices);
      before + [Decided(reqs[n], choices(n), Dispatched(p, After(p, db, before), reqs[n], choices(n)).1)]
  }

  ghost function Successes(log: seq<Entry>): nat {
    if log == [] then 0
    else Successes(log[..|log| - 1]) + if log[|log| - 1].Decided? && log[|log| - 1].reply.Ok? then 1 else 0
  }

  lemma {:induction false} DispatchOneMore(p: Platform, db: Db, reqs: seq<Request>, i: nat, choices: nat -> Choice)
    requires i < |reqs|
    ensures var before, after := DispatchAll(p, db, reqs[..i], choices), DispatchAll(p, db, reqs[..i + 1], choices);
      var (db', reply) := Dispatched(p, After(p, db, before), reqs[i], choices(i));
      && after == before + [Decided(reqs[i], choices(i), reply)]
      && After(p, db, after) == db'
      && Successes(after) == Successes(before) + if reply.Ok? then 1 else 0
  {
    assert reqs[..i + 1][..i] == reqs[..i];
    var before, after := DispatchAll(p, db, reqs[..i], choices), DispatchAll(p, db, reqs[..i + 1], choices);
    assert after[..|before|] == before;
  }

  lemma {:induction false} RequestAt(p: Platform, db: Db, reqs: seq<Request>, choices: nat -> Choice, i: nat)
    requires i < |reqs|
    ensures DispatchAll(p, db, reqs, choices)[i].Decided? && DispatchAll(p, db, reqs, choices)[i].req == reqs[i]
    decreases |reqs|
  {
    if i < |reqs| - 1 {
      RequestAt(p, db, reqs[..|reqs| - 1], choices, i);
    }
  }

  lemma ContinuesByOne(p: Platform, start: Db, past: seq<Entry>, before: seq<Entry>, e: Entry)
    requires Faithful(p, start, past + before) && Answers(p, After(p, start, past + before), e)
    ensures var all := past + (before + [e]);
      Faithful(p, start, all) && After(p, start, all) == Apply(p, After(p, start, past + before), e)
  {
    I.LogOne(p, start, past + before, e);
    assert past + (before + [e]) == past + before + [e];
  }

  /** Dispatching more requests continues the sequence of decisions. */
  lemma {:induction false} Continues(
    p: Platform, start: Db, past: seq<Entry>, reqs: seq<Request>, choices: nat -> Choice)
    requires Faithful(p, start, past)
    ensures var more := DispatchAll(p, After(p, start, past), reqs, choices);
      Faithful(p, start, past + more) && After(p, start, past + more) == After(p, After(p, start, past), more)
    decreases |reqs|
  {
    var db := After(p, start, past);
    if reqs == [] {
      assert past + DispatchAll(p, db, reqs, choices) == past;
    } else {
      var n := |reqs| - 1;
      Continues(p, start, past, reqs[..n], choices);
      assert reqs[..n + 1] == reqs;
      DispatchOneMore(p, db, reqs, n, choices);
      var before, more := DispatchAll(p, db, reqs[..n], choices), DispatchAll(p, db, reqs, choices);
      assert more == before + [more[n]];
      ContinuesByOne(p, start, past, before, more[n]);
    }
  }

  // ---- The loop ----

  function SweepRequests(sw: Sweeper, records: seq<DueObject>, now: int): (reqs: seq<Request>)
    ensures |reqs| == |records|
  {
    seq(|records|, i requires 0 <= i < |records| => SweepRequest(sw, records[i].tenant, records[i].id, now))
  }

  /** The log of a sweep over the selected objects. */
  ghost function SweepLog(
    p: Platform, db: Db, sw: Sweeper, records: seq<DueObject>, now: int, choices: nat -> Choice): (log: seq<Entry>)
    ensures |log| == |records|
  {
    DispatchAll(p, db, SweepRequests(sw, records, now), choices)
  }

  lemma SweepEntry(p: Platform, db: Db, sw: Sweeper, records: seq<DueObject>, now: int, choices: nat -> Choice, i: nat)
    requires i < |records|
    ensures var e := SweepLog(p, db, sw, records, now, choices)[i];
      e.Decided? && IsExpiry(e.req, records[i].id) && WellFormed(JObject(e.req.command.dump))
  {
    RequestAt(p, db, SweepRequests(sw, records, now), choices, i);
    SweepTarget(sw, records[i].tenant, records[i].id, now);
  }

  lemma SweepWellFormed(p: Platform, db: Db, sw: Sweeper, records: seq<DueObject>, now: int, choices: nat -> Choice)
    ensures DumpsWellFormed(SweepLog(p, db, sw, records, now, choices))
  {
    forall i | 0 <= i < |records|
      ensures var e := SweepLog(p, db, sw, records, now, choices)[i];
        e.Decided? && WellFormed(JObject(e.req.command.dump))
    {
      SweepEntry(p, db, sw, records, now, choices, i);
    }
  }

  lemma BothWellFormed(past: seq<Entry>, more: seq<Entry>)
    requires DumpsWellFormed(past) && DumpsWellFormed(more)
    ensures DumpsWellFormed(past + more)
  {
  }

  lemma SweepContinues(
    p: Platform, start: Db, past: seq<Entry>, sw: Sweeper, records: seq<DueObject>, now: int, choices: nat -> Choice)
    requires Faithful(p, start, past) && DumpsWellFormed(past)
    ensures var db := After(p, start, past);
      var more := SweepLog(p, db, sw, records, now, choices);
      Faithful(p, start, past + more) && DumpsWellFormed(past + more)
        && After(p, start, past + more) == After(p, db, more)
  {
    var db := After(p, start, past);
    Continues(p, start, past, SweepRequests(sw, records, now), choices);
    SweepWellFormed(p, db, sw, records, now, choices);
    BothWellFormed(past, SweepLog(p, db, sw, records, now, choices));
  }

  lemma ExpiredInTheEnd(p: Platform, start: Db, log: seq<Entry>, i: nat, id: Uuid)
    requires i < |log| && Faithful(p, start, log) && DumpsWellFormed(log) && Empty(start) && HandlesExpiry(p)
    requires log[i].Decided? && IsExpiry(log[i].req, id) && log[i].reply.Ok?
    ensures InState(After(p, start, log).roots, id, ObjectState.Expired)
  {
    SuccessMeansExpired(p, start, log, i, |log|, id);
    assert log[..|log|] == log;
  }

  /** Every success the sweep counts leaves its object EXPIRED. */
  lemma {:induction false} CountedMeansExpired(
    p: Platform, start: Db, past: seq<Entry>, sw: Sweeper, records: seq<DueObject>, now: int, choices: nat -> Choice,
    i: nat)
    requires Faithful(p, start, past) && DumpsWellFormed(past) && Empty(start) && HandlesExpiry(p) && i < |records|
    ensures var db := After(p, start, past);
      var log := SweepLog(p, db, sw, records, now, choices);
      log[i].Decided? && (log[i].reply.Ok? ==> InState(After(p, db, log).roots, records[i].id, ObjectState.Expired))
  {
    var db := After(p, start, past);
    var log := SweepLog(p, db, sw, records, now, choices);
    SweepContinues(p, start, past, sw, records, now, choices);
    SweepEntry(p, db, sw, records, now, choices, i);
    assert (past + log)[|past| + i] == log[i];
    if log[i].reply.Ok? {
      ExpiredInTheEnd(p, start, past + log, |past| + i, records[i].id);
    }
  }

  /**
   * `_expire_due_objects`: one command per selected object; failures are skipped, successes
   * counted. `start` and `past` are the decisions that led to the tables.
   */
  method ExpireDueObjects(
    d: CommandDispatcher, sw: Sweeper, batch: nat, locked: set<Uuid>, records: seq<DueObject>, now: int,
    choices: nat -> Choice, ghost start: Db, ghost past: seq<Entry>)
    returns (expired: nat)
    requires IsSelection(d.roots, now, batch, locked, records)
    requires HandlesExpiry(d.platform) && Empty(start) && Faithful(d.platform, start, past) && DumpsWellFormed(past)
    requires d.Tables() == After(d.platform, start, past)
    modifies d
    ensures var log := SweepLog(d.platform, old(d.Tables()), sw, records, now, choices);
      && d.Tables() == After(d.platform, old(d.Tables()), log) && expired == Successes(log)
      && forall i :: 0 <= i < |records| ==>
           log[i].Decided? && (log[i].reply.Ok? ==> InState(d.roots, records[i].id, ObjectState.Expired))
  {
    expired := 0;
    ghost var p, db := d.platform, d.Tables();
    ghost var reqs := SweepRequests(sw, records, now);
    for i := 0 to |records|
      invariant d.Tables() == After(p, db, DispatchAll(p, db, reqs[..i], choices))
      invariant expired == Successes(DispatchAll(p, db, reqs[..i], choices))
    {
      DispatchOneMore(p, db, reqs, i, choices);
      var reply := d.Dispatch(SweepRequest(sw, records[i].tenant, records[i].id, now), choices(i));
      if reply.Ok? {
        expired := expired + 1;
      }
    }
    assert reqs[..|records|] == reqs;
    forall i | 0 <= i < |records|
      ensures var log := SweepLog(p, db, sw, records, now, choices);
        log[i].Decided? && (log[i].reply.Ok? ==> InState(d.roots, records[i].id, ObjectState.Expired))
    {
      CountedMeansExpired(p, start, past, sw, records, now, choices, i);
    }
  }

  // ---- A sweep that nothing gets in the way of ----

  ghost predicate SweepUnhindered(p: Platform, db: Db, reqs: seq<Request>, choices: nat -> Choice) {
    forall i :: 0 <= i < |reqs| ==>
      Unhindered(p, After(p, db, DispatchAll(p, db, reqs[..i], choices)), reqs[i], choices(i))
  }

  /** The roots after the first `i` of the ids have been expired. */
  ghost predicate SweptUpTo(before: Roots, after: Roots, ids: seq<Uuid>, i: nat)
    requires i <= |ids|
  {
    && RootsValid(after)
    && (forall k :: 0 <= k < i ==> InState(after, ids[k], ObjectState.Expired))
    && (forall id :: id in before && id !in ids[..i] ==> id in after && after[id] == before[id])
  }

  ghost predicate AllExpirable(reqs: seq<Request>, roots: Roots, ids: seq<Uuid>) {
    |ids| == |reqs| && NoDuplicates(ids)
    && forall i :: 0 <= i < |reqs| ==> IsExpiry(reqs[i], ids[i]) && Expirable(reqs[i], roots, ids[i])
  }

  lemma SweptOne(p: Platform, db: Db, req: Request, choice: Choice, id: Uuid)
    requires HandlesExpiry(p) && IsExpiry(req, id) && RootsValid(db.roots)
    requires Unhindered(p, db, req, choice) && Expirable(req, db.roots, id)
    ensures var (db', reply) := Dispatched(p, db, req, choice);
      && reply.Ok? && RootsValid(db'.roots) && InState(db'.roots, id, ObjectState.Expired)
      && forall other :: other in db.roots && other != id ==> other in db'.roots && db'.roots[other] == db.roots[other]
  {
    UnhinderedExpiry(p, db, req, choice, id);
    CommittedExpiryMoves(p, db, req, choice, id);
    DispatchKeepsValid(p, db, req, choice);
  }

  lemma SweptMore(before: Roots, mid: Roots, after: Roots, ids: seq<Uuid>, i: nat)
    requires i < |ids| && NoDuplicates(ids) && SweptUpTo(before, mid, ids, i) && RootsValid(after)
    requires InState(after, ids[i], ObjectState.Expired)
    requires forall other :: other in mid && other != ids[i] ==> other in after && after[other] == mid[other]
    ensures SweptUpTo(before, after, ids, i + 1)
  {
    assert ids[..i + 1] == ids[..i] + [ids[i]];
  }

  lemma {:induction false} SweepProgress(
    p: Platform, db: Db, reqs: seq<Request>, ids: seq<Uuid>, choices: nat -> Choice, i: nat)
    requires HandlesExpiry(p) && RootsValid(db.roots) && AllExpirable(reqs, db.roots, ids)
    requires SweepUnhindered(p, db, reqs, choices) && i <= |reqs|
    ensures var log := DispatchAll(p, db, reqs[..i], choices);
      SweptUpTo(db.roots, After(p, db, log).roots, ids, i) && Successes(log) == i
  {
    if i == 0 {
      assert reqs[..0] == [];
    } else {
      var k := i - 1;
      SweepProgress(p, db, reqs, ids, choices, k);
      DispatchOneMore(p, db, reqs, k, choices);
      var mid := After(p, db, DispatchAll(p, db, reqs[..k], choices));
      assert ids[k] !in ids[..k];
      assert Expirable(reqs[k], db.roots, ids[k]) && mid.roots[ids[k]] == db.roots[ids[k]];
      SweptOne(p, mid, reqs[k], choices(k), ids[k]);
      SweptMore(db.roots, mid.roots, Dispatched(p, mid, reqs[k], choices(k)).0.roots, ids, k);
    }
  }

  function IdsOf(records: seq<DueObject>): (ids: seq<Uuid>)
    ensures |ids| == |records|
  {
    seq(|records|, i requires 0 <= i < |records| => records[i].id)
  }

  lemma SelectionExpirable(sw: Sweeper, roots: Roots, now: int, batch: nat, locked: set<Uuid>, records: seq<DueObject>)
    requires IsSelection(roots, now, batch, locked, records)
    ensures AllExpirable(SweepRequests(sw, records, now), roots, IdsOf(records))
  {
    forall i | 0 <= i < |records|
      ensures IsExpiry(SweepRequests(sw, records, now)[i], records[i].id)
      ensures Expirable(SweepRequests(sw, records, now)[i], roots, records[i].id)
    {
      SweepTarget(sw, records[i].tenant, records[i].id, now);
    }
  }

  /** A sweep that nothing gets in the way of expires every object it selected, and changes no other. */
  lemma {:induction false} SweepExpiresSelection(
    p: Platform, db: Db, sw: Sweeper, batch: nat, locked: set<Uuid>, records: seq<DueObject>, now: int,
    choices: nat -> Choice)
    requires HandlesExpiry(p) && RootsValid(db.roots) && IsSelection(db.roots, now, batch, locked, records)
    requires SweepUnhindered(p, db, SweepRequests(sw, records, now), choices)
    ensures var log := SweepLog(p, db, sw, records, now, choices);
      SweptUpTo(db.roots, After(p, db, log).roots, IdsOf(records), |records|) && Successes(log) == |records|
  {
    SelectionExpirable(sw, db.roots, now, batch, locked, records);
    SweepCompletes(p, db, SweepRequests(sw, records, now), IdsOf(records), choices);
  }

  lemma SweepCompletes(p: Platform, db: Db, reqs: seq<Request>, ids: seq<Uuid>, choices: nat -> Choice)
    requires HandlesExpiry(p) && RootsValid(db.roots) && AllExpirable(reqs, db.roots, ids)
    requires SweepUnhindered(p, db, reqs, choices)
    ensures var log := DispatchAll(p, db, reqs, choices);
      SweptUpTo(db.roots, After(p, db, log).roots, ids, |reqs|) && Successes(log) == |reqs|
  {
    SweepProgress(p, db, reqs, ids, choices, |reqs|);
    assert reqs[..|reqs|] == reqs;
  }
}
