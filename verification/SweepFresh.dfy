/**
 * A sweep that starts unhindered stays unhindered: command ids and keys are derived from the
 * objects, so its commands do not get in each other's way.
 */
module SweepFresh {
  import opened Uuids
  import opened Dispatcher
  import opened DispatchLog
  import opened DispatchHistory
  import opened DispatchOutcomes
  import opened StagingExpiry
  import opened StagingSweep

  /** `uuid5` does not map two objects to one id. */
  ghost predicate DerivesApart(sw: Sweeper) {
    forall a, b, name :: a != b ==> sw.derive(a, name) != sw.derive(b, name)
  }

  /** The commands for different objects share neither a key nor a command id. */
  lemma {:induction false} SweepsApart(sw: Sweeper, a: Uuid, b: Uuid, tenant: Uuid, other: Uuid, now: int)
    requires DerivesApart(sw) && a != b
    ensures var x, y := SweepRequest(sw, tenant, a, now), SweepRequest(sw, other, b, now);
      x.command.commandId != y.command.commandId && KeyOf(x) != KeyOf(y)
  {
  }

  // ---- What one expiry can use up ----

  /** After the command at most its own key, command id, event id and message id are new. */
  ghost predicate UsesOnly(before: Db, after: Db, req: Request, choice: Choice) {
    && (forall key :: key in after.receipts && key !in before.receipts ==>
          key == KeyOf(req) && after.receipts[key].commandId == req.command.commandId)
    && (forall key :: key in before.receipts ==> key in after.receipts && after.receipts[key] == before.receipts[key])
    && (forall e :: e in after.events && e !in before.events ==> e.id == choice.eventId(0))
    && (forall m :: m in after.outbox && m !in before.outbox ==> m == choice.messageId(0))
  }

  lemma ExpiryUses(p: Platform, db: Db, req: Request, choice: Choice, id: Uuid)
    requires HandlesExpiry(p) && IsExpiry(req, id)
    ensures UsesOnly(db, Dispatched(p, db, req, choice).0, req, choice)
  {
    ReceiptEffect(p, db, req, choice);
    if CommitReply(Dispatched(p, db, req, choice).1) {
      CommitOutcome(p, db, req, choice);
      ExpireExactly(p, req, db.roots, choice, id);
      OneEventUses(db, req, Execute(p, req, db.roots, choice).value, choice);
    }
  }

  lemma OneEventUses(db: Db, req: Request, outcome: Outcome, choice: Choice)
    requires |outcome.events| == 1 && KeyOf(req) !in db.receipts && FreshIds(db, choice, 1)
    ensures UsesOnly(db, Committed(db, req, outcome, choice), req, choice)
  {
    var after := Committed(db, req, outcome, choice);
    WrittenAt(req, outcome.events, choice, 1, 0);
    OldMessagesStay(db, req, outcome, choice);
    forall e | e in after.events && e !in db.events ensures e.id == choice.eventId(0) {
      assert e in EventRows(req, outcome.events, choice, 1);
    }
    forall m | m in after.outbox && m !in db.outbox ensures m == choice.messageId(0) {
      assert IsNewMessage(choice, 1, m);
    }
  }

  // ---- Over the sweep ----

  /** Key, command id, event id and message id of this command are unused. */
  ghost predicate Unused(db: Db, req: Request, choice: Choice) {
    && KeyOf(req) !in db.receipts
    && (forall key :: key in db.receipts && key.tenant == req.context.tenant ==>
          db.receipts[key].commandId != req.command.commandId)
    && (forall e :: e in db.events ==> e.id != choice.eventId(0))
    && choice.messageId(0) !in db.outbox
  }

  /** Two commands of the sweep have nothing in common. */
  ghost predicate DrawsApart(a: Request, x: Choice, b: Request, y: Choice) {
    && KeyOf(a) != KeyOf(b) && a.command.commandId != b.command.commandId
    && x.eventId(0) != y.eventId(0) && x.messageId(0) != y.messageId(0)
  }

  ghost predicate AllApart(reqs: seq<Request>, choices: nat -> Choice) {
    forall i, j :: 0 <= i < j < |reqs| ==> DrawsApart(reqs[i], choices(i), reqs[j], choices(j))
  }

  ghost predicate AllExpiries(reqs: seq<Request>, ids: seq<Uuid>) {
    |ids| == |reqs| && forall i :: 0 <= i < |reqs| ==> IsExpiry(reqs[i], ids[i])
  }

  lemma StillUnused(before: Db, after: Db, a: Request, x: Choice, b: Request, y: Choice)
    requires UsesOnly(before, after, a, x) && DrawsApart(a, x, b, y) && Unused(before, b, y)
    ensures Unused(after, b, y)
  {
    forall key | key in after.receipts && key.tenant == b.context.tenant
      ensures after.receipts[key].commandId != b.command.commandId
    {
      if key in before.receipts {
        assert after.receipts[key] == before.receipts[key];
      }
    }
  }

  lemma {:induction false} UnusedAfter(
    p: Platform, db: Db, reqs: seq<Request>, ids: seq<Uuid>, choices: nat -> Choice, i: nat, j: nat)
    requires HandlesExpiry(p) && AllExpiries(reqs, ids) && AllApart(reqs, choices)
    requires i <= j < |reqs| && Unused(db, reqs[j], choices(j))
    ensures Unused(After(p, db, DispatchAll(p, db, reqs[..i], choices)), reqs[j], choices(j))
  {
    if i == 0 {
      assert reqs[..0] == [];
    } else {
      var k := i - 1;
      UnusedAfter(p, db, reqs, ids, choices, k, j);
      DispatchOneMore(p, db, reqs, k, choices);
      var mid := After(p, db, DispatchAll(p, db, reqs[..k], choices));
      ExpiryUses(p, mid, reqs[k], choices(k), ids[k]);
      assert DrawsApart(reqs[k], choices(k), reqs[j], choices(j));
      StillUnused(mid, Dispatched(p, mid, reqs[k], choices(k)).0, reqs[k], choices(k), reqs[j], choices(j));
    }
  }

  /** The draws of the sweep: nothing is cut short, each handler may look, and no random id comes twice. */
  ghost predicate GoodDraws(db: Db, choices: nat -> Choice, n: nat) {
    && (forall i | 0 <= i < n ::
          && !choices(i).aborted && choices(i).looks > 0
          && choices(i).messageId(0) !in db.outbox
          && forall e :: e in db.events ==> e.id != choices(i).eventId(0))
    && (forall i, j | 0 <= i < j < n ::
          choices(i).eventId(0) != choices(j).eventId(0) && choices(i).messageId(0) != choices(j).messageId(0))
  }

  /** No command was sent for these objects before. */
  ghost predicate NeverSent(db: Db, reqs: seq<Request>) {
    forall i | 0 <= i < |reqs| ::
      && KeyOf(reqs[i]) !in db.receipts
      && forall key :: key in db.receipts && key.tenant == reqs[i].context.tenant ==>
           db.receipts[key].commandId != reqs[i].command.commandId
  }

  lemma UnusedIsUnhindered(p: Platform, db: Db, req: Request, choice: Choice)
    requires Unused(db, req, choice) && !choice.aborted && choice.looks > 0
    requires forall roots, writes :: p.otherConstraints(roots, writes)
    ensures Unhindered(p, db, req, choice)
  {
    forall k | 0 <= k < |db.events| ensures db.events[k].id != choice.eventId(0) {
      assert db.events[k] in db.events;
    }
  }

  lemma SweepDrawsApart(
    db: Db, sw: Sweeper, records: seq<DueObject>, now: int, choices: nat -> Choice)
    requires DerivesApart(sw) && GoodDraws(db, choices, |records|)
    requires forall i, j :: 0 <= i < j < |records| ==> records[i].id != records[j].id
    ensures AllApart(SweepRequests(sw, records, now), choices)
  {
    forall i, j | 0 <= i < j < |records|
      ensures DrawsApart(SweepRequests(sw, records, now)[i], choices(i), SweepRequests(sw, records, now)[j], choices(j))
    {
      SweepsApart(sw, records[i].id, records[j].id, records[i].tenant, records[j].tenant, now);
    }
  }

  /**
   * A sweep over objects for which no command was sent before expires all of them and changes no
   * other object, whatever else the tables hold: its own commands never collide.
   */
  lemma {:induction false} FirstSweepExpiresAll(
    p: Platform, db: Db, sw: Sweeper, batch: nat, locked: set<Uuid>, records: seq<DueObject>, now: int,
    choices: nat -> Choice)
    requires HandlesExpiry(p) && RootsValid(db.roots) && IsSelection(db.roots, now, batch, locked, records)
    requires forall roots, writes :: p.otherConstraints(roots, writes)
    requires DerivesApart(sw) && GoodDraws(db, choices, |records|) && NeverSent(db, SweepRequests(sw, records, now))
    ensures var log := SweepLog(p, db, sw, records, now, choices);
      SweptUpTo(db.roots, After(p, db, log).roots, IdsOf(records), |records|) && Successes(log) == |records|
  {
    var reqs, ids := SweepRequests(sw, records, now), IdsOf(records);
    SweepDrawsApart(db, sw, records, now, choices);
    SelectionExpirable(sw, db.roots, now, batch, locked, records);
    forall i | 0 <= i < |reqs|
      ensures Unhindered(p, After(p, db, DispatchAll(p, db, reqs[..i], choices)), reqs[i], choices(i))
    {
      assert Unused(db, reqs[i], choices(i));
      UnusedAfter(p, db, reqs, ids, choices, i, i);
      UnusedIsUnhindered(p, After(p, db, DispatchAll(p, db, reqs[..i], choices)), reqs[i], choices(i));
    }
    SweepExpiresSelection(p, db, sw, batch, locked, records, now, choices);
  }
}
