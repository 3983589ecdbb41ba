/** Delivery and commit belong together: which stored messages stand for committed commands. */
module DurableDelivery {
  import opened Common
  import opened Uuids
  import opened EventContracts
  import opened Outbox
  import opened StagedObjects
  import opened Dispatcher
  import opened DispatchLog
  import opened DispatchTopics
  import opened OtherWriters
  import S = DispatchSteps
  import C = DispatchCallers
  import LeaseDelivery
  import opened DurableSystem
  import D = DispatchProtocol
  import L = LeaseProtocol
  import LeaseInvariants

  /** An event of a command that succeeded, listed in that command's receipt, stands behind the message. */
  ghost predicate Backed(db: Db, row: Row) {
    exists i, key | 0 <= i < |db.events| && key in db.receipts :: BackedBy(db, row, i, key)
  }

  ghost predicate BackedBy(db: Db, row: Row, i: int, key: ReceiptKey)
    requires 0 <= i < |db.events| && key in db.receipts
  {
    var e, r := db.events[i], db.receipts[key];
    && Carries(row, e) && key.tenant == e.tenant && e.commandId == Some(r.commandId) && r.status == Succeeded
    && Format(e.id) in r.eventIds
  }

  lemma OwnerLists(db: Db, i: nat) returns (key: ReceiptKey)
    requires Consistent(db) && i < |db.events| && db.events[i].writer == ByDispatcher
    ensures key in db.receipts && key.tenant == db.events[i].tenant
    ensures db.events[i].commandId == Some(db.receipts[key].commandId) && db.receipts[key].status == Succeeded
    ensures Format(db.events[i].id) in db.receipts[key].eventIds
  {
    var e := db.events[i];
    assert OwnedByReceipt(db.receipts, e);
    key :| key in db.receipts && key.tenant == e.tenant && db.receipts[key].commandId == e.commandId.value;
    assert ReceiptDone(key, db.receipts[key]);
    assert db.receipts[key].eventIds == EventIdsOf(db.events, key.tenant, db.receipts[key].commandId);
    ChooseKeeps(db.events, ev => ListedId(ev, key.tenant, db.receipts[key].commandId), i, Format(e.id));
  }

  /** Receipts list events of the dispatcher and no others. */
  lemma ListedIsDispatched(db: Db, key: ReceiptKey, id: Uuid)
    requires EventsListed(db) && key in db.receipts && Format(id) in db.receipts[key].eventIds
    ensures DispatchedEvent(db.events, id)
  {
    var f := e => ListedId(e, key.tenant, db.receipts[key].commandId);
    assert db.receipts[key].eventIds == Choose(db.events, f);
    var j := ChooseFrom(db.events, f, Format(id));
    FormatInjective(db.events[j].id, id);
    assert db.events[j].id == id && db.events[j].writer == ByDispatcher;
  }

  lemma BackedIsDispatched(db: Db, row: Row)
    requires EventsListed(db) && Backed(db, row)
    ensures DispatchedEvent(db.events, row.eventId)
  {
    var i, key :| 0 <= i < |db.events| && key in db.receipts && BackedBy(db, row, i, key);
    ListedIsDispatched(db, key, db.events[i].id);
  }

  lemma CarriesSame(a: Row, b: Row, e: DomainEvent)
    requires LeaseInvariants.SameMessage(a, b) && Carries(a, e)
    ensures Carries(b, e)
  {
  }

  lemma DispatchedIsBacked(db: Db, rows: Table, id: MessageId)
    requires Consistent(db) && SameMessages(db.outbox, rows)
    requires id in rows && DispatchedEvent(db.events, rows[id].eventId)
    ensures Backed(db, rows[id])
  {
    assert HasEvent(db.events, db.outbox[id]);
    var i := EventOfRow(db.events, db.outbox[id]);
    var j :| 0 <= j < |db.events| && db.events[j].id == rows[id].eventId && db.events[j].writer == ByDispatcher;
    assert i == j;
    var key := OwnerLists(db, i);
    CarriesSame(db.outbox[id], rows[id], db.events[i]);
    assert BackedBy(db, rows[id], i, key);
  }

  lemma {:induction false} RunConsistent(p: Platform, cfg: L.Config, start: Db, steps: seq<Step>)
    requires L.ValidConfig(cfg) && ValidRun(p, cfg, start, steps) && Empty(start)
    ensures var s := Final(p, cfg, start, steps);
      && Consistent(s.commands.db) && SameMessages(s.commands.db.outbox, s.delivery.rows)
      && OthersStayOff(s.commands.db.events, s.commands.db.outbox)
      && (HandlersKeepTopics(p) ==> OwnStayOn(s.commands.db.events, s.commands.db.outbox))
  {
    RunProjects(p, cfg, start, steps);
    C.CommittedTablesConsistent(p, start, CommandSteps(steps));
    S.RunSound(p, start, CommandSteps(steps));
    var log := Final(p, cfg, start, steps).commands.log;
    OthersAlwaysOff(p, start, log);
    if HandlersKeepTopics(p) {
      OwnAlwaysOn(p, start, log);
    }
  }

  /** Who wrote the event of a stored message tells whether a receipt stands behind it. */
  lemma BackedByTopic(db: Db, rows: Table, id: MessageId)
    requires Consistent(db) && SameMessages(db.outbox, rows) && OthersStayOff(db.events, db.outbox) && id in rows
    ensures rows[id].topic in DISPATCH_TOPICS ==> Backed(db, rows[id])
    ensures OwnStayOn(db.events, db.outbox) ==> (Backed(db, rows[id]) <==> rows[id].topic in DISPATCH_TOPICS)
  {
    assert rows[id].topic == db.outbox[id].topic && rows[id].eventId == db.outbox[id].eventId;
    if rows[id].topic in DISPATCH_TOPICS {
      DispatchedIsBacked(db, rows, id);
    }
    if Backed(db, rows[id]) {
      BackedIsDispatched(db, rows[id]);
    }
  }

  /**
   * Only stored messages are delivered. On the cockpit and retention topics a message is stored
   * only if its command has committed; and with handlers that keep to these topics, a receipt
   * stands behind a message if and only if it is on one of them.
   */
  lemma {:induction false} DeliveredMeansCommitted(
    p: Platform, cfg: L.Config, start: Db, steps: seq<Step>, id: MessageId)
    requires L.ValidConfig(cfg) && ValidRun(p, cfg, start, steps) && Empty(start)
    requires var s := Final(p, cfg, start, steps); id in s.delivery.rows || L.Times(s.delivery.delivered, id) > 0
    ensures var s := Final(p, cfg, start, steps);
      && id in s.delivery.rows
      && (s.delivery.rows[id].topic in DISPATCH_TOPICS ==> Backed(s.commands.db, s.delivery.rows[id]))
      && (HandlersKeepTopics(p) ==>
            (Backed(s.commands.db, s.delivery.rows[id]) <==> s.delivery.rows[id].topic in DISPATCH_TOPICS))
  {
    var s := Final(p, cfg, start, steps);
    RunProjects(p, cfg, start, steps);
    RunConsistent(p, cfg, start, steps);
    if L.Times(s.delivery.delivered, id) > 0 {
      LeaseDelivery.DeliveredAreStored(cfg, AllDeliverySteps(p, cfg, start, steps), id);
    }
    BackedByTopic(s.commands.db, s.delivery.rows, id);
  }

  lemma StoredOnce(db: Db, rows: Table, i: nat)
    requires Consistent(db) && SameMessages(db.outbox, rows) && i < |db.events| && db.events[i].writer == ByDispatcher
    ensures HasMessage(rows, db.events[i])
    ensures forall a, b | a in rows && b in rows ::
      rows[a].eventId == db.events[i].id && rows[b].eventId == db.events[i].id ==> a == b
  {
    var e := db.events[i];
    assert HasMessage(db.outbox, e);
    var id :| id in db.outbox && Carries(db.outbox[id], e);
    CarriesSame(db.outbox[id], rows[id], e);
    forall a, b | a in rows && b in rows && rows[a].eventId == e.id && rows[b].eventId == e.id ensures a == b {
      assert DispatchedEvent(db.events, e.id);
      assert Rivals(db.events, db.outbox[a], db.outbox[b]);
    }
  }

  /** Every event the dispatcher has committed is stored for delivery, exactly once. */
  lemma {:induction false} CommittedMeansStored(p: Platform, cfg: L.Config, start: Db, steps: seq<Step>, i: nat)
    requires L.ValidConfig(cfg) && ValidRun(p, cfg, start, steps) && Empty(start)
    requires i < |Final(p, cfg, start, steps).commands.db.events|
    requires Final(p, cfg, start, steps).commands.db.events[i].writer == ByDispatcher
    ensures var rows, e := Final(p, cfg, start, steps).delivery.rows, Final(p, cfg, start, steps).commands.db.events[i];
      && HasMessage(rows, e)
      && forall a, b | a in rows && b in rows :: rows[a].eventId == e.id && rows[b].eventId == e.id ==> a == b
  {
    RunConsistent(p, cfg, start, steps);
    StoredOnce(Final(p, cfg, start, steps).commands.db, Final(p, cfg, start, steps).delivery.rows, i);
  }

  /** A run of one write of other code. */
  lemma {:induction false} FirstWrite(p: Platform, cfg: L.Config, start: Db, w: OtherWrite) returns (steps: seq<Step>)
    requires L.ValidConfig(cfg) && Empty(start) && OtherWriteAllowed(p, start, w)
    ensures ValidRun(p, cfg, start, steps) && Final(p, cfg, start, steps).commands.db.receipts == map[]
    ensures Final(p, cfg, start, steps).delivery.rows == AddAll(map[], w.ids, w.rows)
  {
    var step := Command(D.WriteElsewhere(w));
    assert ValidRun(p, cfg, start, []) && Final(p, cfg, start, []) == Init(start, cfg);
    steps := [step];
    assert steps[..0] == [] && Enabled(p, cfg, Init(start, cfg), step);
  }

  /** Its messages are stored, and no receipt stands behind them. */
  lemma {:induction false} WriteWithoutReceipt(p: Platform, cfg: L.Config, start: Db, w: OtherWrite, k: nat)
    returns (steps: seq<Step>)
    requires L.ValidConfig(cfg) && Empty(start) && OtherWriteAllowed(p, start, w) && k < |w.ids|
    ensures ValidRun(p, cfg, start, steps)
    ensures var s := Final(p, cfg, start, steps);
      w.ids[k] in s.delivery.rows && s.delivery.rows[w.ids[k]] == w.rows[k] && !Backed(s.commands.db, w.rows[k])
  {
    steps := FirstWrite(p, cfg, start, w);
    AddAllAt(map[], w.ids, w.rows, k);
  }

  /**
   * An export of a submission package: its message is stored, the webhook worker accepts it, and
   * no receipt stands behind it.
   */
  lemma {:induction false} ExportWithoutReceipt(
    p: Platform, cfg: L.Config, start: Db, tenant: Uuid, actor: Uuid, eventId: Uuid, package: Uuid, revision: int,
    manifest: string, archive: string, correlationId: Option<Uuid>, now: int)
    returns (steps: seq<Step>, row: Row)
    requires L.ValidConfig(cfg) && Empty(start) && StorageKeysUnique(start.roots)
    requires p.otherConstraints(start.roots, map[])
    requires |archive| == 64
    ensures row == ExportMessage(tenant, eventId, package, manifest, archive, now) && WebhookAccepts(row.payload)
    ensures ValidRun(p, cfg, start, steps) && !Backed(Final(p, cfg, start, steps).commands.db, row)
    ensures 0 in Final(p, cfg, start, steps).delivery.rows && Final(p, cfg, start, steps).delivery.rows[0] == row
  {
    var w := ExportWrite(tenant, actor, eventId, 0, 1, package, revision, manifest, archive, correlationId, now);
    ExportAllowed(p, start, tenant, actor, eventId, 0, 1, package, revision, manifest, archive, correlationId, now);
    row := w.rows[0];
    steps := WriteWithoutReceipt(p, cfg, start, w, 0);
  }

  // ---- The parts move freely in the whole ----

  /** Every run of the dispatcher and of other code is a run of the system. */
  lemma {:induction false} CommandsRunHere(p: Platform, cfg: L.Config, start: Db, run: seq<D.Step>)
    returns (steps: seq<Step>)
    requires L.ValidConfig(cfg) && D.ValidRun(p, start, run)
    ensures ValidRun(p, cfg, start, steps) && Final(p, cfg, start, steps).commands == D.Final(p, start, run)
    decreases |run|
  {
    if run == [] {
      steps := [];
    } else {
      var n := |run| - 1;
      var before := CommandsRunHere(p, cfg, start, run[..n]);
      steps := before + [Command(run[n])];
      assert steps[..|before|] == before;
    }
  }

  /** Workers do in the system what they do on their own, save that lookups answer for retention. */
  lemma {:induction false} WorkersMoveHere(p: Platform, cfg: L.Config, s: System, move: L.Step)
    requires L.ValidConfig(cfg) && L.Enabled(cfg, s.delivery, move) && !move.Insert?
    requires move.Answer? ==> !IsRetention(cfg, move.w)
    ensures Enabled(p, cfg, s, Deliver(move))
    ensures Next(p, cfg, s, Deliver(move)).delivery == L.Next(cfg, s.delivery, move)
    ensures Next(p, cfg, s, Deliver(move)).commands == s.commands
  {
  }
}
