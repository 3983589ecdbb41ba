/**
 * Commands dispatched one after another, with writes of other code in between: what the receipts,
 * events and messages look like after any such sequence.
 */
module DispatchLog {
  import opened Common
  import opened Uuids
  import opened EventContracts
  import opened Outbox
  import opened Dispatcher

  /** A command with its reply, or a transaction of other code. */
  datatype Entry = Decided(req: Request, choice: Choice, reply: Reply) | Elsewhere(write: OtherWrite)

  function Apply(p: Platform, db: Db, e: Entry): Db {
    match e
    case Decided(req, choice, _) => Dispatched(p, db, req, choice).0
    case Elsewhere(write) => Written(p, db, write)
  }

  /** The database after the entries in order. */
  ghost function After(p: Platform, start: Db, log: seq<Entry>): Db {
    if log == [] then start else Apply(p, After(p, start, log[..|log| - 1]), log[|log| - 1])
  }

  ghost predicate Answers(p: Platform, db: Db, e: Entry) {
    e.Decided? ==> e.reply == Dispatched(p, db, e.req, e.choice).1
  }

  /** Every caller got the reply of the dispatcher at that point of the sequence. */
  ghost predicate Faithful(p: Platform, start: Db, log: seq<Entry>) {
    log == [] || (
      var before := log[..|log| - 1];
      Faithful(p, start, before) && Answers(p, After(p, start, before), log[|log| - 1]))
  }

  /** The reply of a transaction that committed a handler's outcome. */
  ghost predicate CommitReply(reply: Reply) {
    reply.Ok? && !reply.value.replayed
  }

  // ---- What one dispatch does ----

  lemma ReplayIsMarked(receipt: Receipt, text: string)
    ensures !CommitReply(Resolve(receipt, text))
  {
  }

  // ---- The database after any sequence ----

  /** The reply a receipt stands for. */
  ghost function StoredResult(key: ReceiptKey, r: Receipt): DispatchResult
    requires r.resultCode.Some? && r.aggregateRefs.Some?
  {
    DispatchResult("SUCCEEDED", Format(r.commandId), Format(key.idempotencyKey),
                   r.resultCode.value, r.aggregateRefs.value, r.eventIds, false)
  }

  ghost predicate ReceiptDone(key: ReceiptKey, r: Receipt) {
    && r.status == Succeeded
    && r.resultCode.Some? && r.aggregateRefs.Some? && r.completedAt.Some? && r.httpStatus == Some(201)
    && r.responseBody == Some(ReceiptBody(StoredResult(key, r)))
  }

  function ListedId(e: DomainEvent, tenant: Uuid, commandId: Uuid): Option<string> {
    if e.writer == ByDispatcher && e.tenant == tenant && e.commandId == Some(commandId) then Some(Format(e.id))
    else None
  }

  /** The ids of the events the dispatcher wrote for one command, in that order. */
  ghost function EventIdsOf(events: seq<DomainEvent>, tenant: Uuid, commandId: Uuid): seq<string> {
    Choose(events, e => ListedId(e, tenant, commandId))
  }

  ghost predicate ReceiptsDone(db: Db) {
    forall key :: key in db.receipts ==> ReceiptDone(key, db.receipts[key])
  }

  ghost predicate CommandIdsUnique(receipts: Receipts) {
    forall a, b | a in receipts && b in receipts ::
      a.tenant == b.tenant && receipts[a].commandId == receipts[b].commandId ==> a == b
  }

  ghost predicate EventsListed(db: Db) {
    forall key | key in db.receipts ::
      db.receipts[key].eventIds == EventIdsOf(db.events, key.tenant, db.receipts[key].commandId)
  }

  ghost predicate OwnedByReceipt(receipts: Receipts, e: DomainEvent) {
    e.writer == ByDispatcher ==> e.commandId.Some? && CommandIdUsed(receipts, e.tenant, e.commandId.value)
  }

  ghost predicate EventsOwned(db: Db) {
    forall i :: 0 <= i < |db.events| ==> OwnedByReceipt(db.receipts, db.events[i])
  }

  /** The message of an event of the dispatcher, as it writes it. */
  ghost predicate Carries(row: Row, e: DomainEvent) {
    && MessageOf(row, e) && row.payload == e.payload && row.payloadVersion == e.payloadVersion
    && row.dedupeKey == DedupeKey(row.topic, e.id)
  }

  ghost predicate HasMessage(outbox: Table, e: DomainEvent) {
    exists id | id in outbox :: Carries(outbox[id], e)
  }

  /** The event of a message; the dispatcher's events carry its payload, other code's need not. */
  ghost predicate Fits(row: Row, e: DomainEvent) {
    MessageOf(row, e) && (e.writer == ByDispatcher ==> Carries(row, e))
  }

  ghost predicate HasEvent(events: seq<DomainEvent>, row: Row) {
    exists i | 0 <= i < |events| :: Fits(row, events[i])
  }

  ghost predicate DispatchedEvent(events: seq<DomainEvent>, id: Uuid) {
    exists i | 0 <= i < |events| :: events[i].id == id && events[i].writer == ByDispatcher
  }

  /** Two messages that may not both exist. */
  ghost predicate Rivals(events: seq<DomainEvent>, a: Row, b: Row) {
    a.eventId == b.eventId && (a.topic == b.topic || DispatchedEvent(events, a.eventId))
  }

  /**
   * Every event of the dispatcher has exactly one message, which carries it; every message has
   * its event; no event has two messages on one topic.
   */
  ghost predicate Linked(events: seq<DomainEvent>, outbox: Table) {
    && (forall i, j :: 0 <= i < j < |events| ==> events[i].id != events[j].id)
    && (forall i :: 0 <= i < |events| && events[i].writer == ByDispatcher ==> HasMessage(outbox, events[i]))
    && (forall id :: id in outbox ==> HasEvent(events, outbox[id]))
    && (forall a, b :: a in outbox && b in outbox && Rivals(events, outbox[a], outbox[b]) ==> a == b)
  }

  /** Receipts, the dispatcher's events and its messages belong together, whoever else writes. */
  ghost predicate Consistent(db: Db) {
    && ReceiptsDone(db) && CommandIdsUnique(db.receipts)
    && EventsListed(db) && EventsOwned(db) && Linked(db.events, db.outbox)
  }

  // ---- New events and messages stay linked ----

  ghost predicate FreshRows(
    events: seq<DomainEvent>, outbox: Table, added: seq<DomainEvent>, ids: seq<MessageId>, rows: seq<Row>)
  {
    && |ids| == |rows| && NoDuplicates(ids)
    && (forall i :: 0 <= i < |ids| ==> ids[i] !in outbox)
    && (forall i, k :: 0 <= i < |added| && 0 <= k < |events| ==> events[k].id != added[i].id)
    && (forall i, j :: 0 <= i < j < |added| ==> added[i].id != added[j].id)
    && (forall k :: 0 <= k < |added| && added[k].writer == ByDispatcher ==> HasRow(rows, added[k]))
    && (forall j :: 0 <= j < |rows| ==> HasEvent(added, rows[j]))
    && (forall i, j :: 0 <= i < |rows| && 0 <= j < |rows| && Rivals(added, rows[i], rows[j]) ==> i == j)
  }

  ghost predicate HasRow(rows: seq<Row>, e: DomainEvent) {
    exists j | 0 <= j < |rows| :: Carries(rows[j], e)
  }

  lemma OldMessageKept(outbox: Table, ids: seq<MessageId>, rows: seq<Row>, e: DomainEvent)
    requires |ids| == |rows| && HasMessage(outbox, e) && forall i :: 0 <= i < |ids| ==> ids[i] !in outbox
    ensures HasMessage(AddAll(outbox, ids, rows), e)
  {
    AddAllKeys(outbox, ids, rows);
    var m :| m in outbox && Carries(outbox[m], e);
    assert m in AddAll(outbox, ids, rows) && Carries(AddAll(outbox, ids, rows)[m], e);
  }

  lemma NewMessageFound(outbox: Table, ids: seq<MessageId>, rows: seq<Row>, e: DomainEvent)
    requires |ids| == |rows| && NoDuplicates(ids) && HasRow(rows, e)
    ensures HasMessage(AddAll(outbox, ids, rows), e)
  {
    var j :| 0 <= j < |rows| && Carries(rows[j], e);
    AddAllAt(outbox, ids, rows, j);
    assert Carries(AddAll(outbox, ids, rows)[ids[j]], e);
  }

  /** A message of the new table is an old one or one of the new ones. */
  lemma MessageOrigin(outbox: Table, ids: seq<MessageId>, rows: seq<Row>, m: MessageId) returns (i: nat)
    requires |ids| == |rows| && NoDuplicates(ids) && m in AddAll(outbox, ids, rows)
    ensures i <= |ids|
    ensures i < |ids| ==> m == ids[i] && AddAll(outbox, ids, rows)[m] == rows[i]
    ensures i == |ids| ==> m in outbox && AddAll(outbox, ids, rows)[m] == outbox[m]
  {
    AddAllKeys(outbox, ids, rows);
    if m in ids {
      i :| 0 <= i < |ids| && ids[i] == m;
      AddAllAt(outbox, ids, rows, i);
    } else {
      i := |ids|;
    }
  }

  lemma EventAmong(events: seq<DomainEvent>, added: seq<DomainEvent>, row: Row)
    requires HasEvent(events, row) || HasEvent(added, row)
    ensures HasEvent(events + added, row)
  {
    var all := events + added;
    if HasEvent(events, row) {
      var i :| 0 <= i < |events| && Fits(row, events[i]);
      assert Fits(row, all[i]);
    } else {
      var i :| 0 <= i < |added| && Fits(row, added[i]);
      assert Fits(row, all[|events| + i]);
    }
  }

  /** The event of a message is its only event with that id. */
  lemma EventOfRow(events: seq<DomainEvent>, row: Row) returns (i: nat)
    requires HasEvent(events, row)
    ensures i < |events| && events[i].id == row.eventId && Fits(row, events[i])
  {
    i :| 0 <= i < |events| && Fits(row, events[i]);
  }

  /** Who wrote an event does not depend on events with other ids. */
  lemma DispatchedAmong(events: seq<DomainEvent>, added: seq<DomainEvent>, id: Uuid)
    requires DispatchedEvent(events + added, id)
    ensures (forall k :: 0 <= k < |added| ==> added[k].id != id) ==> DispatchedEvent(events, id)
    ensures (forall k :: 0 <= k < |events| ==> events[k].id != id) ==> DispatchedEvent(added, id)
  {
    var all := events + added;
    var i :| 0 <= i < |all| && all[i].id == id && all[i].writer == ByDispatcher;
    if i < |events| {
      assert events[i].id == id;
    } else {
      assert added[i - |events|].id == id;
    }
  }

  lemma OldRivals(events: seq<DomainEvent>, added: seq<DomainEvent>, a: Row, b: Row)
    requires HasEvent(events, a) && Rivals(events + added, a, b)
    requires forall i, k :: 0 <= i < |added| && 0 <= k < |events| ==> events[k].id != added[i].id
    ensures Rivals(events, a, b)
  {
    var i := EventOfRow(events, a);
    if a.topic != b.topic {
      DispatchedAmong(events, added, a.eventId);
    }
  }

  lemma NewRivals(events: seq<DomainEvent>, added: seq<DomainEvent>, a: Row, b: Row)
    requires HasEvent(added, a) && Rivals(events + added, a, b)
    requires forall i, k :: 0 <= i < |added| && 0 <= k < |events| ==> events[k].id != added[i].id
    ensures Rivals(added, a, b)
  {
    var i := EventOfRow(added, a);
    if a.topic != b.topic {
      DispatchedAmong(events, added, a.eventId);
    }
  }

  lemma OldAndNewDiffer(events: seq<DomainEvent>, added: seq<DomainEvent>, a: Row, b: Row)
    requires HasEvent(events, a) && HasEvent(added, b)
    requires forall i, k :: 0 <= i < |added| && 0 <= k < |events| ==> events[k].id != added[i].id
    ensures a.eventId != b.eventId
  {
    var i := EventOfRow(events, a);
    var j := EventOfRow(added, b);
  }

  lemma RivalsStayOne(
    events: seq<DomainEvent>, outbox: Table, added: seq<DomainEvent>, ids: seq<MessageId>, rows: seq<Row>,
    a: MessageId, b: MessageId)
    requires Linked(events, outbox) && FreshRows(events, outbox, added, ids, rows)
    requires a in AddAll(outbox, ids, rows) && b in AddAll(outbox, ids, rows)
    requires Rivals(events + added, AddAll(outbox, ids, rows)[a], AddAll(outbox, ids, rows)[b])
    ensures a == b
  {
    var i := MessageOrigin(outbox, ids, rows, a);
    var j := MessageOrigin(outbox, ids, rows, b);
    if i == |ids| && j == |ids| {
      OldRivals(events, added, outbox[a], outbox[b]);
    } else if i < |ids| && j < |ids| {
      NewRivals(events, added, rows[i], rows[j]);
    } else if i == |ids| {
      OldAndNewDiffer(events, added, outbox[a], rows[j]);
    } else {
      OldAndNewDiffer(events, added, outbox[b], rows[i]);
    }
  }

  lemma EventGetsMessage(
    events: seq<DomainEvent>, outbox: Table, added: seq<DomainEvent>, ids: seq<MessageId>, rows: seq<Row>, k: nat)
    requires Linked(events, outbox) && FreshRows(events, outbox, added, ids, rows)
    requires k < |events + added| && (events + added)[k].writer == ByDispatcher
    ensures HasMessage(AddAll(outbox, ids, rows), (events + added)[k])
  {
    if k < |events| {
      OldMessageKept(outbox, ids, rows, events[k]);
    } else {
      NewMessageFound(outbox, ids, rows, added[k - |events|]);
    }
  }

  lemma MessageGetsEvent(
    events: seq<DomainEvent>, outbox: Table, added: seq<DomainEvent>, ids: seq<MessageId>, rows: seq<Row>, m: MessageId)
    requires Linked(events, outbox) && FreshRows(events, outbox, added, ids, rows) && m in AddAll(outbox, ids, rows)
    ensures HasEvent(events + added, AddAll(outbox, ids, rows)[m])
  {
    var i := MessageOrigin(outbox, ids, rows, m);
    if i < |ids| {
      assert HasEvent(added, rows[i]);
    }
    EventAmong(events, added, AddAll(outbox, ids, rows)[m]);
  }

  lemma {:induction false} LinkAll(
    events: seq<DomainEvent>, outbox: Table, added: seq<DomainEvent>, ids: seq<MessageId>, rows: seq<Row>)
    requires Linked(events, outbox) && FreshRows(events, outbox, added, ids, rows)
    ensures Linked(events + added, AddAll(outbox, ids, rows))
  {
    var outbox', all := AddAll(outbox, ids, rows), events + added;
    forall k | 0 <= k < |all| && all[k].writer == ByDispatcher ensures HasMessage(outbox', all[k]) {
      EventGetsMessage(events, outbox, added, ids, rows, k);
    }
    forall m | m in outbox' ensures HasEvent(all, outbox'[m]) {
      MessageGetsEvent(events, outbox, added, ids, rows, m);
    }
    forall a, b | a in outbox' && b in outbox' && Rivals(all, outbox'[a], outbox'[b]) ensures a == b {
      RivalsStayOne(events, outbox, added, ids, rows, a, b);
    }
  }

  lemma {:induction false} WrittenAt(req: Request, events: seq<PendingEvent>, choice: Choice, n: nat, i: nat)
    requires i < n <= |events|
    ensures EventRows(req, events, choice, n)[i] == EventRow(req, events[i], choice.eventId(i))
    ensures MessageRows(req, events, choice, n)[i] == MessageRow(req, events[i], choice.eventId(i), choice.createdAt)
    ensures MessageIds(choice, n)[i] == choice.messageId(i)
    ensures EventIdTexts(choice, n)[i] == Format(choice.eventId(i))
  {
    if i < n - 1 {
      WrittenAt(req, events, choice, n - 1, i);
    }
  }

  lemma WrittenEvent(req: Request, events: seq<PendingEvent>, choice: Choice, i: nat)
    requires i < |events|
    ensures var n := |events|;
      var e := EventRows(req, events, choice, n)[i];
      && e.id == choice.eventId(i) && e.tenant == req.context.tenant && e.commandId == Some(req.command.commandId)
      && e.writer == ByDispatcher
      && EventIdTexts(choice, n)[i] == Format(e.id)
      && Carries(MessageRows(req, events, choice, n)[i], e)
      && MessageIds(choice, n)[i] == choice.messageId(i)
  {
    WrittenAt(req, events, choice, |events|, i);
  }

  lemma PairFits(added: seq<DomainEvent>, rows: seq<Row>, k: nat)
    requires k < |rows| == |added| && Carries(rows[k], added[k])
    ensures HasRow(rows, added[k]) && HasEvent(added, rows[k])
  {
    assert Fits(rows[k], added[k]);
  }

  lemma PairApart(added: seq<DomainEvent>, rows: seq<Row>, i: nat, j: nat)
    requires i < |rows| && j < |rows| == |added| && rows[i].eventId == rows[j].eventId
    requires Carries(rows[i], added[i]) && Carries(rows[j], added[j])
    requires forall x, y :: 0 <= x < y < |added| ==> added[x].id != added[y].id
    ensures i == j
  {
    assert added[i].id == added[j].id;
  }

  /** One carrying message per event, in the same order, makes fresh rows. */
  lemma PairsAreFresh(
    events: seq<DomainEvent>, outbox: Table, added: seq<DomainEvent>, ids: seq<MessageId>, rows: seq<Row>)
    requires |ids| == |rows| == |added| && NoDuplicates(ids) && forall i :: 0 <= i < |ids| ==> ids[i] !in outbox
    requires forall i, k :: 0 <= i < |added| && 0 <= k < |events| ==> events[k].id != added[i].id
    requires forall i, j :: 0 <= i < j < |added| ==> added[i].id != added[j].id
    requires forall i :: 0 <= i < |added| ==> Carries(rows[i], added[i])
    ensures FreshRows(events, outbox, added, ids, rows)
  {
    forall k | 0 <= k < |added| ensures HasRow(rows, added[k]) && HasEvent(added, rows[k]) {
      PairFits(added, rows, k);
    }
    forall i, j | 0 <= i < |rows| && 0 <= j < |rows| && Rivals(added, rows[i], rows[j]) ensures i == j {
      PairApart(added, rows, i, j);
    }
  }

  lemma CommitRowsFresh(db: Db, req: Request, events: seq<PendingEvent>, choice: Choice)
    requires FreshIds(db, choice, |events|)
    ensures var n := |events|;
      FreshRows(db.events, db.outbox, EventRows(req, events, choice, n), MessageIds(choice, n),
                MessageRows(req, events, choice, n))
  {
    var n := |events|;
    forall i | 0 <= i < n
      ensures EventRows(req, events, choice, n)[i].id == choice.eventId(i)
      ensures MessageIds(choice, n)[i] == choice.messageId(i)
      ensures Carries(MessageRows(req, events, choice, n)[i], EventRows(req, events, choice, n)[i])
    {
      WrittenEvent(req, events, choice, i);
    }
    PairsAreFresh(db.events, db.outbox, EventRows(req, events, choice, n), MessageIds(choice, n),
                  MessageRows(req, events, choice, n));
  }

  lemma CommitLinked(db: Db, req: Request, events: seq<PendingEvent>, choice: Choice)
    requires Linked(db.events, db.outbox) && FreshIds(db, choice, |events|)
    ensures Linked(db.events + EventRows(req, events, choice, |events|),
                   WithMessages(db.outbox, req, events, choice, |events|))
  {
    CommitRowsFresh(db, req, events, choice);
    LinkAll(db.events, db.outbox, EventRows(req, events, choice, |events|), MessageIds(choice, |events|),
            MessageRows(req, events, choice, |events|));
  }

  // ---- New events are listed by their own receipt ----

  lemma {:induction false} CommitLists(
    db: Db, req: Request, events: seq<PendingEvent>, choice: Choice, tenant: Uuid, commandId: Uuid)
    ensures EventIdsOf(db.events + EventRows(req, events, choice, |events|), tenant, commandId) ==
      EventIdsOf(db.events, tenant, commandId) +
      if tenant == req.context.tenant && commandId == req.command.commandId then EventIdTexts(choice, |events|) else []
  {
    var added, texts := EventRows(req, events, choice, |events|), EventIdTexts(choice, |events|);
    var f := e => ListedId(e, tenant, commandId);
    ChooseAppend(db.events, added, f);
    forall i | 0 <= i < |events|
      ensures added[i].writer == ByDispatcher
      ensures added[i].tenant == req.context.tenant && added[i].commandId == Some(req.command.commandId)
      ensures texts[i] == Format(added[i].id)
    {
      WrittenEvent(req, events, choice, i);
    }
    if tenant == req.context.tenant && commandId == req.command.commandId {
      ChooseAll(added, f, texts);
    } else {
      ChooseNone(added, f);
    }
  }

  lemma NoEventsYet(db: Db, tenant: Uuid, commandId: Uuid)
    requires EventsOwned(db) && !CommandIdUsed(db.receipts, tenant, commandId)
    ensures EventIdsOf(db.events, tenant, commandId) == []
  {
    ChooseNone(db.events, e => ListedId(e, tenant, commandId));
  }

  // ---- A commit keeps the tables consistent ----

  lemma UsedStaysUsed(receipts: Receipts, key: ReceiptKey, r: Receipt, tenant: Uuid, commandId: Uuid)
    requires key !in receipts
    ensures CommandIdUsed(receipts[key := r], tenant, commandId) <==>
      CommandIdUsed(receipts, tenant, commandId) || (key.tenant == tenant && r.commandId == commandId)
  {
    var receipts' := receipts[key := r];
    if CommandIdUsed(receipts, tenant, commandId) {
      var k :| k in receipts && k.tenant == tenant && receipts[k].commandId == commandId;
      assert k in receipts' && receipts'[k].commandId == commandId;
    }
    if key.tenant == tenant && r.commandId == commandId {
      assert key in receipts' && receipts'[key].commandId == commandId;
    }
  }

  lemma IdsStayUnique(receipts: Receipts, key: ReceiptKey, r: Receipt)
    requires CommandIdsUnique(receipts) && key !in receipts && !CommandIdUsed(receipts, key.tenant, r.commandId)
    ensures CommandIdsUnique(receipts[key := r])
  {
  }

  lemma NewReceiptDone(req: Request, outcome: Outcome, choice: Choice)
    ensures ReceiptDone(KeyOf(req), SucceededReceipt(req, outcome, choice))
    ensures StoredResult(KeyOf(req), SucceededReceipt(req, outcome, choice)) == ResultOf(req, outcome, choice)
  {
  }

  lemma ReceiptsStayDone(db: Db, db': Db, key: ReceiptKey, r: Receipt)
    requires ReceiptsDone(db) && ReceiptDone(key, r) && db'.receipts == db.receipts[key := r]
    ensures ReceiptsDone(db')
  {
  }

  lemma ListsStayRight(db: Db, req: Request, outcome: Outcome, choice: Choice)
    requires EventsListed(db) && EventsOwned(db)
    requires !CommandIdUsed(db.receipts, req.context.tenant, req.command.commandId)
    ensures EventsListed(Committed(db, req, outcome, choice))
  {
    var db', own := Committed(db, req, outcome, choice), KeyOf(req);
    forall key | key in db'.receipts
      ensures db'.receipts[key].eventIds == EventIdsOf(db'.events, key.tenant, db'.receipts[key].commandId)
    {
      CommitLists(db, req, outcome.events, choice, key.tenant, db'.receipts[key].commandId);
      if key == own {
        NoEventsYet(db, key.tenant, req.command.commandId);
      }
    }
  }

  lemma OwnerStays(db: Db, req: Request, outcome: Outcome, choice: Choice, e: DomainEvent)
    requires KeyOf(req) !in db.receipts
    requires OwnedByReceipt(db.receipts, e)
             || (e.tenant == req.context.tenant && e.commandId == Some(req.command.commandId))
    ensures OwnedByReceipt(Committed(db, req, outcome, choice).receipts, e)
  {
    if e.commandId.Some? {
      UsedStaysUsed(db.receipts, KeyOf(req), SucceededReceipt(req, outcome, choice), e.tenant, e.commandId.value);
    }
  }

  lemma OwnersStay(db: Db, req: Request, outcome: Outcome, choice: Choice)
    requires EventsOwned(db) && KeyOf(req) !in db.receipts
    ensures EventsOwned(Committed(db, req, outcome, choice))
  {
    var db' := Committed(db, req, outcome, choice);
    forall i | 0 <= i < |db'.events| ensures OwnedByReceipt(db'.receipts, db'.events[i]) {
      if i >= |db.events| {
        WrittenEvent(req, outcome.events, choice, i - |db.events|);
      }
      OwnerStays(db, req, outcome, choice, db'.events[i]);
    }
  }

  lemma {:induction false} CommitConsistent(db: Db, req: Request, outcome: Outcome, choice: Choice)
    requires Consistent(db) && KeyOf(req) !in db.receipts && FreshIds(db, choice, |outcome.events|)
    requires !CommandIdUsed(db.receipts, req.context.tenant, req.command.commandId)
    ensures Consistent(Committed(db, req, outcome, choice))
  {
    NewReceiptDone(req, outcome, choice);
    ReceiptsStayDone(db, Committed(db, req, outcome, choice), KeyOf(req), SucceededReceipt(req, outcome, choice));
    IdsStayUnique(db.receipts, KeyOf(req), SucceededReceipt(req, outcome, choice));
    ListsStayRight(db, req, outcome, choice);
    OwnersStay(db, req, outcome, choice);
    CommitLinked(db, req, outcome.events, choice);
  }

  lemma CommitStepConsistent(p: Platform, db: Db, req: Request, outcome: Outcome, choice: Choice)
    requires Consistent(db) && KeyOf(req) !in db.receipts
    requires !CommandIdUsed(db.receipts, req.context.tenant, req.command.commandId)
    ensures Consistent(Commit(p, db, req, outcome, choice).0)
  {
    if Admissible(p, db, outcome, choice) {
      CommitConsistent(db, req, outcome, choice);
    }
  }

  lemma ExecuteStepConsistent(p: Platform, db: Db, req: Request, choice: Choice)
    requires Consistent(db) && KeyOf(req) !in db.receipts && req.command.commandType in p.handlers
    requires !CommandIdUsed(db.receipts, req.context.tenant, req.command.commandId)
    ensures Consistent(ExecuteAndCommit(p, db, req, choice).0)
  {
    match Execute(p, req, db.roots, choice)
    case Ok(outcome) => CommitStepConsistent(p, db, req, outcome, choice);
    case Err(_) =>
  }

  lemma DispatchConsistent(p: Platform, db: Db, req: Request, choice: Choice)
    requires Consistent(db)
    ensures Consistent(Dispatched(p, db, req, choice).0)
  {
    if req.command.commandType in p.handlers && KeyOf(req) !in db.receipts
       && !CommandIdUsed(db.receipts, req.context.tenant, req.command.commandId) {
      ExecuteStepConsistent(p, db, req, choice);
    }
  }

  // ---- Writes of other code keep them consistent too ----

  lemma OtherRowsAreFresh(db: Db, w: OtherWrite)
    requires OtherEventsAllowed(db, w.events) && OtherMessagesAllowed(db, w)
    ensures FreshRows(db.events, db.outbox, w.events, w.ids, w.rows)
  {
    forall j | 0 <= j < |w.rows| ensures HasEvent(w.events, w.rows[j]) {
      var k :| 0 <= k < |w.events| && MessageOf(w.rows[j], w.events[k]);
      assert Fits(w.rows[j], w.events[k]);
    }
  }

  lemma OtherEventsUnlisted(db: Db, events: seq<DomainEvent>, tenant: Uuid, commandId: Uuid)
    requires OtherEventsAllowed(db, events)
    ensures EventIdsOf(db.events + events, tenant, commandId) == EventIdsOf(db.events, tenant, commandId)
  {
    var f := e => ListedId(e, tenant, commandId);
    ChooseAppend(db.events, events, f);
    ChooseNone(events, f);
  }

  lemma {:induction false} WriteConsistent(p: Platform, db: Db, w: OtherWrite)
    requires Consistent(db)
    ensures Consistent(Written(p, db, w))
  {
    if OtherWriteAllowed(p, db, w) {
      OtherRowsAreFresh(db, w);
      LinkAll(db.events, db.outbox, w.events, w.ids, w.rows);
      forall key | key in db.receipts
        ensures EventIdsOf(db.events + w.events, key.tenant, db.receipts[key].commandId)
             == EventIdsOf(db.events, key.tenant, db.receipts[key].commandId)
      {
        OtherEventsUnlisted(db, w.events, key.tenant, db.receipts[key].commandId);
      }
    }
  }

  // ---- After any sequence ----

  /** The tables before the first entry; the roots may hold anything. */
  ghost predicate Empty(db: Db) {
    db.receipts == map[] && db.events == [] && db.outbox == map[]
  }

  lemma EntryConsistent(p: Platform, db: Db, e: Entry)
    requires Consistent(db)
    ensures Consistent(Apply(p, db, e))
  {
    match e
    case Decided(req, choice, _) => DispatchConsistent(p, db, req, choice);
    case Elsewhere(write) => WriteConsistent(p, db, write);
  }

  /**
   * After any sequence of commands and writes of other code: every receipt is SUCCEEDED and holds
   * the reply it stands for, its event ids list exactly the events the dispatcher wrote for its
   * command, in order, no tenant uses a command id twice, and every event of the dispatcher has
   * exactly one message, with its payload and dedupe key.
   */
  lemma {:induction false} AlwaysConsistent(p: Platform, start: Db, log: seq<Entry>)
    requires Empty(start)
    ensures Consistent(After(p, start, log))
  {
    if log != [] {
      AlwaysConsistent(p, start, log[..|log| - 1]);
      EntryConsistent(p, After(p, start, log[..|log| - 1]), log[|log| - 1]);
    }
  }
}
