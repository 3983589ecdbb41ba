/** The topics of the outbox tell the dispatcher's messages from those of other code. */
module DispatchTopics {
  import opened Common
  import opened Uuids
  import opened EventContracts
  import opened Outbox
  import opened Dispatcher
  import opened DispatchLog

  ghost predicate ProgressKeepsTopics(progress: Progress) {
    progress.Done? && progress.result.Ok? ==> EventsKeepTopics(progress.result.value.events)
  }

  ghost predicate EventsKeepTopics(events: seq<PendingEvent>) {
    forall i :: 0 <= i < |events| ==> events[i].topic in DISPATCH_TOPICS
  }

  /** The handlers announce their events on the dispatcher's two topics. */
  ghost predicate HandlersKeepTopics(p: Platform) {
    forall req: Request, seen: seq<Seen> | req.command.commandType in p.handlers ::
      ProgressKeepsTopics(NextOf(p, req, seen))
  }

  /** A message on one of the dispatcher's topics belongs to an event of the dispatcher. */
  ghost predicate OthersStayOff(events: seq<DomainEvent>, outbox: Table) {
    forall id :: id in outbox && outbox[id].topic in DISPATCH_TOPICS ==> DispatchedEvent(events, outbox[id].eventId)
  }

  /** A message of an event of the dispatcher is on one of its topics. */
  ghost predicate OwnStayOn(events: seq<DomainEvent>, outbox: Table) {
    forall id :: id in outbox && DispatchedEvent(events, outbox[id].eventId) ==> outbox[id].topic in DISPATCH_TOPICS
  }

  lemma StillDispatched(events: seq<DomainEvent>, added: seq<DomainEvent>, id: Uuid)
    requires DispatchedEvent(events, id) || DispatchedEvent(added, id)
    ensures DispatchedEvent(events + added, id)
  {
    var all := events + added;
    if DispatchedEvent(events, id) {
      var i :| 0 <= i < |events| && events[i].id == id && events[i].writer == ByDispatcher;
      assert all[i].id == id;
    } else {
      var i :| 0 <= i < |added| && added[i].id == id && added[i].writer == ByDispatcher;
      assert all[|events| + i].id == id;
    }
  }

  lemma OthersStillOff(
    events: seq<DomainEvent>, outbox: Table, added: seq<DomainEvent>, ids: seq<MessageId>, rows: seq<Row>)
    requires OthersStayOff(events, outbox) && |ids| == |rows| && NoDuplicates(ids)
    requires forall j :: 0 <= j < |rows| && rows[j].topic in DISPATCH_TOPICS ==> DispatchedEvent(added, rows[j].eventId)
    ensures OthersStayOff(events + added, AddAll(outbox, ids, rows))
  {
    var outbox' := AddAll(outbox, ids, rows);
    forall m | m in outbox' && outbox'[m].topic in DISPATCH_TOPICS
      ensures DispatchedEvent(events + added, outbox'[m].eventId)
    {
      var i := MessageOrigin(outbox, ids, rows, m);
      StillDispatched(events, added, outbox'[m].eventId);
    }
  }

  lemma OwnStillOn(
    events: seq<DomainEvent>, outbox: Table, added: seq<DomainEvent>, ids: seq<MessageId>, rows: seq<Row>)
    requires OwnStayOn(events, outbox) && Linked(events, outbox) && FreshRows(events, outbox, added, ids, rows)
    requires forall j :: 0 <= j < |rows| && DispatchedEvent(added, rows[j].eventId) ==> rows[j].topic in DISPATCH_TOPICS
    ensures OwnStayOn(events + added, AddAll(outbox, ids, rows))
  {
    var outbox' := AddAll(outbox, ids, rows);
    forall m | m in outbox' && DispatchedEvent(events + added, outbox'[m].eventId)
      ensures outbox'[m].topic in DISPATCH_TOPICS
    {
      var i := MessageOrigin(outbox, ids, rows, m);
      DispatchedAmong(events, added, outbox'[m].eventId);
      if i < |ids| {
        var k := EventOfRow(added, rows[i]);
      } else {
        var k := EventOfRow(events, outbox[m]);
      }
    }
  }

  // ---- Commits ----

  lemma NewEventsDispatched(req: Request, events: seq<PendingEvent>, choice: Choice, j: nat)
    requires j < |events|
    ensures var n := |events|;
      && MessageRows(req, events, choice, n)[j].topic == events[j].topic
      && DispatchedEvent(EventRows(req, events, choice, n), MessageRows(req, events, choice, n)[j].eventId)
  {
    var n := |events|;
    WrittenAt(req, events, choice, n, j);
    WrittenEvent(req, events, choice, j);
    assert EventRows(req, events, choice, n)[j].id == MessageRows(req, events, choice, n)[j].eventId;
  }

  lemma CommitTopics(db: Db, req: Request, events: seq<PendingEvent>, choice: Choice)
    requires FreshIds(db, choice, |events|) && OthersStayOff(db.events, db.outbox)
    ensures var events', outbox' := db.events + EventRows(req, events, choice, |events|),
                                    WithMessages(db.outbox, req, events, choice, |events|);
      && OthersStayOff(events', outbox')
      && (Linked(db.events, db.outbox) && OwnStayOn(db.events, db.outbox) && EventsKeepTopics(events) ==>
            OwnStayOn(events', outbox'))
  {
    var n := |events|;
    CommitRowsFresh(db, req, events, choice);
    forall j | 0 <= j < n
      ensures MessageRows(req, events, choice, n)[j].topic == events[j].topic
      ensures DispatchedEvent(EventRows(req, events, choice, n), MessageRows(req, events, choice, n)[j].eventId)
    {
      NewEventsDispatched(req, events, choice, j);
    }
    OthersStillOff(db.events, db.outbox, EventRows(req, events, choice, n), MessageIds(choice, n),
                   MessageRows(req, events, choice, n));
    if Linked(db.events, db.outbox) && OwnStayOn(db.events, db.outbox) && EventsKeepTopics(events) {
      OwnStillOn(db.events, db.outbox, EventRows(req, events, choice, n), MessageIds(choice, n),
                 MessageRows(req, events, choice, n));
    }
  }

  lemma OutcomeKeepsTopics(p: Platform, req: Request, db: Db, choice: Choice)
    requires req.command.commandType in p.handlers && HandlersKeepTopics(p) && Execute(p, req, db.roots, choice).Ok?
    ensures EventsKeepTopics(Execute(p, req, db.roots, choice).value.events)
  {
    var seen := Observed(p, req, db.roots, choice.told, choice.looks);
    assert ProgressKeepsTopics(NextOf(p, req, seen));
  }

  /** What the topics of a database become: nothing strays, given handlers that keep to theirs. */
  ghost predicate TopicsKept(p: Platform, db: Db, db': Db) {
    && OthersStayOff(db'.events, db'.outbox)
    && (Linked(db.events, db.outbox) && OwnStayOn(db.events, db.outbox) && HandlersKeepTopics(p) ==>
          OwnStayOn(db'.events, db'.outbox))
  }

  lemma CommitStepTopics(p: Platform, db: Db, req: Request, outcome: Outcome, choice: Choice)
    requires OthersStayOff(db.events, db.outbox) && (HandlersKeepTopics(p) ==> EventsKeepTopics(outcome.events))
    ensures TopicsKept(p, db, Commit(p, db, req, outcome, choice).0)
  {
    if Admissible(p, db, outcome, choice) {
      CommitTopics(db, req, outcome.events, choice);
    }
  }

  lemma ExecuteTopics(p: Platform, db: Db, req: Request, choice: Choice)
    requires OthersStayOff(db.events, db.outbox) && req.command.commandType in p.handlers
    ensures TopicsKept(p, db, ExecuteAndCommit(p, db, req, choice).0)
  {
    match Execute(p, req, db.roots, choice)
    case Ok(outcome) =>
      if HandlersKeepTopics(p) {
        OutcomeKeepsTopics(p, req, db, choice);
      }
      CommitStepTopics(p, db, req, outcome, choice);
    case Err(_) =>
  }

  lemma DispatchTopicsKept(p: Platform, db: Db, req: Request, choice: Choice)
    requires OthersStayOff(db.events, db.outbox)
    ensures TopicsKept(p, db, Dispatched(p, db, req, choice).0)
  {
    if req.command.commandType in p.handlers {
      ExecuteTopics(p, db, req, choice);
    }
  }

  // ---- Writes of other code ----

  lemma OtherEventsNotDispatched(events: seq<DomainEvent>, id: Uuid)
    requires forall i :: 0 <= i < |events| ==> events[i].writer == ByOtherCode
    ensures !DispatchedEvent(events, id)
  {
  }

  lemma WriteTopicsKept(p: Platform, db: Db, w: OtherWrite)
    requires OthersStayOff(db.events, db.outbox)
    ensures var db' := Written(p, db, w);
      && OthersStayOff(db'.events, db'.outbox)
      && (Linked(db.events, db.outbox) && OwnStayOn(db.events, db.outbox) ==> OwnStayOn(db'.events, db'.outbox))
  {
    if OtherWriteAllowed(p, db, w) {
      OthersStillOff(db.events, db.outbox, w.events, w.ids, w.rows);
      if Linked(db.events, db.outbox) && OwnStayOn(db.events, db.outbox) {
        OtherRowsAreFresh(db, w);
        forall j | 0 <= j < |w.rows| ensures !DispatchedEvent(w.events, w.rows[j].eventId) {
          OtherEventsNotDispatched(w.events, w.rows[j].eventId);
        }
        OwnStillOn(db.events, db.outbox, w.events, w.ids, w.rows);
      }
    }
  }

  /** After any sequence, a message on a dispatcher topic belongs to an event of the dispatcher. */
  lemma {:induction false} OthersAlwaysOff(p: Platform, start: Db, log: seq<Entry>)
    requires Empty(start)
    ensures OthersStayOff(After(p, start, log).events, After(p, start, log).outbox)
  {
    if log != [] {
      var db := After(p, start, log[..|log| - 1]);
      OthersAlwaysOff(p, start, log[..|log| - 1]);
      match log[|log| - 1]
      case Decided(req, choice, _) => DispatchTopicsKept(p, db, req, choice);
      case Elsewhere(write) => WriteTopicsKept(p, db, write);
    }
  }

  /** With handlers that keep to the two topics, the topic tells who wrote the event. */
  lemma {:induction false} OwnAlwaysOn(p: Platform, start: Db, log: seq<Entry>)
    requires Empty(start) && HandlersKeepTopics(p)
    ensures OwnStayOn(After(p, start, log).events, After(p, start, log).outbox)
  {
    if log != [] {
      var before := log[..|log| - 1];
      var db := After(p, start, before);
      OwnAlwaysOn(p, start, before);
      OthersAlwaysOff(p, start, before);
      AlwaysConsistent(p, start, before);
      match log[|log| - 1]
      case Decided(req, choice, _) => DispatchTopicsKept(p, db, req, choice);
      case Elsewhere(write) => WriteTopicsKept(p, db, write);
    }
  }
}
