/** The outbox table as one worker process drives it, `run_once` and the methods it calls. */
module OutboxStore {
  import opened Common
  import opened RetryPolicy
  import opened Outbox
  import opened ClaimRounds

  class Store {
    var rows: Table

    constructor (rows: Table)
      ensures this.rows == rows
    {
      this.rows := rows;
    }

    method ClaimDueMessages(w: Worker, now: int, locked: set<MessageId>) returns (ids: seq<MessageId>)
      modifies this
      ensures ids == ClaimIds(old(rows), w, now, locked)
      ensures rows == ClaimRows(old(rows), ids, LeaseEnd(w, now))
    {
      var until := LeaseEnd(w, now);
      ids := ClaimIds(rows, w, now, locked);
      ClaimIdsSound(rows, w, now, locked);
      LeaseNone(rows, until);
      for i := 0 to |ids|
        invariant rows == ClaimRows(old(rows), ids[..i], until)
      {
        LeaseStep(old(rows), ids, i, until);
        var message := rows[ids[i]];
        rows := rows[ids[i] := message.(status := RetryPolicy.Retry, nextAttemptAt := Some(until))];
      }
      assert ids[..|ids|] == ids;
    }

    method Publish(w: Worker, id: MessageId, now: int, skipped: bool) returns (report: Report)
      requires ValidLimit(w.maxAttempts)
      modifies this
      ensures SettledInto(old(rows), rows, w, id, now,
                          if skipped then Verdict.PublishSkipped else Verdict.Publish, report)
    {
      if id !in rows || rows[id].status == Published {
        return DidSkip;
      }
      var message := rows[id];
      message := message.(status := Published, publishedAt := Some(now));
      message := message.(nextAttemptAt := None, lastError := None);
      rows := rows[id := message];
      report := if skipped then DidSkip else DidDeliver;
    }

    method NotConfigured(w: Worker, id: MessageId, now: int, code: string) returns (report: Report)
      requires ValidLimit(w.maxAttempts)
      modifies this
      ensures SettledInto(old(rows), rows, w, id, now, NotConfiguredWith(code), report)
    {
      if id !in rows {
        return DidSkip;
      }
      var message := rows[id];
      if w.kind == Cockpit {
        if message.status == Published {
          return DidSkip;
        }
      } else if message.status != Pending && message.status != RetryPolicy.Retry {
        return DidSkip;
      }
      message := message.(status := RetryPolicy.NotConfigured, nextAttemptAt := None, lastError := Some(code));
      if w.kind != Cockpit {
        message := message.(publishedAt := None);
      }
      rows := rows[id := message];
      report := DidNotConfigure;
    }

    method Fail(w: Worker, id: MessageId, now: int, code: string) returns (report: Report)
      requires ValidLimit(w.maxAttempts)
      modifies this
      ensures SettledInto(old(rows), rows, w, id, now, FailWith(code), report)
    {
      if id !in rows || rows[id].status == Published {
        return DidSkip;
      }
      var message := rows[id];
      message := message.(status := Failed, attemptCount := message.attemptCount + 1);
      message := message.(nextAttemptAt := None, lastError := Some(code));
      rows := rows[id := message];
      report := DidFail;
    }

    method Retry(w: Worker, id: MessageId, now: int, code: string) returns (report: Report)
      requires ValidLimit(w.maxAttempts)
      modifies this
      ensures SettledInto(old(rows), rows, w, id, now, RetryWith(code), report)
    {
      if id !in rows || rows[id].status == Published {
        return DidSkip;
      }
      var message := rows[id];
      var decision := DecideRetry(message.attemptCount, now, w.maxAttempts).value;
      message := message.(status := decision.status, attemptCount := decision.attemptCount);
      message := message.(nextAttemptAt := decision.nextAttemptAt, lastError := Some(code));
      rows := rows[id := message];
      report := if decision.status == RetryPolicy.Retry then DidRetry else DidFail;
    }

    method ProcessMessage(w: Worker, id: MessageId, now: int, answer: Answer) returns (report: Report)
      requires ValidLimit(w.maxAttempts)
      modifies this
      ensures id !in old(rows) ==> rows == old(rows) && report == DidSkip
      ensures id in old(rows) ==> (rows, report) == ProcessIn(old(rows), w, id, now, answer)
    {
      if id !in rows {
        return DidSkip;
      }
      var plan := PlanFor(w, rows[id]);
      var verdict := if plan.Settled? then plan.verdict else VerdictOf(w, answer);
      match verdict {
        case Leave =>
          report := DidSkip;
          assert rows == rows[id := rows[id]];
        case Publish => report := Publish(w, id, now, false);
        case PublishSkipped => report := Publish(w, id, now, true);
        case RetryWith(code) => report := Retry(w, id, now, code);
        case FailWith(code) => report := Fail(w, id, now, code);
        case NotConfiguredWith(code) => report := NotConfigured(w, id, now, code);
      }
    }

    /** A run on its own: every claimed row is processed once, every report counted once. */
    method RunOnce(w: Worker, now: int, locked: set<MessageId>, answers: MessageId -> Answer)
      returns (result: RunResult)
      requires ValidLimit(w.maxAttempts)
      modifies this
      ensures var ids := ClaimIds(old(rows), w, now, locked);
        && Processed(old(rows), rows, w, now, ids, |ids|, answers)
        && result == Tally(Reports(old(rows), w, now, ids, answers))
        && Total(result) == |ids|
    {
      ClaimIdsSound(rows, w, now, locked);
      var ids := ClaimDueMessages(w, now, locked);
      ghost var all := Reports(old(rows), w, now, ids, answers);
      result := NOTHING;
      for i := 0 to |ids|
        invariant Processed(old(rows), rows, w, now, ids, i, answers)
        invariant result == Tally(all[..i])
      {
        ProcessedStep(old(rows), rows, w, now, ids, i, answers);
        var report := ProcessMessage(w, ids[i], now, answers(ids[i]));
        TallyStep(all, i);
        result := Merge(result, One(report));
      }
      assert all[..|ids|] == all;
      TallyTotal(all);
    }
  }

  lemma LeaseNone(rows: Table, until: int)
    ensures ClaimRows(rows, [], until) == rows
  {
  }

  lemma LeaseStep(rows: Table, ids: seq<MessageId>, i: nat, until: int)
    requires i < |ids| && ids[i] in rows
    ensures var leased := ClaimRows(rows, ids[..i], until);
      ids[i] in leased && leased[ids[i] := LeaseRow(leased[ids[i]], until)] == ClaimRows(rows, ids[..i + 1], until)
  {
    assert ids[..i + 1] == ids[..i] + [ids[i]];
  }

  /** After `done` of the claimed ids, those rows are settled, the others only leased. */
  ghost predicate Processed(
    before: Table, after: Table, w: Worker, now: int, ids: seq<MessageId>, done: nat, answers: MessageId -> Answer)
    requires ValidLimit(w.maxAttempts)
  {
    && after.Keys == before.Keys
    && (forall i | 0 <= i < |ids| ::
          ids[i] in before && after[ids[i]] == ClaimedRow(before[ids[i]], w, now, i < done, answers(ids[i])))
    && (forall id | id in before && id !in ids :: after[id] == before[id])
  }

  lemma ProcessedStep(
    before: Table, mid: Table, w: Worker, now: int, ids: seq<MessageId>, i: nat, answers: MessageId -> Answer)
    requires ValidLimit(w.maxAttempts) && NoDuplicates(ids) && i < |ids|
    requires Processed(before, mid, w, now, ids, i, answers)
    ensures ids[i] in mid
    ensures Processed(before, mid[ids[i] := Process(w, mid[ids[i]], now, answers(ids[i])).0], w, now, ids, i + 1,
                      answers)
  {
  }

  ghost function ClaimedRow(row: Row, w: Worker, now: int, done: bool, answer: Answer): Row
    requires ValidLimit(w.maxAttempts)
  {
    var leased := LeaseRow(row, LeaseEnd(w, now));
    if done then Process(w, leased, now, answer).0 else leased
  }

  /** A missing row is skipped; otherwise the row is settled in place and the rest is untouched. */
  ghost predicate SettledInto(
    before: Table, after: Table, w: Worker, id: MessageId, now: int, verdict: Verdict, report: Report)
    requires ValidLimit(w.maxAttempts)
  {
    if id !in before then after == before && report == DidSkip
    else var (row, r) := Settle(w, before[id], now, verdict); after == before[id := row] && report == r
  }

  ghost function ProcessIn(rows: Table, w: Worker, id: MessageId, now: int, answer: Answer): (Table, Report)
    requires ValidLimit(w.maxAttempts) && id in rows
  {
    var (row, report) := Process(w, rows[id], now, answer);
    (rows[id := row], report)
  }

  ghost function Reports(
    rows: Table, w: Worker, now: int, ids: seq<MessageId>, answers: MessageId -> Answer): seq<Report>
    requires ValidLimit(w.maxAttempts)
  {
    seq(|ids|, i requires 0 <= i < |ids| =>
      if ids[i] in rows then Process(w, LeaseRow(rows[ids[i]], LeaseEnd(w, now)), now, answers(ids[i])).1 else DidSkip)
  }

  ghost function Tally(reports: seq<Report>): RunResult {
    if reports == [] then NOTHING
    else Merge(Tally(reports[..|reports| - 1]), One(reports[|reports| - 1]))
  }

  lemma TallyStep(reports: seq<Report>, i: nat)
    requires i < |reports|
    ensures Tally(reports[..i + 1]) == Merge(Tally(reports[..i]), One(reports[i]))
  {
    assert reports[..i + 1][..i] == reports[..i];
  }

  /** No report is lost: the counters of a run add up to the rows it claimed. */
  lemma {:induction false} TallyTotal(reports: seq<Report>)
    ensures Total(Tally(reports)) == |reports|
  {
    if reports != [] {
      TallyTotal(reports[..|reports| - 1]);
    }
  }

  ghost function Count(reports: seq<Report>, report: Report): nat {
    if reports == [] then 0
    else Count(reports[..|reports| - 1], report) + if reports[|reports| - 1] == report then 1 else 0
  }

  /** Each counter of a run is the number of messages that ended that way. */
  lemma {:induction false} TallyExactly(reports: seq<Report>)
    ensures var t := Tally(reports);
      && t.delivered == Count(reports, DidDeliver) && t.skipped == Count(reports, DidSkip)
      && t.retried == Count(reports, DidRetry) && t.failed == Count(reports, DidFail)
      && t.notConfigured == Count(reports, DidNotConfigure)
  {
    if reports != [] {
      TallyExactly(reports[..|reports| - 1]);
    }
  }
}
