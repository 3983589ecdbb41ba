/**
 * Messages that are delivered twice by workers that do nothing wrong: one crashes, or stalls,
 * between the acceptance of its delivery and the commit, and the message is claimed again. And
 * retention messages that are published without a deletion.
 */
module LeaseRepeats {
  import opened EventContracts
  import opened RetryPolicy
  import opened Outbox
  import opened LeaseProtocol
  import opened LeaseDelivery
  import opened LeaseTightness

  /** The worker claims the message, and its post is accepted. */
  lemma {:induction false} AcceptedRun(cfg: Config, run: seq<Step>, w: WorkerId, id: MessageId)
    returns (run': seq<Step>)
    requires ValidConfig(cfg) && ValidRun(cfg, run) && w in cfg && Able(cfg[w])
    requires w in Final(cfg, run).workers && Final(cfg, run).workers[w].Idle? && Open(Final(cfg, run), id)
    ensures ValidRun(cfg, run') && run <= run' && OnlyExport(Final(cfg, run'), id)
    ensures var s, s' := Final(cfg, run), Final(cfg, run');
      && s'.workers == s.workers[w := Running(s.clock, [id], Decided(Publish, true), 1, NOTHING)]
      && s'.rows[id] == LeaseRow(s.rows[id], LeaseEnd(cfg[w], s.clock)) && s'.clock == s.clock
      && s'.delivered == Bump(s.delivered, id) && s'.lost == s.lost && s'.duplicated == s.duplicated
    ensures PunctualRun(cfg, run) && cfg[w].leaseSeconds > 0 ==> PunctualRun(cfg, run')
  {
    var claimed := ClaimRun(cfg, run, w, id);
    run' := AnswerRun(cfg, claimed, w, id, Returned(200));
  }

  /** The worker claims the message, its post is accepted, and it commits. */
  lemma {:induction false} PublishedRun(cfg: Config, run: seq<Step>, w: WorkerId, id: MessageId)
    returns (run': seq<Step>)
    requires ValidConfig(cfg) && ValidRun(cfg, run) && w in cfg && Able(cfg[w])
    requires w in Final(cfg, run).workers && Final(cfg, run).workers[w].Idle? && Open(Final(cfg, run), id)
    ensures ValidRun(cfg, run') && run <= run' && OnlyExport(Final(cfg, run'), id)
    ensures var s, s' := Final(cfg, run), Final(cfg, run');
      && s'.rows[id].status == Published && s'.clock == s.clock
      && s'.delivered == Bump(s.delivered, id) && s'.lost == s.lost
      && forall v :: v in s.workers && v != w ==> v in s'.workers && s'.workers[v] == s.workers[v]
    ensures PunctualRun(cfg, run) && cfg[w].leaseSeconds > 0 ==> PunctualRun(cfg, run')
  {
    var claimed := ClaimRun(cfg, run, w, id);
    run' := PostRun(cfg, claimed, w, id, Returned(200));
  }

  /**
   * One worker is enough: it crashes between the acceptance and its commit, claims the message
   * again when its own lease has run out, and delivers it a second time.
   */
  lemma {:induction false} DeliveredTwiceByCrash(cfg: Config, w: WorkerId, row: Row)
    returns (run: seq<Step>, id: MessageId)
    requires ValidConfig(cfg) && w in cfg && Able(cfg[w]) && Fresh(row) && IsExport(row)
    ensures ValidRun(cfg, run) && (cfg[w].leaseSeconds > 0 ==> PunctualRun(cfg, run))
    ensures var s := Final(cfg, run);
      && id in s.rows && s.rows[id].status == Published
      && Times(s.delivered, id) == 2 && Times(s.lost, id) == 1
  {
    id := 0;
    var stored := StoreExport(cfg, row);
    var accepted := AcceptedRun(cfg, stored, w, id);
    ExtendPunctual(cfg, accepted, Step.Crash(w));
    var ticked := TickRun(cfg, accepted + [Step.Crash(w)], LeaseEnd(cfg[w], Final(cfg, stored).clock));
    run := PublishedRun(cfg, ticked, w, id);
  }

  /**
   * No crash is needed: a worker stalls after the acceptance until its lease has run out, and
   * another delivers the message again. Up to there, at `i`, all workers are punctual; when the
   * first one commits after all, it finds the message PUBLISHED.
   */
  lemma {:induction false} DeliveredTwiceByStall(cfg: Config, w: WorkerId, v: WorkerId, row: Row)
    returns (run: seq<Step>, i: nat, id: MessageId)
    requires ValidConfig(cfg) && w in cfg && v in cfg && w != v && Able(cfg[w]) && Able(cfg[v])
    requires Fresh(row) && IsExport(row)
    ensures ValidRun(cfg, run) && i <= |run| && ValidRun(cfg, run[..i])
    ensures cfg[w].leaseSeconds > 0 && cfg[v].leaseSeconds > 0 ==> PunctualRun(cfg, run[..i])
    ensures var s := Final(cfg, run[..i]);
      && id in s.rows && s.rows[id].status == Published && Times(s.delivered, id) == 2 && Times(s.lost, id) == 0
      && Stalled(cfg, s, w, id)
    ensures Times(Final(cfg, run).delivered, id) == 2 && Times(Final(cfg, run).duplicated, id) >= 1
  {
    id := 0;
    var stored := StoreExport(cfg, row);
    var accepted := AcceptedRun(cfg, stored, w, id);
    var ticked := TickRun(cfg, accepted, LeaseEnd(cfg[w], Final(cfg, stored).clock));
    var published := PublishedRun(cfg, ticked, v, id);
    ExtendPunctual(cfg, published, Step.Finish(w));
    run := published + [Step.Finish(w)];
    i := |published|;
    assert run[..i] == published;
  }

  // ---- Published without a delivery ----

  /**
   * A retention message whose object is gone, or is to be kept, is published although nothing was
   * deleted for it.
   */
  lemma {:induction false} PublishedWithoutDeletion(cfg: Config, w: WorkerId, row: Row, answer: Answer)
    returns (run: seq<Step>, id: MessageId)
    requires ValidConfig(cfg) && w in cfg && cfg[w].kind == Retention && cfg[w].batchSize >= 1
    requires Fresh(row) && row.nextAttemptAt.None? && row.topic == RETENTION_TOPIC
    requires RetentionTargetOf(row.payload).Some? && (answer.ObjectMissing? || answer.ObjectKept?)
    ensures ValidRun(cfg, run)
    ensures var s := Final(cfg, run);
      && id in s.rows && s.rows[id].status == Published
      && Times(s.delivered, id) == 0 && Times(s.effectless, id) == 1
  {
    id := 0;
    assert ValidRun(cfg, []) && Final(cfg, []) == Init(cfg);
    ExtendPunctual(cfg, [], Insert(id, row));
    run := [] + [Insert(id, row)];
    run := RetentionClaim(cfg, run, w, id);
    run := SettledWithoutDeletion(cfg, run, w, id, answer);
  }

  lemma {:induction false} RetentionClaim(cfg: Config, run: seq<Step>, w: WorkerId, id: MessageId)
    returns (run': seq<Step>)
    requires ValidConfig(cfg) && ValidRun(cfg, run) && w in cfg && cfg[w].kind == Retention && cfg[w].batchSize >= 1
    requires var s := Final(cfg, run);
      && w in s.workers && s.workers[w].Idle? && s.rows.Keys == {id} && Due(s.rows[id], Retention, s.clock)
    ensures ValidRun(cfg, run') && Holding(Final(cfg, run'), w, id) && id in Final(cfg, run').rows
    ensures var s, s' := Final(cfg, run), Final(cfg, run');
      && s'.rows[id] == LeaseRow(s.rows[id], LeaseEnd(cfg[w], s.clock))
      && s'.delivered == s.delivered && s'.effectless == s.effectless
  {
    ExtendPunctual(cfg, run, Step.Start(w));
    run' := run + [Step.Start(w)];
    ClaimSingle(Final(cfg, run').rows, cfg[w], Final(cfg, run).clock, id);
    ExtendPunctual(cfg, run', Step.Claim(w, {}));
    run' := run' + [Step.Claim(w, {})];
  }

  lemma {:induction false} SettledWithoutDeletion(
    cfg: Config, run: seq<Step>, w: WorkerId, id: MessageId, answer: Answer) returns (run': seq<Step>)
    requires ValidConfig(cfg) && ValidRun(cfg, run) && w in cfg && cfg[w].kind == Retention
    requires Holding(Final(cfg, run), w, id) && id in Final(cfg, run).rows
    requires var row := Final(cfg, run).rows[id];
      row.topic == RETENTION_TOPIC && RetentionTargetOf(row.payload).Some? && row.status != Published
    requires answer.ObjectMissing? || answer.ObjectKept?
    ensures ValidRun(cfg, run') && id in Final(cfg, run').rows && Final(cfg, run').rows[id].status == Published
    ensures Final(cfg, run').delivered == Final(cfg, run).delivered
    ensures Final(cfg, run').effectless == Bump(Final(cfg, run).effectless, id)
  {
    ExtendPunctual(cfg, run, Step.Read(w));
    run' := run + [Step.Read(w)];
    ExtendPunctual(cfg, run', Step.Answer(w, answer));
    run' := run' + [Step.Answer(w, answer)];
    ExtendPunctual(cfg, run', Step.Finish(w));
    run' := run' + [Step.Finish(w)];
  }
}
