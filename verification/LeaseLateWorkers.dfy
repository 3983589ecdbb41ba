/**
 * What workers that act after their lease can do to closed rows: runs in which a FAILED and a
 * NOT_CONFIGURED message are published after all.
 */
module LeaseLateWorkers {
  import opened RetryPolicy
  import opened Outbox
  import opened LeaseProtocol
  import opened LeaseInvariants
  import opened LeaseTightness

  /** Both workers hold the message, the second after the lease of the first has run out. */
  lemma {:induction false} ClaimTwice(cfg: Config, run: seq<Step>, w: WorkerId, v: WorkerId, id: MessageId)
    returns (run': seq<Step>)
    requires ValidConfig(cfg) && ValidRun(cfg, run) && w in cfg && v in cfg && w != v
    requires cfg[w].kind == Webhook && cfg[w].batchSize >= 1 && cfg[v].kind == Webhook && cfg[v].batchSize >= 1
    requires AllIdle(cfg, Final(cfg, run)) && Open(Final(cfg, run), id)
    ensures ValidRun(cfg, run') && run <= run' && OnlyExport(Final(cfg, run'), id)
    ensures Holding(Final(cfg, run'), w, id) && Holding(Final(cfg, run'), v, id)
    ensures var row, row' := Final(cfg, run).rows[id], Final(cfg, run').rows[id];
      row'.attemptCount == row.attemptCount && row'.status == Retry
  {
    var claimed := ClaimRun(cfg, run, w, id);
    var ticked := TickRun(cfg, claimed, LeaseEnd(cfg[w], Final(cfg, run).clock));
    run' := ClaimRun(cfg, ticked, v, id);
  }

  /** The late post succeeds, whatever the row says by then. */
  lemma {:induction false} PublishRun(cfg: Config, run: seq<Step>, w: WorkerId, id: MessageId) returns (run': seq<Step>)
    requires ValidConfig(cfg) && ValidRun(cfg, run) && w in cfg && Able(cfg[w])
    requires Holding(Final(cfg, run), w, id) && OnlyExport(Final(cfg, run), id)
    ensures ValidRun(cfg, run') && run <= run' && id in Final(cfg, run').rows
    ensures Final(cfg, run').rows[id].status == Published
  {
    run' := PostRun(cfg, run, w, id, Returned(200));
  }

  /**
   * FAILED is not final: for any two posting workers and any export there is a run in which one
   * of them exhausts the attempts and the other, late, publishes the failed message.
   */
  lemma {:induction false} FailedIsPublished(cfg: Config, w: WorkerId, v: WorkerId, row: Row)
    returns (run: seq<Step>, i: nat, id: MessageId)
    requires ValidConfig(cfg) && w in cfg && v in cfg && w != v && Able(cfg[w]) && Able(cfg[v])
    requires Fresh(row) && IsExport(row)
    ensures ValidRun(cfg, run) && i <= |run| && ValidRun(cfg, run[..i])
    ensures id in Final(cfg, run[..i]).rows && Final(cfg, run[..i]).rows[id].status == Failed
    ensures id in Final(cfg, run).rows && Final(cfg, run).rows[id].status == Published
  {
    id := 0;
    var stored := StoreExport(cfg, row);
    var last := ReachLastAttempt(cfg, stored, v, id);
    var both := ClaimTwice(cfg, last, w, v, id);
    var failed := FailRun(cfg, both, v, id);
    run := PublishRun(cfg, failed, w, id);
    i := |failed|;
    assert run[..i] == failed;
  }

  lemma PlansMark(w: Worker, row: Row)
    requires w.kind == Webhook && !w.configured && IsExport(row)
    ensures PlanFor(w, row) == Settled(NotConfiguredWith("WEBHOOK_NOT_CONFIGURED"))
  {
  }

  /** A worker without a URL marks the message. */
  lemma {:induction false} MarkRun(cfg: Config, run: seq<Step>, v: WorkerId, id: MessageId) returns (run': seq<Step>)
    requires ValidConfig(cfg) && ValidRun(cfg, run) && v in cfg && cfg[v].kind == Webhook && !cfg[v].configured
    requires Holding(Final(cfg, run), v, id) && OnlyExport(Final(cfg, run), id) && Claimable(Final(cfg, run).rows[id])
    ensures ValidRun(cfg, run') && run <= run' && OnlyExport(Final(cfg, run'), id)
    ensures Final(cfg, run').rows[id].status == NotConfigured
    ensures SettledAs(Final(cfg, run), Final(cfg, run'), v, id, Final(cfg, run').rows[id])
  {
    var s, code := Final(cfg, run), "WEBHOOK_NOT_CONFIGURED";
    PlansMark(cfg[v], s.rows[id]);
    ExtendRun(cfg, run, Step.Read(v));
    var decided := run + [Step.Read(v)];
    assert Final(cfg, decided).workers == s.workers[v := s.workers[v].(phase := Decided(NotConfiguredWith(code),
      false))];
    SettlesHead(cfg, s, Final(cfg, decided), v, id, NotConfiguredWith(code));
    ExtendRun(cfg, decided, Step.Finish(v));
    run' := decided + [Step.Finish(v)];
  }

  /**
   * NOT_CONFIGURED is not final: a worker without a URL marks the message, and another one, late,
   * publishes it.
   */
  lemma {:induction false} NotConfiguredIsPublished(cfg: Config, w: WorkerId, v: WorkerId, row: Row)
    returns (run: seq<Step>, i: nat, id: MessageId)
    requires ValidConfig(cfg) && w in cfg && v in cfg && Able(cfg[w])
    requires cfg[v].kind == Webhook && cfg[v].batchSize >= 1 && !cfg[v].configured
    requires Fresh(row) && IsExport(row)
    ensures ValidRun(cfg, run) && i <= |run| && ValidRun(cfg, run[..i])
    ensures id in Final(cfg, run[..i]).rows && Final(cfg, run[..i]).rows[id].status == NotConfigured
    ensures id in Final(cfg, run).rows && Final(cfg, run).rows[id].status == Published
  {
    id := 0;
    var stored := StoreExport(cfg, row);
    var both := ClaimTwice(cfg, stored, w, v, id);
    var marked := MarkRun(cfg, both, v, id);
    run := PublishRun(cfg, marked, w, id);
    i := |marked|;
    assert run[..i] == marked;
  }
}
