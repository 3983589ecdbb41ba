/** What every step of the protocol keeps, and how ending or moving one transaction keeps it. */
module DispatchInvariant {
  import opened Common
  import opened Dispatcher
  import opened DispatchLog
  import opened DispatchProtocol

  /** What the handler has seen is what it would see now. */
  ghost predicate SeesNow(p: Platform, db: Db, tx: Tx)
    requires Handled(p, tx)
  {
    SeenBy(tx) == Observed(p, tx.req, db.roots, tx.choice.told, |SeenBy(tx)|)
  }

  ghost predicate TxSound(p: Platform, db: Db, tx: Tx) {
    !tx.phase.Ended? ==>
      && !tx.choice.aborted && Handled(p, tx)
      && (tx.phase.Collided? ==> Taken(db, tx.req))
      && (OwnsReceipt(tx) ==> !Taken(db, tx.req) && SeesNow(p, db, tx))
      && (tx.phase.Executed? ==> ResultOfHandler(NextOfTx(p, tx), tx.phase.seen) == Ok(tx.phase.outcome))
  }

  ghost predicate Apart(a: Tx, b: Tx) {
    (OwnsReceipt(a) && OwnsReceipt(b) ==> !Clash(a.req, b.req)) && Held(a) !! Held(b)
  }

  ghost predicate TxsSound(p: Platform, db: Db, txs: map<TxId, Tx>) {
    && (forall t :: t in txs ==> TxSound(p, db, txs[t]))
    && (forall t, u :: t in txs && u in txs && t != u ==> Apart(txs[t], txs[u]))
  }

  /** The tables and the replies are those of deciding one entry at a time. */
  ghost predicate Linear(p: Platform, start: Db, s: State) {
    Faithful(p, start, s.log) && s.db == After(p, start, s.log)
  }

  ghost predicate IsPlace(places: map<TxId, nat>, k: nat) {
    exists t :: t in places && places[t] == k
  }

  ghost predicate InPlace(s: State, t: TxId)
    requires t in s.places
  {
    && t in s.txs && s.places[t] < |s.log| && s.log[s.places[t]].Decided?
    && s.txs[t].req == s.log[s.places[t]].req && s.txs[t].phase == Ended(s.log[s.places[t]].reply)
  }

  /** The decisions are those of the ended transactions, each at its own place, with its reply. */
  ghost predicate CallersMatch(s: State) {
    && (forall t :: t in s.places ==> InPlace(s, t))
    && (forall t, u :: t in s.places && u in s.places && s.places[t] == s.places[u] ==> t == u)
    && (forall t :: t in s.txs && s.txs[t].phase.Ended? ==> t in s.places)
    && (forall k :: 0 <= k < |s.log| && s.log[k].Decided? ==> IsPlace(s.places, k))
  }

  ghost predicate Sound(p: Platform, start: Db, s: State) {
    TxsSound(p, s.db, s.txs) && Linear(p, start, s) && CallersMatch(s)
  }

  lemma {:induction false} LogOne(p: Platform, start: Db, log: seq<Entry>, e: Entry)
    requires Faithful(p, start, log) && Answers(p, After(p, start, log), e)
    ensures Faithful(p, start, log + [e]) && After(p, start, log + [e]) == Apply(p, After(p, start, log), e)
  {
    assert (log + [e])[..|log|] == log;
  }

  lemma OthersInPlace(s: State, t: TxId, choice: Choice, db: Db, reply: Reply, u: TxId)
    requires CallersMatch(s) && t in s.txs && !s.txs[t].phase.Ended? && u in s.places
    ensures u != t && InPlace(End(s, t, choice, db, reply), u) && s.places[u] < |s.log|
  {
    assert InPlace(s, u);
  }

  lemma PlacesFilled(places: map<TxId, nat>, t: TxId, k: nat, n: nat)
    requires t !in places && (k < n ==> IsPlace(places, k))
    ensures k <= n ==> IsPlace(places[t := n], k)
  {
    if k < n {
      var u :| u in places && places[u] == k;
      assert places[t := n][u] == k;
    } else {
      assert places[t := n][t] == n;
    }
  }

  lemma MatchOne(s: State, t: TxId, choice: Choice, db: Db, reply: Reply)
    requires CallersMatch(s) && t in s.txs && !s.txs[t].phase.Ended?
    ensures CallersMatch(End(s, t, choice, db, reply))
  {
    var s' := End(s, t, choice, db, reply);
    forall u | u in s.places ensures u != t && InPlace(s', u) && s.places[u] < |s.log| {
      OthersInPlace(s, t, choice, db, reply, u);
    }
    forall k | 0 <= k < |s'.log| && s'.log[k].Decided? ensures IsPlace(s'.places, k) {
      PlacesFilled(s.places, t, k, |s.log|);
    }
  }

  lemma OthersStaySound(p: Platform, db: Db, db': Db, txs: map<TxId, Tx>, t: TxId, reply: Reply)
    requires TxsSound(p, db, txs) && t in txs
    requires forall u :: u in txs && u != t ==> TxSound(p, db', txs[u])
    ensures TxsSound(p, db', txs[t := txs[t].(phase := Ended(reply))])
  {
  }

  /** Ending a transaction keeps everything if its log entry is right and the others stay sound. */
  lemma EndSound(p: Platform, start: Db, s: State, t: TxId, choice: Choice, db: Db, reply: Reply)
    requires Sound(p, start, s) && t in s.txs && !s.txs[t].phase.Ended?
    requires Dispatched(p, s.db, s.txs[t].req, choice) == (db, reply)
    requires forall u :: u in s.txs && u != t ==> TxSound(p, db, s.txs[u])
    ensures Sound(p, start, End(s, t, choice, db, reply))
  {
    LogOne(p, start, s.log, Decided(s.txs[t].req, choice, reply));
    MatchOne(s, t, choice, db, reply);
    OthersStaySound(p, s.db, db, s.txs, t, reply);
  }

  lemma MoveMatches(s: State, t: TxId, phase: TxPhase)
    requires CallersMatch(s) && t in s.txs && !s.txs[t].phase.Ended? && !phase.Ended?
    ensures CallersMatch(Move(s, t, phase))
  {
    forall u | u in s.places ensures u != t && InPlace(Move(s, t, phase), u) {
      assert InPlace(s, u);
    }
  }

  lemma ReplaceTx(p: Platform, db: Db, txs: map<TxId, Tx>, t: TxId, tx: Tx)
    requires TxsSound(p, db, txs) && TxSound(p, db, tx)
    requires forall u :: u in txs && u != t ==> Apart(tx, txs[u])
    ensures TxsSound(p, db, txs[t := tx])
  {
    forall u | u in txs && u != t ensures Apart(txs[u], tx) {
      assert Apart(tx, txs[u]);
    }
  }

  /** A phase change that is sound on its own and apart from the others. */
  lemma MoveSound(p: Platform, start: Db, s: State, t: TxId, phase: TxPhase)
    requires Sound(p, start, s) && t in s.txs && !s.txs[t].phase.Ended? && !phase.Ended?
    requires TxSound(p, s.db, s.txs[t].(phase := phase))
    requires forall u :: u in s.txs && u != t ==> Apart(s.txs[t].(phase := phase), s.txs[u])
    ensures Sound(p, start, Move(s, t, phase))
  {
    ReplaceTx(p, s.db, s.txs, t, s.txs[t].(phase := phase));
    MoveMatches(s, t, phase);
  }

  lemma EndUnchanged(p: Platform, start: Db, s: State, t: TxId, choice: Choice, reply: Reply)
    requires Sound(p, start, s) && t in s.txs && !s.txs[t].phase.Ended?
    requires Dispatched(p, s.db, s.txs[t].req, choice) == (s.db, reply)
    ensures Sound(p, start, End(s, t, choice, s.db, reply))
  {
    EndSound(p, start, s, t, choice, s.db, reply);
  }

  lemma AddTx(p: Platform, db: Db, txs: map<TxId, Tx>, t: TxId, tx: Tx)
    requires TxsSound(p, db, txs) && t !in txs && TxSound(p, db, tx) && !OwnsReceipt(tx)
    ensures TxsSound(p, db, txs[t := tx])
  {
  }

  lemma AddCaller(s: State, t: TxId, tx: Tx)
    requires CallersMatch(s) && t !in s.txs && !tx.phase.Ended?
    ensures CallersMatch(s.(txs := s.txs[t := tx]))
  {
    forall u | u in s.places ensures InPlace(s.(txs := s.txs[t := tx]), u) {
      assert InPlace(s, u);
    }
  }

  lemma RefusedLinear(p: Platform, start: Db, s: State, req: Request, choice: Choice)
    requires Linear(p, start, s) && req.command.commandType !in p.handlers
    ensures var log := s.log + [Decided(req, choice, Err(UnsupportedCommand))];
      Faithful(p, start, log) && s.db == After(p, start, log)
  {
    LogOne(p, start, s.log, Decided(req, choice, Err(UnsupportedCommand)));
  }

  lemma RefusedMatches(p: Platform, s: State, t: TxId, req: Request, choice: Choice)
    requires CallersMatch(s) && t !in s.txs && req.command.commandType !in p.handlers
    ensures CallersMatch(BeginTx(p, s, t, req, choice))
  {
    AddCaller(s, t, Tx(req, choice, Begun));
    MatchOne(s.(txs := s.txs[t := Tx(req, choice, Begun)]), t, choice, s.db, Err(UnsupportedCommand));
  }

  lemma RefusedTxs(p: Platform, s: State, t: TxId, req: Request, choice: Choice)
    requires TxsSound(p, s.db, s.txs) && t !in s.txs && req.command.commandType !in p.handlers
    ensures TxsSound(p, s.db, BeginTx(p, s, t, req, choice).txs)
  {
    var begun, ended := Tx(req, choice, Begun), Tx(req, choice, Ended(Err(UnsupportedCommand)));
    AddTx(p, s.db, s.txs, t, ended);
    UpdateTwice(s.txs, t, begun, ended);
  }

  lemma RefusedSound(p: Platform, start: Db, s: State, t: TxId, req: Request, choice: Choice)
    requires Sound(p, start, s) && t !in s.txs && req.command.commandType !in p.handlers
    ensures Sound(p, start, BeginTx(p, s, t, req, choice))
  {
    RefusedLinear(p, start, s, req, choice);
    RefusedMatches(p, s, t, req, choice);
    RefusedTxs(p, s, t, req, choice);
  }

  lemma BeginSound(p: Platform, start: Db, s: State, t: TxId, req: Request, choice: Choice)
    requires Sound(p, start, s) && t !in s.txs && !choice.aborted
    ensures Sound(p, start, BeginTx(p, s, t, req, choice))
  {
    if req.command.commandType in p.handlers {
      AddCaller(s, t, Tx(req, choice, Begun));
      AddTx(p, s.db, s.txs, t, Tx(req, choice, Begun));
    } else {
      RefusedSound(p, start, s, t, req, choice);
    }
  }
}
