/** What the order service tells its callers, over every interleaved run: a use case that succeeds returns a stored order with a status that
    the order has really had. */
module SagaAnswers {
  import opened Text
  import opened Writes
  import opened PaymentAdapter
  import opened CheckoutSaga
  import T = OrderTransactions
  import P = PaymentProtocol
  import G = SagaGuarantees
  import R = SagaRetry
  import F = SagaFinality
  import Runs = SagaRuns
  import Theorems = SagaTheorems

  /** The status of this copy is one that the order has had. */
  predicate Had(db: T.State, o: T.Order) {
    o.id in db.history && o.status in db.history[o.id]
  }

  predicate TxTells(db: T.State, tx: T.Tx) {
    tx.Loaded? || tx.Returned? ==> Had(db, tx.order)
  }

  predicate TxsTell(db: T.State) {
    forall t :: t in db.txs ==> TxTells(db, db.txs[t])
  }

  predicate ProcTells(s: State, proc: Proc) {
    proc.Finished? && proc.outcome.Success? ==> Had(s.db, proc.outcome.order) && !proc.outcome.order.status.Pending?
  }

  predicate ProcsTell(s: State) {
    forall p :: p in s.procs ==> ProcTells(s, s.procs[p])
  }

  // ----- Transactions ---------------------------------------------------------------------------

  lemma HadLasts(db: T.State, u: T.State, o: T.Order)
    requires T.Grows(db, u) && Had(db, o)
    ensures Had(u, o)
  {
    hide T.SameOrder;
    assert db.history[o.id] <= u.history[o.id];
  }

  lemma TxLasts(db: T.State, u: T.State, tx: T.Tx)
    requires T.Grows(db, u) && TxTells(db, tx)
    ensures TxTells(u, tx)
  {
    hide T.Grows, Had;
    if tx.Loaded? || tx.Returned? {
      HadLasts(db, u, tx.order);
    }
  }

  /** A replay loads the row, whose status is the latest it has had. */
  lemma LoadTells(db: T.State, t: nat, req: T.Request, id: string)
    requires T.OrdersFit(db)
    ensures var u := T.OnLoad(db, t, req, id); t in u.txs && TxTells(u, u.txs[t])
  {
    hide IsUuid;
    if id in db.orders {
      assert T.RowFits(db.used, id, db.orders[id], db.history[id]);
    }
  }

  lemma CommitTells(db: T.State, t: nat, req: T.Request, o: T.Order, outcome: WriteOutcome)
    ensures var u := T.OnCommitNew(db, t, req, o, outcome); t in u.txs && TxTells(u, u.txs[t])
  {
    hide T.Keyed;
  }

  lemma LockTells(hash: string -> int, db: T.State, t: nat, req: T.Request)
    requires t in db.txs && db.txs[t].Opened?
    ensures var u := T.OnLock(hash, db, t, req); t in u.txs && TxTells(u, u.txs[t])
  {
    hide T.Keyed;
  }

  lemma InsertKeyTells(db: T.State, t: nat, req: T.Request, o: T.Order)
    requires t in db.txs && db.txs[t].Inserted?
    ensures var u := T.OnInsertKey(db, t, req, o); t in u.txs && TxTells(u, u.txs[t])
  {
    hide T.Keyed, T.HoldsKey;
  }

  lemma InsertOrderTells(db: T.State, t: nat, req: T.Request, id: string, at: int)
    ensures var u := T.OnInsertOrder(db, t, req, id, at); t in u.txs && TxTells(u, u.txs[t])
  {
    hide T.NewOrder;
  }

  /** Before a row is loaded and before the commit there is nothing to return. */
  lemma NothingToTell(hash: string -> int, db: T.State, t: nat, d: T.Label)
    requires t in db.txs && !db.txs[t].Found? && !db.txs[t].Loaded? && !db.txs[t].Complete? && !db.txs[t].Returned?
    ensures var u := T.TxStep(hash, db, t, db.txs[t], d); t in u.txs && TxTells(u, u.txs[t])
  {
    hide T.Keyed, IsUuid, Had, T.OnLock, T.OnInsertOrder, T.OnInsertKey;
    match db.txs[t]
    case Opened(req) => LockTells(hash, db, t, req);
    case Unlinked(req) =>
      if d.InsertOrder? {
        InsertOrderTells(db, t, req, d.id, d.at);
      }
    case Inserted(req, o) => InsertKeyTells(db, t, req, o);
    case _ =>
  }

  lemma OwnTells(hash: string -> int, db: T.State, t: nat, d: T.Label)
    requires T.OrdersFit(db) && t in db.txs && TxTells(db, db.txs[t])
    ensures var u := T.TxStep(hash, db, t, db.txs[t], d); t in u.txs && TxTells(u, u.txs[t])
  {
    hide T.OnLoad, T.OnCommitNew, T.OnLock, T.OnLookUp, T.OnInsertOrder, T.OnInsertKey, T.OrdersFit, T.Keyed, IsUuid, T.NewOrder;
    match db.txs[t]
    case Found(req, id) => LoadTells(db, t, req, id);
    case Complete(req, o) =>
      if d.Commit? {
        CommitTells(db, t, req, o, d.outcome);
      }
    case Loaded(_, _) =>
    case Returned(_, _) =>
    case _ => NothingToTell(hash, db, t, d);
  }

  lemma DbTells(hash: string -> int, db: T.State, d: T.Label)
    requires T.Fits(hash, db) && TxsTell(db)
    ensures TxsTell(T.Next(hash, db, d)) && T.Grows(db, T.Next(hash, db, d))
  {
    hide T.TxStep, T.Fits, TxTells, T.Finish, T.OnUpdateStatus, T.Grows;
    var u := T.Next(hash, db, d);
    T.FitsStep(hash, db, d);
    forall t | t in u.txs ensures TxTells(u, u.txs[t]) {
      if t in db.txs {
        TxLasts(db, u, db.txs[t]);
      }
      TxMoved(hash, db, d, t);
    }
  }

  /** A transaction that a label has changed tells what it should. */
  lemma TxMoved(hash: string -> int, db: T.State, d: T.Label, t: nat)
    requires T.Fits(hash, db) && TxsTell(db) && t in T.Next(hash, db, d).txs
    ensures var u := T.Next(hash, db, d); (t in db.txs && u.txs[t] == db.txs[t]) || TxTells(u, u.txs[t])
  {
    assert T.OrdersFit(db) by { hide T.OrdersFit; }
    hide T.TxStep, T.Fits, T.Finish, T.OrdersFit;
    if d.UpdateStatus? {
      UpdateMovesNone(db, d.id, d.status);
    } else if d.Abort? {
      if d.tx in db.txs {
        F.FinishTxs(db, d.tx, T.Aborted(db.txs[d.tx].req));
      }
    } else if !d.Begin? && d.tx in db.txs {
      F.StepOnly(hash, db, d.tx, d);
      OwnTells(hash, db, d.tx, d);
    }
  }

  lemma UpdateMovesNone(db: T.State, id: string, status: T.OrderStatus)
    ensures T.OnUpdateStatus(db, id, status).txs == db.txs
  {
  }

  // ----- Use cases ------------------------------------------------------------------------------

  lemma ProcLasts(s: State, t: State, proc: Proc)
    requires T.Grows(s.db, t.db) && ProcTells(s, proc)
    ensures ProcTells(t, proc)
  {
    hide T.Grows, Had;
    if proc.Finished? && proc.outcome.Success? {
      HadLasts(s.db, t.db, proc.outcome.order);
    }
  }

  lemma StoredTells(s: State, p: nat, email: string)
    requires TxsTell(s.db) && p in s.procs && s.procs[p] == Storing(email)
    ensures var t := OnStored(s, p, email); p in t.procs && ProcTells(t, t.procs[p])
  {
    if p in s.db.txs {
      assert TxTells(s.db, s.db.txs[p]);
    }
  }

  lemma WrittenTells(s: State, p: nat, o: T.Order, status: T.OrderStatus, outcome: WriteOutcome)
    requires T.OrdersFit(s.db) && !status.Pending? && Told(s, o.id, outcome)
    ensures var t := SetStatus(s, o.id, status, outcome); Had(t.db, o.(status := status))
  {
    hide T.RowFits;
    assert o.id in s.db.history;
  }

  /** What the answer leads to next is no success yet. */
  lemma AnswersAreNoSuccess(o: T.Order, a: Answer)
    ensures !(AfterAuthorize(o, a).Finished? && AfterAuthorize(o, a).outcome.Success?)
    ensures !(AfterGetStatus(o, a).Finished? && AfterGetStatus(o, a).outcome.Success?)
  {
  }

  lemma StatusToWriteFits(cfg: Config, s: State, p: nat, o: T.Order, status: T.OrderStatus)
    requires G.Fits(cfg, s) && p in s.procs && s.procs[p] == Writing(o, status)
    ensures !status.Pending?
  {
    hide G.PartsFit, G.CallsMatch, G.HistoriesFit, G.Known, G.Backed;
    assert G.ProcFits(cfg, s, s.procs[p]);
  }

  lemma OwnProcTells(cfg: Config, s: State, p: nat, l: Label)
    requires G.Fits(cfg, s) && T.OrdersFit(s.db) && TxsTell(s.db) && p in s.procs && ProcTells(s, s.procs[p])
    ensures var t := ProcStep(cfg, s, p, s.procs[p], l); p in t.procs && ProcTells(t, t.procs[p])
  {
    hide G.Fits, T.OrdersFit, Had, AfterAuthorize, AfterGetStatus, Authorize, GetStatus, Served, DisturbsAuthorize, DisturbsGetStatus,
      P.Next, P.FindRow, SetStatus, OnStored;
    match s.procs[p]
    case Storing(email) => StoredTells(s, p, email);
    case Awaiting(o, call) =>
      forall a ensures !(AfterAuthorize(o, a).Finished? && AfterAuthorize(o, a).outcome.Success?) {
        AnswersAreNoSuccess(o, a);
      }
    case Querying(o) =>
      forall a ensures !(AfterGetStatus(o, a).Finished? && AfterGetStatus(o, a).outcome.Success?) {
        AnswersAreNoSuccess(o, a);
      }
    case Writing(o, status) =>
      StatusToWriteFits(cfg, s, p, o, status);
      if l.Write? && Told(s, o.id, l.outcome) {
        WrittenTells(s, p, o, status, l.outcome);
      }
    case CancelWriting(o) =>
      if l.CancelWrite? && Told(s, o.id, l.outcome) {
        WrittenTells(s, p, o, T.Cancelled, l.outcome);
      }
    case _ =>
  }

  lemma SetStatusIsUpdate(hash: string -> int, s: State, id: string, status: T.OrderStatus, outcome: WriteOutcome)
    ensures SetStatus(s, id, status, outcome).db == s.db ||
            SetStatus(s, id, status, outcome).db == T.Next(hash, s.db, T.UpdateStatus(id, status))
  {
  }

  /** A process changes the orders database by a status update, if at all. */
  lemma ProcUpdates(cfg: Config, s: State, p: nat, l: Label) returns (d: T.Label)
    requires p in s.procs
    ensures d.UpdateStatus?
    ensures var t := ProcStep(cfg, s, p, s.procs[p], l); t.db == s.db || t.db == T.Next(cfg.hash, s.db, d)
  {
    hide P.Next, P.FindRow, AfterAuthorize, AfterGetStatus, Authorize, GetStatus, Served, DisturbsAuthorize, DisturbsGetStatus, SetStatus, T.Next;
    d := T.UpdateStatus("", T.Failed);
    match s.procs[p]
    case Writing(o, status) =>
      if l.Write? {
        SetStatusIsUpdate(cfg.hash, s, o.id, status, l.outcome);
        d := T.UpdateStatus(o.id, status);
      }
    case Failing(o) =>
      if l.WriteFailed? {
        SetStatusIsUpdate(cfg.hash, s, o.id, T.Failed, l.outcome);
        d := T.UpdateStatus(o.id, T.Failed);
      }
    case CancelWriting(o) =>
      if l.CancelWrite? {
        SetStatusIsUpdate(cfg.hash, s, o.id, T.Cancelled, l.outcome);
        d := T.UpdateStatus(o.id, T.Cancelled);
      }
    case _ =>
  }

  ghost predicate Tells(cfg: Config, s: State) {
    G.Fits(cfg, s) && TxsTell(s.db) && ProcsTell(s)
  }

  lemma OrdersAreFit(cfg: Config, s: State)
    requires G.Fits(cfg, s)
    ensures T.OrdersFit(s.db) && T.Fits(cfg.hash, s.db)
  {
    hide P.Fits, G.CallsMatch, G.HistoriesFit, G.ProcsFit, T.TxsFit, T.KeysFit, T.RowFits;
  }

  /** One process has moved, the database has grown, and what is new tells the truth. */
  lemma StateTells(cfg: Config, s: State, t: State, p: nat)
    requires Tells(cfg, s) && G.Fits(cfg, t) && TxsTell(t.db) && T.Grows(s.db, t.db)
    requires forall q :: q in t.procs && q != p ==> q in s.procs && t.procs[q] == s.procs[q]
    requires p in t.procs ==> ProcTells(t, t.procs[p]) || (p in s.procs && t.procs[p] == s.procs[p])
    ensures Tells(cfg, t)
  {
    hide G.Fits, T.Grows, TxsTell, ProcTells;
    forall q | q in t.procs ensures ProcTells(t, t.procs[q]) {
      if q in s.procs && t.procs[q] == s.procs[q] {
        ProcLasts(s, t, s.procs[q]);
      }
    }
  }

  lemma GrowsFromItself(db: T.State)
    ensures T.Grows(db, db)
  {
  }

  lemma ProcStepTells(cfg: Config, s: State, p: nat, l: Label)
    requires Tells(cfg, s) && p in s.procs && G.Fits(cfg, ProcStep(cfg, s, p, s.procs[p], l))
    ensures Tells(cfg, ProcStep(cfg, s, p, s.procs[p], l))
  {
    hide G.Fits, ProcStep, T.Next, T.Grows, ProcTells, TxsTell, T.OrdersFit, T.Fits;
    OrdersAreFit(cfg, s);
    OwnProcTells(cfg, s, p, l);
    F.ProcTouches(cfg, s, p, l);
    var d := ProcUpdates(cfg, s, p, l);
    DbTells(cfg.hash, s.db, d);
    GrowsFromItself(s.db);
    StateTells(cfg, s, ProcStep(cfg, s, p, s.procs[p], l), p);
  }

  /** Statements of a transaction. */
  lemma DbLabelTells(cfg: Config, s: State, t: State, d: T.Label)
    requires Tells(cfg, s) && G.Fits(cfg, t) && t.db == T.Next(cfg.hash, s.db, d) && t.procs == s.procs
    ensures Tells(cfg, t)
  {
    hide G.Fits, T.Next, T.Grows, TxsTell, T.OrdersFit, T.Fits, ProcTells;
    OrdersAreFit(cfg, s);
    DbTells(cfg.hash, s.db, d);
    StateTells(cfg, s, t, 0);
  }

  /** A process that starts or dies has nothing to tell. */
  lemma ProcMoves(cfg: Config, s: State, t: State, p: nat, d: T.Label)
    requires Tells(cfg, s) && G.Fits(cfg, t) && (t.db == s.db || t.db == T.Next(cfg.hash, s.db, d))
    requires p in t.procs && t.procs == s.procs[p := t.procs[p]] && !(t.procs[p].Finished? && t.procs[p].outcome.Success?)
    ensures Tells(cfg, t)
  {
    hide G.Fits, T.Next, T.Grows, TxsTell, T.OrdersFit, T.Fits;
    OrdersAreFit(cfg, s);
    DbTells(cfg.hash, s.db, d);
    GrowsFromItself(s.db);
    StateTells(cfg, s, t, p);
  }

  lemma CreateMoves(cfg: Config, s: State, p: nat, input: Input)
    ensures var t := OnCreate(cfg, s, p, input);
      t == s || ((t.db == s.db || t.db == T.Next(cfg.hash, s.db, T.Begin(p, RequestOf(input)))) &&
                 p in t.procs && t.procs == s.procs[p := t.procs[p]] && !(t.procs[p].Finished? && t.procs[p].outcome.Success?))
  {
    hide T.Next, ValidInput, RequestOf;
  }

  lemma CrashMoves(cfg: Config, s: State, p: nat)
    ensures var t := OnCrash(cfg, s, p);
      t.db == T.Next(cfg.hash, s.db, T.Abort(p)) && p in t.procs && t.procs == s.procs[p := t.procs[p]] &&
      !(t.procs[p].Finished? && t.procs[p].outcome.Success?)
  {
    hide T.Next;
  }

  /** What a label other than a process's own does. */
  lemma OtherLabels(cfg: Config, s: State, l: Label)
    ensures l.Create? ==> Next(cfg, s, l) == OnCreate(cfg, s, l.proc, l.input)
    ensures l.Cancel? ==> Next(cfg, s, l) == s || (Next(cfg, s, l) == Go(s, l.proc, Cancelling(l.id)))
    ensures l.Db? ==> Next(cfg, s, l) == s || Next(cfg, s, l) == s.(db := T.Next(cfg.hash, s.db, l.dbLabel))
    ensures l.Pay? ==> Next(cfg, s, l).db == s.db && Next(cfg, s, l).procs == s.procs
    ensures l.Crash? ==> Next(cfg, s, l) == s || Next(cfg, s, l) == OnCrash(cfg, s, l.proc)
  {
    hide OnCreate, OnCrash, T.Next, P.Next;
  }

  lemma ProcLabel(cfg: Config, s: State, l: Label)
    requires !l.Create? && !l.Cancel? && !l.Db? && !l.Pay? && !l.Crash?
    ensures Next(cfg, s, l) == if l.proc in s.procs then ProcStep(cfg, s, l.proc, s.procs[l.proc], l) else s
  {
    hide ProcStep;
  }

  lemma StepTells(cfg: Config, s: State, l: Label)
    requires Tells(cfg, s)
    ensures Tells(cfg, Next(cfg, s, l))
  {
    var t := Next(cfg, s, l);
    assert G.Fits(cfg, s);
    G.FitsStep(cfg, s, l);
    OtherLabels(cfg, s, l);
    hide Next, Tells, G.Fits, ProcStep, T.Next, P.Next, OnCreate, OnCrash, RequestOf, TrimSpace;
    if l.Create? {
      CreateMoves(cfg, s, l.proc, l.input);
      if t != s {
        ProcMoves(cfg, s, t, l.proc, T.Begin(l.proc, RequestOf(l.input)));
      }
    } else if l.Cancel? {
      if t != s {
        ProcMoves(cfg, s, t, l.proc, T.Abort(l.proc));
      }
    } else if l.Db? {
      if t != s {
        DbLabelTells(cfg, s, t, l.dbLabel);
      }
    } else if l.Pay? {
      PayTells(cfg, s, t);
    } else if l.Crash? {
      if t != s {
        CrashMoves(cfg, s, l.proc);
        ProcMoves(cfg, s, t, l.proc, T.Abort(l.proc));
      }
    } else {
      ProcLabel(cfg, s, l);
      if l.proc in s.procs {
        ProcStepTells(cfg, s, l.proc, l);
      }
    }
  }

  lemma PayTells(cfg: Config, s: State, t: State)
    requires Tells(cfg, s) && G.Fits(cfg, t) && t.db == s.db && t.procs == s.procs
    ensures Tells(cfg, t)
  {
    hide G.Fits, TxsTell;
  }

  lemma {:induction false} AlwaysTells(cfg: Config, trace: seq<Label>)
    ensures Tells(cfg, Exec(cfg, Initial(), trace))
  {
    hide Next;
    if trace == [] {
      G.AlwaysFits(cfg, []);
    } else {
      AlwaysTells(cfg, trace[..|trace| - 1]);
      hide Tells;
      StepTells(cfg, Exec(cfg, Initial(), trace[..|trace| - 1]), trace[|trace| - 1]);
    }
  }

  // ----- Over every run -------------------------------------------------------------------------

  /** In every run, whatever the faults: a CreateOrder or CancelOrder that has succeeded returned a stored order as it is but for its status,
      and that status, never Pending, is one the order has had. */
  lemma SuccessTellsTheTruth(cfg: Config, trace: seq<Label>, p: nat)
    ensures var s := Exec(cfg, Initial(), trace);
      p in s.procs && s.procs[p].Finished? && s.procs[p].outcome.Success? ==>
        var o := s.procs[p].outcome.order;
        o.id in s.db.orders && T.SameOrder(o, s.db.orders[o.id]) && o.id in s.db.history && o.status in s.db.history[o.id] && !o.status.Pending?
  {
    hide Exec, G.PartsFit, G.CallsMatch, G.HistoriesFit, TxsTell;
    AlwaysTells(cfg, trace);
    var s := Exec(cfg, Initial(), trace);
    if p in s.procs {
      assert ProcTells(s, s.procs[p]) && G.ProcFits(cfg, s, s.procs[p]);
    }
  }

  /** Every use case that has succeeded returned a status that the order's amount decides, or Cancelled. */
  ghost predicate TellsTheAmount(cfg: Config, trace: seq<Label>) {
    var s := Exec(cfg, Initial(), trace);
    forall p :: p in s.procs && s.procs[p].Finished? && s.procs[p].outcome.Success? ==>
      var o := s.procs[p].outcome.order; o.status.Cancelled? || o.status == R.Outcome(o.amount)
  }

  lemma HadIsByAmount(cfg: Config, s: State, o: T.Order)
    requires G.Fits(cfg, s) && !cfg.open && !G.MisreadingsOccur(cfg)
    requires Had(s.db, o) && o.id in s.db.orders && T.SameOrder(o, s.db.orders[o.id]) && !o.status.Pending?
    ensures o.status.Cancelled? || o.status == R.Outcome(o.amount)
  {
    hide G.Fits, G.MisreadingsOccur;
    if !o.status.Cancelled? {
      assert Theorems.Held(s, o.id, o.status);
      Theorems.HeldIsBacked(cfg, s, o.id, o.status);
      var row :| row in s.pay.rows && row.orderId == o.id && row.status == if o.status.Paid? then P.Authorized else P.Declined;
      Theorems.RowCarriesOrderAmount(cfg, s, row);
    }
  }

  /** With a misreading, a replay returns an order as Failed whose payment is authorized. */
  lemma MisreadingIsReturned(cfg: Config) returns (trace: seq<Label>)
    requires !cfg.open && G.MisreadingsOccur(cfg)
    ensures !TellsTheAmount(cfg, trace)
  {
    hide Exec, G.Fits, G.FailsOnAuthorize, G.FailsOnGetStatus, P.EventOf, R.Replay, T.Fits, TrimSpace, ValidInput;
    var r :| G.FailsOnAuthorize(cfg, r) || G.FailsOnGetStatus(cfg, r);
    var before, id := Runs.MisreadingFailsAuthorized(cfg, r);
    var s := Exec(cfg, Initial(), before);
    G.AlwaysFits(cfg, before);
    R.DbIsFit(cfg, s);
    Runs.InputIsValid();
    assert s.pay.rows[0] == Runs.TheRow(id);
    Theorems.RowCarriesOrderAmount(cfg, s, Runs.TheRow(id));
    F.LastIsStatus(cfg, s, id);
    var t := R.ReplayFindsTheOrder(cfg, s, 2, Runs.TheInput());
    trace := before + R.Replay(2, Runs.TheInput());
    ExecAppend(cfg, Initial(), before, R.Replay(2, Runs.TheInput()));
    assert t.procs[2] == Finished(Success(s.db.orders[id]));
  }

  /** Over all runs, and behind either adapter: successes report what the amount decides, or Cancelled, exactly when no reply that can occur
      is misread. */
  lemma TellsTheAmountIffNoMisreading(cfg: Config)
    requires !cfg.open
    ensures (forall trace :: TellsTheAmount(cfg, trace)) <==> !G.MisreadingsOccur(cfg)
  {
    hide Exec, G.Fits, G.MisreadingsOccur, T.SameOrder, TxsTell, R.Outcome;
    if G.MisreadingsOccur(cfg) {
      var trace := MisreadingIsReturned(cfg);
    } else {
      forall trace ensures TellsTheAmount(cfg, trace) {
        var s := Exec(cfg, Initial(), trace);
        AlwaysTells(cfg, trace);
        forall p | p in s.procs && s.procs[p].Finished? && s.procs[p].outcome.Success?
          ensures var o := s.procs[p].outcome.order; o.status.Cancelled? || o.status == R.Outcome(o.amount)
        {
          SuccessTellsTheTruth(cfg, trace, p);
          HadIsByAmount(cfg, s, s.procs[p].outcome.order);
        }
      }
    }
  }
}
