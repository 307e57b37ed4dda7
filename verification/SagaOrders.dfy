/** Where stored orders come from: over every interleaved run, each one is what some CreateOrder input asked for, field by field, and each
    call of the payment service carries that input's address. */
module SagaOrders {
  import opened Text
  import opened Writes
  import opened PaymentAdapter
  import opened CheckoutSaga
  import T = OrderTransactions
  import P = PaymentProtocol
  import G = SagaGuarantees
  import F = SagaFinality
  import Answers = SagaAnswers

  /** Label i starts CreateOrder as this process, new at that point, with an input that asks for exactly this. */
  predicate AsksAt(cfg: Config, trace: seq<Label>, i: int, p: nat, key: Option<string>, customer: string, item: string, amount: int) {
    0 <= i < |trace| && trace[i].Create? && trace[i].proc == p && p !in Exec(cfg, Initial(), trace[..i]).procs &&
    var input := trace[i].input;
    input.amount == amount > 0 && input.key == key &&
    TrimSpace(input.customer) == customer != "" && TrimSpace(input.item) == item != "" && TrimSpace(input.email) != ""
  }

  ghost predicate Asks(cfg: Config, trace: seq<Label>, p: nat, key: Option<string>, customer: string, item: string, amount: int) {
    exists i :: AsksAt(cfg, trace, i, p, key, customer, item, amount)
  }

  /** Label j inserts a row with this id and time in the process's transaction. */
  predicate Inserts(trace: seq<Label>, p: nat, id: string, at: int) {
    exists j :: 0 <= j < |trace| && trace[j] == Db(T.InsertOrder(p, id, at))
  }

  ghost predicate TxFrom(cfg: Config, trace: seq<Label>, t: nat, tx: T.Tx) {
    Asks(cfg, trace, t, tx.req.key, tx.req.customer, tx.req.item, tx.req.amount) &&
    (T.HasUncommitted(tx) ==> Inserts(trace, t, tx.order.id, tx.order.createdAt))
  }

  /** The order is what one process asked for and inserted, and only that process's key, if it gave one, leads to it. */
  ghost predicate OrderFrom(cfg: Config, trace: seq<Label>, keys: map<string, string>, o: T.Order) {
    exists p, key ::
      Asks(cfg, trace, p, key, o.customer, o.item, o.amount) && Inserts(trace, p, o.id, o.createdAt) &&
      forall k :: k in keys && keys[k] == o.id ==> key == Some(k)
  }

  ghost predicate AllFrom(cfg: Config, trace: seq<Label>, db: T.State) {
    (forall t :: t in db.txs ==> TxFrom(cfg, trace, t, db.txs[t])) &&
    (forall id :: id in db.orders ==> OrderFrom(cfg, trace, db.keys, db.orders[id]))
  }

  // ----- Longer runs ----------------------------------------------------------------------------

  lemma AsksStill(cfg: Config, trace: seq<Label>, l: Label, p: nat, key: Option<string>, customer: string, item: string, amount: int)
    requires Asks(cfg, trace, p, key, customer, item, amount)
    ensures Asks(cfg, trace + [l], p, key, customer, item, amount)
  {
    hide TrimSpace;
    var i :| AsksAt(cfg, trace, i, p, key, customer, item, amount);
    assert (trace + [l])[..i] == trace[..i];
    assert AsksAt(cfg, trace + [l], i, p, key, customer, item, amount);
  }

  lemma InsertsStill(trace: seq<Label>, l: Label, p: nat, id: string, at: int)
    requires Inserts(trace, p, id, at)
    ensures Inserts(trace + [l], p, id, at)
  {
    var j :| 0 <= j < |trace| && trace[j] == Db(T.InsertOrder(p, id, at));
    assert (trace + [l])[j] == trace[j];
  }

  lemma TxFromStill(cfg: Config, trace: seq<Label>, l: Label, t: nat, tx: T.Tx)
    requires TxFrom(cfg, trace, t, tx)
    ensures TxFrom(cfg, trace + [l], t, tx)
  {
    hide Asks, Inserts;
    AsksStill(cfg, trace, l, t, tx.req.key, tx.req.customer, tx.req.item, tx.req.amount);
    if T.HasUncommitted(tx) {
      InsertsStill(trace, l, t, tx.order.id, tx.order.createdAt);
    }
  }

  /** Neither a longer run nor another order's key takes anything away. */
  lemma OrderFromStill(cfg: Config, trace: seq<Label>, l: Label, keys: map<string, string>, keys': map<string, string>, o: T.Order, o': T.Order)
    requires OrderFrom(cfg, trace, keys, o) && T.SameOrder(o', o)
    requires forall k :: k in keys' && keys'[k] == o.id ==> k in keys && keys[k] == o.id
    ensures OrderFrom(cfg, trace + [l], keys', o')
  {
    hide Asks, Inserts;
    var p, key :| Asks(cfg, trace, p, key, o.customer, o.item, o.amount) && Inserts(trace, p, o.id, o.createdAt) &&
      forall k :: k in keys && keys[k] == o.id ==> key == Some(k);
    AsksStill(cfg, trace, l, p, key, o.customer, o.item, o.amount);
    InsertsStill(trace, l, p, o.id, o.createdAt);
  }

  // ----- Steps of the database ------------------------------------------------------------------

  /** A transaction keeps its request, and an uncommitted order that it has come to hold is the one just inserted. */
  predicate OwnMove(db: T.State, u: T.State, t: nat, d: T.Label) {
    t in db.txs && t in u.txs && u.txs[t].req == db.txs[t].req &&
    (T.HasUncommitted(u.txs[t]) ==>
       (T.HasUncommitted(db.txs[t]) && u.txs[t].order == db.txs[t].order) ||
       (d.InsertOrder? && u.txs[t].order.id == d.id && u.txs[t].order.createdAt == d.at))
  }

  lemma LockMoves(hash: string -> int, db: T.State, t: nat, d: T.Label)
    requires t in db.txs && (db.txs[t].Opened? || db.txs[t].Locked? || db.txs[t].Found?)
    ensures OwnMove(db, T.TxStep(hash, db, t, db.txs[t], d), t, d)
  {
    hide T.Keyed, T.OnInsertKey, T.OnInsertOrder, T.OnCommitNew;
  }

  lemma InsertMoves(hash: string -> int, db: T.State, t: nat, d: T.Label)
    requires t in db.txs && (db.txs[t].Unlinked? || db.txs[t].Inserted?)
    ensures OwnMove(db, T.TxStep(hash, db, t, db.txs[t], d), t, d)
  {
    hide T.Keyed, T.HoldsKey, IsUuid, T.OnLock, T.OnLookUp, T.OnLoad, T.OnCommitNew;
  }

  lemma EndMoves(hash: string -> int, db: T.State, t: nat, d: T.Label)
    requires t in db.txs && !db.txs[t].Opened? && !db.txs[t].Locked? && !db.txs[t].Found? && !db.txs[t].Unlinked? && !db.txs[t].Inserted?
    ensures OwnMove(db, T.TxStep(hash, db, t, db.txs[t], d), t, d)
  {
    hide T.Keyed, T.OnLock, T.OnLookUp, T.OnLoad, T.OnInsertKey, T.OnInsertOrder;
  }

  lemma StatementMoves(hash: string -> int, db: T.State, t: nat, d: T.Label)
    requires t in db.txs
    ensures OwnMove(db, T.TxStep(hash, db, t, db.txs[t], d), t, d)
  {
    hide OwnMove, T.TxStep;
    if db.txs[t].Opened? || db.txs[t].Locked? || db.txs[t].Found? {
      LockMoves(hash, db, t, d);
    } else if db.txs[t].Unlinked? || db.txs[t].Inserted? {
      InsertMoves(hash, db, t, d);
    } else {
      EndMoves(hash, db, t, d);
    }
  }

  lemma ReadTables(hash: string -> int, db: T.State, t: nat, d: T.Label)
    requires t in db.txs && !db.txs[t].Unlinked? && !db.txs[t].Inserted? && !db.txs[t].Complete?
    ensures var u := T.TxStep(hash, db, t, db.txs[t], d); u.orders == db.orders && u.keys == db.keys
  {
    hide T.Keyed, T.OnInsertKey, T.OnInsertOrder, T.OnCommitNew;
  }

  lemma InsertTables(hash: string -> int, db: T.State, t: nat, d: T.Label)
    requires t in db.txs && (db.txs[t].Unlinked? || db.txs[t].Inserted?)
    ensures var u := T.TxStep(hash, db, t, db.txs[t], d); u.orders == db.orders && u.keys == db.keys
  {
    hide T.Keyed, T.HoldsKey, IsUuid, T.NewOrder, T.OnLock, T.OnLookUp, T.OnLoad, T.OnCommitNew;
  }

  predicate Adds(db: T.State, u: T.State, tx: T.Tx) {
    tx.Complete? && u.orders == db.orders[tx.order.id := tx.order] &&
    u.keys == if tx.req.key.Some? && tx.req.key.value != "" then db.keys[tx.req.key.value := tx.order.id] else db.keys
  }

  lemma CommitTables(hash: string -> int, db: T.State, t: nat, d: T.Label)
    requires t in db.txs && db.txs[t].Complete?
    ensures var u := T.TxStep(hash, db, t, db.txs[t], d); (u.orders == db.orders && u.keys == db.keys) || Adds(db, u, db.txs[t])
  {
    hide T.OnLock, T.OnLookUp, T.OnLoad, T.OnInsertKey, T.OnInsertOrder;
  }

  /** Only the commit of a new order changes a table. */
  lemma StatementTables(hash: string -> int, db: T.State, t: nat, d: T.Label)
    requires t in db.txs
    ensures var u := T.TxStep(hash, db, t, db.txs[t], d); (u.orders == db.orders && u.keys == db.keys) || Adds(db, u, db.txs[t])
  {
    hide T.TxStep, Adds;
    if db.txs[t].Unlinked? || db.txs[t].Inserted? {
      InsertTables(hash, db, t, d);
    } else if db.txs[t].Complete? {
      CommitTables(hash, db, t, d);
    } else {
      ReadTables(hash, db, t, d);
    }
  }

  lemma OwnFrom(cfg: Config, trace: seq<Label>, db: T.State, t: nat, d: T.Label)
    requires t in db.txs && TxFrom(cfg, trace, t, db.txs[t]) && !d.Begin? && !d.UpdateStatus? && d.tx == t
    ensures var u := T.TxStep(cfg.hash, db, t, db.txs[t], d); t in u.txs && TxFrom(cfg, trace + [Db(d)], t, u.txs[t])
  {
    hide T.TxStep, Asks;
    StatementMoves(cfg.hash, db, t, d);
    TxFromStill(cfg, trace, Db(d), t, db.txs[t]);
    var u := T.TxStep(cfg.hash, db, t, db.txs[t], d);
    if d.InsertOrder? && T.HasUncommitted(u.txs[t]) && u.txs[t].order.id == d.id && u.txs[t].order.createdAt == d.at {
      assert (trace + [Db(d)])[|trace|] == Db(T.InsertOrder(t, d.id, d.at));
    }
  }

  /** A new order is what its transaction asked for. */
  lemma CommittedFrom(cfg: Config, trace: seq<Label>, l: Label, db: T.State, t: nat, keys': map<string, string>)
    requires T.Fits(cfg.hash, db) && t in db.txs && db.txs[t].Complete? && TxFrom(cfg, trace, t, db.txs[t])
    requires var tx := db.txs[t];
      keys' == if tx.req.key.Some? && tx.req.key.value != "" then db.keys[tx.req.key.value := tx.order.id] else db.keys
    ensures OrderFrom(cfg, trace + [l], keys', db.txs[t].order)
  {
    hide Asks, Inserts, IsUuid, T.OrdersFit, T.LockHeld;
    var tx := db.txs[t];
    var o := tx.order;
    assert T.TxFits(cfg.hash, db, t, tx) && T.KeysFit(db);
    TxFromStill(cfg, trace, l, t, tx);
    assert Asks(cfg, trace + [l], t, tx.req.key, o.customer, o.item, o.amount) && Inserts(trace + [l], t, o.id, o.createdAt);
  }

  lemma OrdersStill(cfg: Config, trace: seq<Label>, l: Label, db: T.State, u: T.State)
    requires T.Fits(cfg.hash, db) && AllFrom(cfg, trace, db)
    requires u.keys == db.keys && u.orders.Keys == db.orders.Keys && forall id :: id in db.orders ==> T.SameOrder(u.orders[id], db.orders[id])
    ensures forall id :: id in u.orders ==> OrderFrom(cfg, trace + [l], u.keys, u.orders[id])
  {
    hide OrderFrom, T.Fits, TxFrom;
    forall id | id in u.orders ensures OrderFrom(cfg, trace + [l], u.keys, u.orders[id]) {
      OrderFromStill(cfg, trace, l, db.keys, u.keys, db.orders[id], u.orders[id]);
    }
  }

  lemma OrdersAfterCommit(cfg: Config, trace: seq<Label>, l: Label, db: T.State, t: nat, u: T.State)
    requires T.Fits(cfg.hash, db) && AllFrom(cfg, trace, db) && t in db.txs && Adds(db, u, db.txs[t])
    ensures forall id :: id in u.orders ==> OrderFrom(cfg, trace + [l], u.keys, u.orders[id])
  {
    hide OrderFrom, TxFrom, IsUuid, T.LockHeld;
    var o := db.txs[t].order;
    assert T.TxFits(cfg.hash, db, t, db.txs[t]) && T.OrdersFit(db);
    CommittedFrom(cfg, trace, l, db, t, u.keys);
    forall id | id in u.orders ensures OrderFrom(cfg, trace + [l], u.keys, u.orders[id]) {
      if id != o.id {
        assert T.RowFits(db.used, id, db.orders[id], db.history[id]);
        OrderFromStill(cfg, trace, l, db.keys, u.keys, db.orders[id], u.orders[id]);
      }
    }
  }

  lemma StatementFrom(cfg: Config, trace: seq<Label>, db: T.State, d: T.Label)
    requires T.Fits(cfg.hash, db) && AllFrom(cfg, trace, db) && !d.Begin? && !d.UpdateStatus? && !d.Abort? && d.tx in db.txs
    ensures AllFrom(cfg, trace + [Db(d)], T.TxStep(cfg.hash, db, d.tx, db.txs[d.tx], d))
  {
    hide T.TxStep, OrderFrom, T.Fits, TxFrom;
    var t, u := d.tx, T.TxStep(cfg.hash, db, d.tx, db.txs[d.tx], d);
    F.StepOnly(cfg.hash, db, t, d);
    StatementTables(cfg.hash, db, t, d);
    OwnFrom(cfg, trace, db, t, d);
    forall x | x in u.txs ensures TxFrom(cfg, trace + [Db(d)], x, u.txs[x]) {
      if x != t {
        TxFromStill(cfg, trace, Db(d), x, db.txs[x]);
      }
    }
    if u.orders == db.orders && u.keys == db.keys {
      OrdersStill(cfg, trace, Db(d), db, u);
    } else {
      OrdersAfterCommit(cfg, trace, Db(d), db, t, u);
    }
  }

  /** The tables stay but for statuses, and transactions stay, end, or are as before with one more. */
  lemma QuietFrom(cfg: Config, trace: seq<Label>, l: Label, db: T.State, u: T.State)
    requires T.Fits(cfg.hash, db) && AllFrom(cfg, trace, db)
    requires u.keys == db.keys && u.orders.Keys == db.orders.Keys && forall id :: id in db.orders ==> T.SameOrder(u.orders[id], db.orders[id])
    requires forall t :: t in u.txs ==> TxFrom(cfg, trace + [l], t, u.txs[t]) || (t in db.txs && u.txs[t] == db.txs[t]) ||
                                        (t in db.txs && u.txs[t] == T.Aborted(db.txs[t].req))
    ensures AllFrom(cfg, trace + [l], u)
  {
    hide OrderFrom, T.Fits, Asks, Inserts;
    OrdersStill(cfg, trace, l, db, u);
    forall t | t in u.txs ensures TxFrom(cfg, trace + [l], t, u.txs[t]) {
      if t in db.txs {
        TxFromStill(cfg, trace, l, t, db.txs[t]);
      }
    }
  }

  lemma AbortFrom(cfg: Config, trace: seq<Label>, l: Label, db: T.State, t: nat)
    requires T.Fits(cfg.hash, db) && AllFrom(cfg, trace, db)
    ensures AllFrom(cfg, trace + [l], T.Next(cfg.hash, db, T.Abort(t)))
  {
    hide AllFrom, T.Fits, T.Finish;
    if t in db.txs {
      F.FinishTxs(db, t, T.Aborted(db.txs[t].req));
    }
    FinishTables(db, t, T.Aborted(if t in db.txs then db.txs[t].req else T.Request(None, "", "", 0)));
    SameItself(db);
    QuietFrom(cfg, trace, l, db, T.Next(cfg.hash, db, T.Abort(t)));
  }

  lemma FinishTables(db: T.State, t: nat, tx: T.Tx)
    ensures T.Finish(db, t, tx).orders == db.orders && T.Finish(db, t, tx).keys == db.keys
  {
  }

  lemma SameItself(db: T.State)
    ensures forall id :: id in db.orders ==> T.SameOrder(db.orders[id], db.orders[id])
  {
  }

  // ----- Runs -----------------------------------------------------------------------------------

  lemma SameDbFrom(cfg: Config, trace: seq<Label>, l: Label, db: T.State)
    requires T.Fits(cfg.hash, db) && AllFrom(cfg, trace, db)
    ensures AllFrom(cfg, trace + [l], db)
  {
    hide AllFrom, T.Fits;
    SameItself(db);
    QuietFrom(cfg, trace, l, db, db);
  }

  lemma UpdateFrom(cfg: Config, trace: seq<Label>, l: Label, db: T.State, id: string, status: T.OrderStatus)
    requires T.Fits(cfg.hash, db) && AllFrom(cfg, trace, db)
    ensures AllFrom(cfg, trace + [l], T.OnUpdateStatus(db, id, status))
  {
    hide AllFrom, T.Fits;
    QuietFrom(cfg, trace, l, db, T.OnUpdateStatus(db, id, status));
  }

  lemma BeginFrom(cfg: Config, trace: seq<Label>, p: nat, input: Input)
    requires var s := Exec(cfg, Initial(), trace); T.Fits(cfg.hash, s.db) && AllFrom(cfg, trace, s.db) && p !in s.procs && p !in s.db.txs
    requires ValidInput(input)
    ensures AllFrom(cfg, trace + [Create(p, input)], T.Go(Exec(cfg, Initial(), trace).db, p, T.Opened(RequestOf(input))))
  {
    hide AllFrom, T.Fits, Exec, TrimSpace;
    var db, l := Exec(cfg, Initial(), trace).db, Create(p, input);
    var u := T.Go(db, p, T.Opened(RequestOf(input)));
    assert (trace + [l])[..|trace|] == trace;
    assert AsksAt(cfg, trace + [l], |trace|, p, input.key, TrimSpace(input.customer), TrimSpace(input.item), input.amount);
    assert TxFrom(cfg, trace + [l], p, u.txs[p]);
    SameItself(db);
    QuietFrom(cfg, trace, l, db, u);
  }

  lemma CreateFrom(cfg: Config, trace: seq<Label>, p: nat, input: Input)
    requires var s := Exec(cfg, Initial(), trace); T.Fits(cfg.hash, s.db) && AllFrom(cfg, trace, s.db)
    ensures AllFrom(cfg, trace + [Create(p, input)], OnCreate(cfg, Exec(cfg, Initial(), trace), p, input).db)
  {
    hide AllFrom, T.Fits, Exec, ValidInput, RequestOf;
    var s := Exec(cfg, Initial(), trace);
    if p !in s.procs && p !in s.db.txs && ValidInput(input) {
      BeginFrom(cfg, trace, p, input);
    } else {
      SameDbFrom(cfg, trace, Create(p, input), s.db);
    }
  }

  lemma DbLabelFrom(cfg: Config, trace: seq<Label>, db: T.State, d: T.Label)
    requires T.Fits(cfg.hash, db) && AllFrom(cfg, trace, db) && !d.Begin? && !d.UpdateStatus?
    ensures AllFrom(cfg, trace + [Db(d)], T.Next(cfg.hash, db, d))
  {
    hide AllFrom, T.Fits, T.TxStep, T.Finish;
    if d.Abort? {
      AbortFrom(cfg, trace, Db(d), db, d.tx);
    } else if d.tx in db.txs {
      StatementFrom(cfg, trace, db, d);
    } else {
      SameDbFrom(cfg, trace, Db(d), db);
    }
  }

  lemma ProcFrom(cfg: Config, trace: seq<Label>, s: State, p: nat, l: Label)
    requires T.Fits(cfg.hash, s.db) && AllFrom(cfg, trace, s.db) && p in s.procs
    ensures AllFrom(cfg, trace + [l], ProcStep(cfg, s, p, s.procs[p], l).db)
  {
    hide AllFrom, T.Fits, ProcStep;
    var d := Answers.ProcUpdates(cfg, s, p, l);
    SameDbFrom(cfg, trace, l, s.db);
    UpdateFrom(cfg, trace, l, s.db, d.id, d.status);
  }

  lemma StepFrom(cfg: Config, trace: seq<Label>, l: Label)
    requires AllFrom(cfg, trace, Exec(cfg, Initial(), trace).db)
    ensures AllFrom(cfg, trace + [l], Exec(cfg, Initial(), trace + [l]).db)
  {
    hide AllFrom, T.Fits, T.Next, P.Next, OnCreate, ProcStep, Exec;
    var s := Exec(cfg, Initial(), trace);
    ExecStep(cfg, Initial(), trace, l);
    G.AlwaysFits(cfg, trace);
    F.FitsOfDb(cfg, s);
    match l
    case Create(p, input) => CreateFrom(cfg, trace, p, input);
    case Db(d) =>
      if !d.Begin? && !d.UpdateStatus? {
        DbLabelFrom(cfg, trace, s.db, d);
      } else {
        SameDbFrom(cfg, trace, l, s.db);
      }
    case Crash(p) =>
      AbortFrom(cfg, trace, l, s.db, p);
      SameDbFrom(cfg, trace, l, s.db);
    case Cancel(_, _) => SameDbFrom(cfg, trace, l, s.db);
    case Pay(_) => SameDbFrom(cfg, trace, l, s.db);
    case _ =>
      if l.proc in s.procs {
        ProcFrom(cfg, trace, s, l.proc, l);
      } else {
        SameDbFrom(cfg, trace, l, s.db);
      }
  }

  /** In every run, whatever is stored is what some caller asked for: its fields, and the key that leads to it. */
  lemma {:induction false} StoredIsAsked(cfg: Config, trace: seq<Label>)
    ensures AllFrom(cfg, trace, Exec(cfg, Initial(), trace).db)
    decreases |trace|
  {
    hide AllFrom, Next;
    if trace == [] {
      ExecNothing(cfg, Initial());
      NothingStored(cfg);
    } else {
      var n := |trace| - 1;
      StoredIsAsked(cfg, trace[..n]);
      assert trace == trace[..n] + [trace[n]];
      StepFrom(cfg, trace[..n], trace[n]);
    }
  }

  lemma NothingStored(cfg: Config)
    ensures AllFrom(cfg, [], Initial().db)
  {
  }

  // ----- Calls of the payment service -----------------------------------------------------------

  /** Label i starts CreateOrder as this process, new at that point, with this address. */
  predicate GivesAt(cfg: Config, trace: seq<Label>, i: int, p: nat, email: string) {
    0 <= i < |trace| && trace[i].Create? && trace[i].proc == p && p !in Exec(cfg, Initial(), trace[..i]).procs &&
    TrimSpace(trace[i].input.email) == email != ""
  }

  ghost predicate Gave(cfg: Config, trace: seq<Label>, p: nat, email: string) {
    exists i :: GivesAt(cfg, trace, i, p, email)
  }

  /** The transaction of this process has returned this order. */
  predicate WasReturned(db: T.State, p: nat, id: string, amount: int) {
    p in db.txs && db.txs[p].Returned? && db.txs[p].order.id == id && db.txs[p].order.amount == amount
  }

  ghost predicate ProcAsked(cfg: Config, trace: seq<Label>, s: State, p: nat) {
    p in s.procs &&
    (s.procs[p].Storing? ==> Gave(cfg, trace, p, s.procs[p].email)) &&
    (s.procs[p].Calling? ==>
       Gave(cfg, trace, p, s.procs[p].email) && WasReturned(s.db, p, s.procs[p].order.id, s.procs[p].order.amount))
  }

  /** One process gave this address, and its transaction returned this order with this amount. */
  ghost predicate CallAsked(cfg: Config, trace: seq<Label>, db: T.State, input: P.Input) {
    exists p :: Gave(cfg, trace, p, input.email) && WasReturned(db, p, input.orderId, input.amount)
  }

  ghost predicate AllAsked(cfg: Config, trace: seq<Label>, s: State) {
    (forall p :: p in s.procs ==> ProcAsked(cfg, trace, s, p)) &&
    (!cfg.open ==> forall c :: c in s.pay.calls ==> CallAsked(cfg, trace, s.db, s.pay.calls[c].input))
  }

  lemma GaveStill(cfg: Config, trace: seq<Label>, l: Label, p: nat, email: string)
    requires Gave(cfg, trace, p, email)
    ensures Gave(cfg, trace + [l], p, email)
  {
    hide TrimSpace;
    var i :| GivesAt(cfg, trace, i, p, email);
    assert (trace + [l])[..i] == trace[..i];
    assert GivesAt(cfg, trace + [l], i, p, email);
  }

  /** What a transaction has returned it has returned for good. */
  predicate ReturnedStay(db: T.State, u: T.State) {
    forall p :: p in db.txs && db.txs[p].Returned? ==> p in u.txs && u.txs[p] == db.txs[p]
  }

  lemma DbReturnedStay(hash: string -> int, db: T.State, d: T.Label)
    ensures ReturnedStay(db, T.Next(hash, db, d))
  {
    hide T.TxStep, T.Finish;
    match d
    case UpdateStatus(id, status) => Answers.UpdateMovesNone(db, id, status);
    case Begin(_, _) =>
    case Abort(t) =>
      if t in db.txs {
        F.FinishTxs(db, t, T.Aborted(db.txs[t].req));
      }
    case _ =>
      if d.tx in db.txs {
        F.StepOnly(hash, db, d.tx, d);
        OverStays(hash, db, d.tx, d);
      }
  }

  lemma OverStays(hash: string -> int, db: T.State, t: nat, d: T.Label)
    requires t in db.txs
    ensures db.txs[t].Returned? ==> T.TxStep(hash, db, t, db.txs[t], d) == db
  {
    hide T.OnLock, T.OnLookUp, T.OnLoad, T.OnInsertOrder, T.OnInsertKey, T.OnCommitNew, T.Finish, IsUuid, T.Keyed;
  }

  lemma CallAskedStill(cfg: Config, trace: seq<Label>, l: Label, db: T.State, u: T.State, input: P.Input)
    requires ReturnedStay(db, u) && CallAsked(cfg, trace, db, input)
    ensures CallAsked(cfg, trace + [l], u, input)
  {
    hide Gave;
    var p :| Gave(cfg, trace, p, input.email) && WasReturned(db, p, input.orderId, input.amount);
    GaveStill(cfg, trace, l, p, input.email);
    assert WasReturned(u, p, input.orderId, input.amount);
  }

  lemma ProcAskedStill(cfg: Config, trace: seq<Label>, l: Label, s: State, t: State, p: nat)
    requires ReturnedStay(s.db, t.db) && ProcAsked(cfg, trace, s, p) && p in t.procs && t.procs[p] == s.procs[p]
    ensures ProcAsked(cfg, trace + [l], t, p)
  {
    hide Gave;
    if s.procs[p].Storing? || s.procs[p].Calling? {
      GaveStill(cfg, trace, l, p, s.procs[p].email);
    }
  }

  /** One process moves at most, to a place that it may be in, and at most one call is new, one that somebody asked for. */
  lemma MoveAsked(cfg: Config, trace: seq<Label>, l: Label, s: State, t: State)
    requires AllAsked(cfg, trace, s) && ReturnedStay(s.db, t.db)
    requires forall p :: p in t.procs ==> (p in s.procs && t.procs[p] == s.procs[p]) || ProcAsked(cfg, trace + [l], t, p)
    requires !cfg.open ==> forall c :: c in t.pay.calls ==>
               (c in s.pay.calls && t.pay.calls[c].input == s.pay.calls[c].input) ||
               CallAsked(cfg, trace, s.db, t.pay.calls[c].input)
    ensures AllAsked(cfg, trace + [l], t)
  {
    hide ProcAsked, CallAsked, ReturnedStay;
    forall p | p in t.procs ensures ProcAsked(cfg, trace + [l], t, p) {
      if p in s.procs && t.procs[p] == s.procs[p] {
        ProcAskedStill(cfg, trace, l, s, t, p);
      }
    }
    if !cfg.open {
      forall c | c in t.pay.calls ensures CallAsked(cfg, trace + [l], t.db, t.pay.calls[c].input) {
        CallAskedStill(cfg, trace, l, s.db, t.db, t.pay.calls[c].input);
      }
    }
  }

  lemma PayKeepsInputs(publisher: bool, pay: P.State, q: P.Label)
    ensures var t := P.Next(publisher, pay, q);
      forall c :: c in t.calls ==> (c in pay.calls && t.calls[c].input == pay.calls[c].input) ||
                                   (q.Begin? && c == q.call && t.calls[c].input == q.input)
  {
    hide TrimSpace, IsUuid, P.StageAfterSave, P.Clashes, P.FindRow;
  }

  lemma CreateAsked(cfg: Config, trace: seq<Label>, p: nat, input: Input)
    requires var s := Exec(cfg, Initial(), trace); AllAsked(cfg, trace, s)
    ensures AllAsked(cfg, trace + [Create(p, input)], OnCreate(cfg, Exec(cfg, Initial(), trace), p, input))
  {
    hide AllAsked, Exec, TrimSpace, T.Next, CallAsked;
    var s, l := Exec(cfg, Initial(), trace), Create(p, input);
    var t := OnCreate(cfg, s, p, input);
    DbReturnedStay(cfg.hash, s.db, T.Begin(p, RequestOf(input)));
    if p !in s.procs {
      assert (trace + [l])[..|trace|] == trace;
      if ValidInput(input) {
        assert GivesAt(cfg, trace + [l], |trace|, p, TrimSpace(input.email));
      }
    }
    MoveAsked(cfg, trace, l, s, t);
  }

  lemma StoredAsked(cfg: Config, trace: seq<Label>, l: Label, s: State, p: nat, email: string)
    requires ProcAsked(cfg, trace, s, p) && s.procs[p] == Storing(email)
    ensures var t := OnStored(s, p, email); t.db == s.db && t.pay == s.pay && ProcAsked(cfg, trace + [l], t, p)
  {
    hide Gave;
    GaveStill(cfg, trace, l, p, email);
  }

  lemma CallsAsked(cfg: Config, trace: seq<Label>, s: State, p: nat, o: T.Order, email: string, call: Option<nat>)
    requires ProcAsked(cfg, trace, s, p) && s.procs[p] == Calling(o, email)
    ensures var t := OnCall(cfg, s, p, o, email, call);
      t.db == s.db && p in t.procs && (t.procs[p] == s.procs[p] || !t.procs[p].Calling?) && !t.procs[p].Storing? &&
      forall c :: c in t.pay.calls ==>
        (c in s.pay.calls && t.pay.calls[c].input == s.pay.calls[c].input) || CallAsked(cfg, trace, s.db, t.pay.calls[c].input)
  {
    hide Gave, P.Next;
    if call.Some? {
      PayKeepsInputs(cfg.publisher, s.pay, P.Begin(call.value, P.Input(o.id, o.amount, email)));
    }
    assert CallAsked(cfg, trace, s.db, P.Input(o.id, o.amount, email));
  }

  /** Past the call, a process has no more address to give. */
  lemma LaterAsksNothing(cfg: Config, s: State, p: nat, l: Label)
    requires p in s.procs && !s.procs[p].Storing? && !s.procs[p].Calling?
    ensures var t := ProcStep(cfg, s, p, s.procs[p], l);
      t.pay == s.pay && p in t.procs && !t.procs[p].Storing? && !t.procs[p].Calling?
  {
    hide P.FindRow, Authorize, GetStatus, Served, HttpGet, DisturbsAuthorize, DisturbsGetStatus, SetStatus, T.OnUpdateStatus;
    hide AfterAuthorize, AfterGetStatus;
    match s.procs[p]
    case Awaiting(o, _) => AnswersLeadOn(o);
    case Querying(o) => AnswersLeadOn(o);
    case Writing(o, status) => if l.Write? { SetStatusPays(s, o.id, status, l.outcome); }
    case Failing(o) => if l.WriteFailed? { SetStatusPays(s, o.id, T.Failed, l.outcome); }
    case CancelWriting(o) => if l.CancelWrite? { SetStatusPays(s, o.id, T.Cancelled, l.outcome); }
    case _ =>
  }

  lemma AnswersLeadOn(o: T.Order)
    ensures forall a :: !AfterAuthorize(o, a).Storing? && !AfterAuthorize(o, a).Calling?
    ensures forall a :: !AfterGetStatus(o, a).Storing? && !AfterGetStatus(o, a).Calling?
  {
  }

  lemma SetStatusPays(s: State, id: string, status: T.OrderStatus, outcome: WriteOutcome)
    ensures SetStatus(s, id, status, outcome).pay == s.pay
  {
  }

  lemma ProcStepAsked(cfg: Config, trace: seq<Label>, s: State, l: Label, p: nat)
    requires AllAsked(cfg, trace, s) && p in s.procs
    ensures AllAsked(cfg, trace + [l], ProcStep(cfg, s, p, s.procs[p], l))
  {
    hide CallAsked, Gave, OnStored, OnCall, OnAnswered, OnQueried, OnWrite, OnWriteFailed, OnReread, OnCancelRead, OnCancelWrite, T.Next, P.Next;
    var t := ProcStep(cfg, s, p, s.procs[p], l);
    F.ProcTouches(cfg, s, p, l);
    assert ReturnedStay(s.db, t.db);
    match s.procs[p]
    case Storing(email) =>
      if l.Stored? {
        StoredAsked(cfg, trace, l, s, p, email);
      }
      MoveAsked(cfg, trace, l, s, t);
    case Calling(o, email) =>
      if l.Call? {
        CallsAsked(cfg, trace, s, p, o, email, l.call);
      }
      MoveAsked(cfg, trace, l, s, t);
    case _ =>
      LaterAsksNothing(cfg, s, p, l);
      MoveAsked(cfg, trace, l, s, t);
  }

  lemma StepAsked(cfg: Config, trace: seq<Label>, l: Label)
    requires AllAsked(cfg, trace, Exec(cfg, Initial(), trace))
    ensures AllAsked(cfg, trace + [l], Exec(cfg, Initial(), trace + [l]))
  {
    hide CallAsked, ProcStep, OnCreate, Gave, Exec, T.Next, P.Next;
    var s := Exec(cfg, Initial(), trace);
    ExecStep(cfg, Initial(), trace, l);
    match l
    case Create(p, input) => CreateAsked(cfg, trace, p, input);
    case Cancel(p, id) => MoveAsked(cfg, trace, l, s, Next(cfg, s, l));
    case Db(d) =>
      DbReturnedStay(cfg.hash, s.db, d);
      MoveAsked(cfg, trace, l, s, Next(cfg, s, l));
    case Pay(q) =>
      PayKeepsInputs(cfg.publisher, s.pay, q);
      MoveAsked(cfg, trace, l, s, Next(cfg, s, l));
    case Crash(p) =>
      DbReturnedStay(cfg.hash, s.db, T.Abort(p));
      MoveAsked(cfg, trace, l, s, Next(cfg, s, l));
    case _ =>
      if l.proc in s.procs {
        ProcStepAsked(cfg, trace, s, l, l.proc);
      } else {
        MoveAsked(cfg, trace, l, s, s);
      }
  }

  /** In every run, a process that pays uses the trimmed address of its own input, and each call of the payment service, when payments come only
      from checkout, is one process's: its address, and the id and amount of the order that its transaction returned. */
  lemma {:induction false} CallsAreAsked(cfg: Config, trace: seq<Label>)
    ensures AllAsked(cfg, trace, Exec(cfg, Initial(), trace))
    decreases |trace|
  {
    hide ProcAsked, CallAsked, Next;
    if trace == [] {
      ExecNothing(cfg, Initial());
    } else {
      var n := |trace| - 1;
      CallsAreAsked(cfg, trace[..n]);
      assert trace == trace[..n] + [trace[n]];
      StepAsked(cfg, trace[..n], trace[n]);
    }
  }
}
