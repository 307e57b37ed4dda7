/** A retry with the same key: what one fault-free, uninterrupted CreateOrder does in any reachable state. */
module SagaRetry {
  import opened Text
  import opened Writes
  import opened PaymentAdapter
  import opened CheckoutSaga
  import T = OrderTransactions
  import P = PaymentProtocol
  import G = SagaGuarantees
  import Steps = SagaSteps

  /** The retry's names: process, payment call, and the ids it would generate. */
  datatype Names = Names(proc: nat, call: nat, id: string, transactionId: string)

  /** Unused names, and no transaction holding the lock the key hashes to. */
  predicate Ready(cfg: Config, s: State, n: Names, key: string) {
    CanReplay(cfg, s, n.proc, key) && n.call !in s.pay.calls && IsUuid(n.id) && n.id !in s.pay.used &&
    (forall row :: row in s.pay.rows ==> row.transactionId != n.transactionId && row.id != n.id)
  }

  /** The process is new, and its transaction will not wait. */
  predicate CanReplay(cfg: Config, s: State, p: nat, key: string) {
    p !in s.procs && p !in s.db.txs && cfg.hash(key) !in s.db.locks
  }

  function Replay(p: nat, input: Input): seq<Label> {
    [Create(p, input), Db(T.Lock(p)), Db(T.LookUp(p)), Db(T.Load(p)), Db(T.Commit(p, Applied)), Stored(p)]
  }

  /** What the retry goes on to do once it holds the Pending order. */
  function Settle(cfg: Config, recorded: bool, amount: int, n: Names): seq<Label> {
    [Call(n.proc, Some(n.call)), Pay(P.Check(n.call, true))] +
    (if recorded then
       if cfg.adapter.Rest? then [Answered(n.proc, None), Queried(n.proc, None), Write(n.proc, Applied)]
       else [Answered(n.proc, None), Reread(n.proc, true)]
     else
       [Pay(P.Save(n.call, n.id, n.transactionId, Applied))] +
       (if cfg.publisher && P.StatusFor(amount).Authorized? then [Pay(P.Publish(n.call, true, true))] else []) +
       [Answered(n.proc, None), Write(n.proc, Applied)])
  }

  /** What an amount comes to: Paid up to 1000.00. */
  function Outcome(amount: int): T.OrderStatus {
    if amount <= 100000 then T.Paid else T.Failed
  }

  lemma Step(cfg: Config, s0: State, done: seq<Label>, s: State, l: Label) returns (done': seq<Label>, s': State)
    requires s == Exec(cfg, s0, done)
    ensures done' == done + [l] && s' == Exec(cfg, s0, done') && s' == Next(cfg, s, l)
  {
    done', s' := done + [l], Next(cfg, s, l);
    ExecStep(cfg, s0, done, l);
  }

  /** The transaction's part of a replay: it reads the linked order and changes no table. */
  lemma ReplayTransaction(hash: string -> int, db: T.State, p: nat, req: T.Request)
    returns (t1: T.State, t2: T.State, t3: T.State, t4: T.State, t5: T.State)
    requires T.Fits(hash, db) && p !in db.txs && T.Keyed(req) && req.key.value in db.keys && hash(req.key.value) !in db.locks
    ensures t1 == T.Next(hash, db, T.Begin(p, req)) && t2 == T.Next(hash, t1, T.Lock(p)) && t3 == T.Next(hash, t2, T.LookUp(p)) &&
            t4 == T.Next(hash, t3, T.Load(p)) && t5 == T.Next(hash, t4, T.Commit(p, Applied))
    ensures t5.orders == db.orders && t5.keys == db.keys && t5.history == db.history && t5.used == db.used &&
            db.keys[req.key.value] in db.orders &&
            t5.txs == db.txs[p := T.Returned(req, db.orders[db.keys[req.key.value]])] && hash(req.key.value) !in t5.locks
  {
    hide IsUuid, T.TxsFit, T.OrdersFit;
    var key := req.key.value;
    var id := db.keys[key];
    t1 := T.Next(hash, db, T.Begin(p, req));
    t2 := T.Next(hash, t1, T.Lock(p));
    assert t2 == T.Go(t1.(locks := t1.locks[hash(key) := p]), p, T.Locked(req));
    t3 := T.Next(hash, t2, T.LookUp(p));
    assert t3 == T.Go(t2, p, T.Found(req, id));
    t4 := T.Next(hash, t3, T.Load(p));
    assert t4 == T.Go(t3, p, T.Loaded(req, db.orders[id]));
    t5 := T.Next(hash, t4, T.Commit(p, Applied));
    assert t5 == T.Finish(t4, p, T.Returned(req, db.orders[id]));
  }

  /** Six labels from s, the states after them one by one. */
  lemma SixSteps(cfg: Config, s: State, a: Label, b: Label, c: Label, d: Label, e: Label, f: Label, s1: State, s2: State, s3: State, s4: State, s5: State)
    requires s1 == Next(cfg, s, a) && s2 == Next(cfg, s1, b) && s3 == Next(cfg, s2, c) && s4 == Next(cfg, s3, d) && s5 == Next(cfg, s4, e)
    ensures Exec(cfg, s, [a, b, c, d, e, f]) == Next(cfg, s5, f)
  {
    ExecNothing(cfg, s);
    hide Exec, Next;
    ExecStep(cfg, s, [], a);
    assert [] + [a] == [a];
    ExecStep(cfg, s, [a], b);
    assert [a] + [b] == [a, b];
    ExecStep(cfg, s, [a, b], c);
    assert [a, b] + [c] == [a, b, c];
    ExecStep(cfg, s, [a, b, c], d);
    assert [a, b, c] + [d] == [a, b, c, d];
    ExecStep(cfg, s, [a, b, c, d], e);
    assert [a, b, c, d] + [e] == [a, b, c, d, e];
    ExecStep(cfg, s, [a, b, c, d, e], f);
    assert [a, b, c, d, e] + [f] == [a, b, c, d, e, f];
  }

  /** The replay's labels, given what the transaction's do. */
  lemma ReplayRuns(cfg: Config, s: State, p: nat, input: Input, o: T.Order, db1: T.State, db2: T.State, db3: T.State, db4: T.State, db5: T.State)
    requires ValidInput(input) && p !in s.procs && p !in s.db.txs
    requires db1 == T.Next(cfg.hash, s.db, T.Begin(p, RequestOf(input))) && db2 == T.Next(cfg.hash, db1, T.Lock(p))
    requires db3 == T.Next(cfg.hash, db2, T.LookUp(p)) && db4 == T.Next(cfg.hash, db3, T.Load(p)) && db5 == T.Next(cfg.hash, db4, T.Commit(p, Applied))
    requires p in db5.txs && db5.txs[p] == T.Returned(RequestOf(input), o)
    ensures Exec(cfg, s, Replay(p, input)) ==
            State(db5, s.pay, s.procs[p := if o.status.Pending? then Calling(o, TrimSpace(input.email)) else Finished(Success(o))])
  {
    hide Exec, TrimSpace, T.Next, Next, ValidInput, RequestOf;
    Steps.CreateStep(cfg, s, p, input);
    var s1 := Go(s.(db := db1), p, Storing(TrimSpace(input.email)));
    Steps.DbStep(cfg, s1, T.Lock(p));
    Steps.DbStep(cfg, s1.(db := db2), T.LookUp(p));
    Steps.DbStep(cfg, s1.(db := db3), T.Load(p));
    Steps.DbStep(cfg, s1.(db := db4), T.Commit(p, Applied));
    Steps.StoredStep(cfg, s1.(db := db5), p, TrimSpace(input.email));
    SixSteps(cfg, s, Create(p, input), Db(T.Lock(p)), Db(T.LookUp(p)), Db(T.Load(p)), Db(T.Commit(p, Applied)), Stored(p),
             s1, s1.(db := db2), s1.(db := db3), s1.(db := db4), s1.(db := db5));
  }

  /** After the replay: nothing is stored anew; the process returns a settled order and goes on with a Pending one. */
  lemma ReplayFindsTheOrder(cfg: Config, s: State, p: nat, input: Input) returns (t: State)
    requires T.Fits(cfg.hash, s.db) && ValidInput(input) && input.key.Some? && input.key.value in s.db.keys && input.key.value != ""
    requires CanReplay(cfg, s, p, input.key.value)
    ensures t == Exec(cfg, s, Replay(p, input))
    ensures s.db.keys[input.key.value] in s.db.orders &&
      var o := s.db.orders[s.db.keys[input.key.value]];
      t.pay == s.pay && t.db.orders == s.db.orders && t.db.keys == s.db.keys && t.db.history == s.db.history &&
      t.db.txs.Keys == s.db.txs.Keys + {p} && cfg.hash(input.key.value) !in t.db.locks &&
      t.procs == s.procs[p := if o.status.Pending? then Calling(o, TrimSpace(input.email)) else Finished(Success(o))]
  {
    hide Exec, TrimSpace, T.Fits, Replay;
    var db1, db2, db3, db4, db5 := ReplayTransaction(cfg.hash, s.db, p, RequestOf(input));
    hide T.Next;
    ReplayRuns(cfg, s, p, input, s.db.orders[s.db.keys[input.key.value]], db1, db2, db3, db4, db5);
    t := Exec(cfg, s, Replay(p, input));
  }

  lemma WriteSettles(cfg: Config, s: State, p: nat, o: T.Order, status: T.OrderStatus)
    requires p in s.procs && s.procs[p] == Writing(o, status) && o.id in s.db.orders && o.id in s.db.history && s.db.orders[o.id] == o
    ensures var t := Next(cfg, s, Write(p, Applied));
      t.pay == s.pay && p in t.procs && t.procs[p] == Finished(Success(o.(status := status))) &&
      o.id in t.db.orders && t.db.orders[o.id] == o.(status := status)
  {
  }

  /** A payment already stored: REST reconciles with it, gRPC can only report the service unavailable. */
  lemma SettleRecorded(cfg: Config, s: State, n: Names, o: T.Order, email: string, row: P.Payment) returns (t: State)
    requires n.proc in s.procs && s.procs[n.proc] == Calling(o, email) && n.call !in s.pay.calls
    requires o.id in s.db.orders && o.id in s.db.history && s.db.orders[o.id] == o && o.amount > 0 && o.id != ""
    requires P.FindRow(s.pay.rows, o.id) == Some(row)
    ensures t == Exec(cfg, s, Settle(cfg, true, o.amount, n))
    ensures t.pay.rows == s.pay.rows && t.pay.events == s.pay.events && n.proc in t.procs && o.id in t.db.orders
    ensures cfg.adapter.Rest? ==>
      var status := if row.status.Authorized? then T.Paid else T.Failed;
      t.db.orders[o.id] == o.(status := status) && t.procs[n.proc] == Finished(Success(o.(status := status)))
    ensures cfg.adapter.Grpc? ==>
      t.db.orders == s.db.orders && t.procs[n.proc] == Finished(Failure(Some(o), PaymentUnavailable))
  {
    hide Exec, Next, P.FindRow, TrimSpace, IsUuid, P.Next;
    var p, c, input := n.proc, n.call, P.Input(o.id, o.amount, email);
    var done: seq<Label> := [];
    ExecNothing(cfg, s);
    P.BeginStep(cfg.publisher, s.pay, c, input);
    P.CheckStep(cfg.publisher, s.pay, c, input, true);
    Steps.CallStep(cfg, s, p, o, email, Some(c));
    done, t := Step(cfg, s, done, s, Call(p, Some(c)));
    Steps.PayStep(cfg, t, P.Check(c, true));
    done, t := Step(cfg, s, done, t, Pay(P.Check(c, true)));
    Steps.AnsweredStep(cfg, t, p, o, Some(c), None, Served(cfg.adapter, P.Refused(P.AlreadyExists)));
    done, t := Step(cfg, s, done, t, Answered(p, None));
    if cfg.adapter.Rest? {
      Steps.QueriedStep(cfg, t, p, o, None, Http(HttpGet(Some(row))));
      done, t := Step(cfg, s, done, t, Queried(p, None));
      WriteSettles(cfg, t, p, o, if row.status.Authorized? then T.Paid else T.Failed);
      done, t := Step(cfg, s, done, t, Write(p, Applied));
    } else {
      Steps.RereadStep(cfg, t, p, o, PaymentUnavailable, true);
      done, t := Step(cfg, s, done, t, Reread(p, true));
    }
    assert done == Settle(cfg, true, o.amount, n);
  }

  /** No payment yet: one row is stored, one event published if it is Authorized, and the order settles. */
  lemma SettleUnrecorded(cfg: Config, s: State, n: Names, o: T.Order, email: string) returns (t: State)
    requires n.proc in s.procs && s.procs[n.proc] == Calling(o, email) && n.call !in s.pay.calls && TrimSpace(email) != ""
    requires o.id in s.db.orders && o.id in s.db.history && s.db.orders[o.id] == o && o.amount > 0 && o.id != ""
    requires P.FindRow(s.pay.rows, o.id).None? && IsUuid(n.id) && n.id !in s.pay.used
    requires !P.Clashes(s.pay.rows, P.NewPayment(P.Input(o.id, o.amount, email), n.id, n.transactionId))
    ensures t == Exec(cfg, s, Settle(cfg, false, o.amount, n))
    ensures var row := P.NewPayment(P.Input(o.id, o.amount, email), n.id, n.transactionId);
      t.pay.rows == s.pay.rows + [row] &&
      t.pay.events == (if cfg.publisher && row.status.Authorized? then s.pay.events + [P.EventOf(row, email)] else s.pay.events)
    ensures n.proc in t.procs && o.id in t.db.orders &&
      t.db.orders[o.id] == o.(status := Outcome(o.amount)) && t.procs[n.proc] == Finished(Success(o.(status := Outcome(o.amount))))
  {
    hide Exec, Next, P.FindRow, TrimSpace, IsUuid, P.Next, P.Clashes, P.EventOf;
    var p, c, input := n.proc, n.call, P.Input(o.id, o.amount, email);
    var row := P.NewPayment(input, n.id, n.transactionId);
    var done: seq<Label> := [];
    ExecNothing(cfg, s);
    P.BeginStep(cfg.publisher, s.pay, c, input);
    P.CheckStep(cfg.publisher, s.pay, c, input, true);
    Steps.CallStep(cfg, s, p, o, email, Some(c));
    done, t := Step(cfg, s, done, s, Call(p, Some(c)));
    Steps.PayStep(cfg, t, P.Check(c, true));
    done, t := Step(cfg, s, done, t, Pay(P.Check(c, true)));
    Steps.PayStep(cfg, t, P.Save(c, n.id, n.transactionId, Applied));
    P.SaveStep(cfg.publisher, s.pay, c, input, n.id, n.transactionId, Applied);
    done, t := Step(cfg, s, done, t, Pay(P.Save(c, n.id, n.transactionId, Applied)));
    if cfg.publisher && row.status.Authorized? {
      P.PublishStep(cfg.publisher, P.Stored(s.pay, row), c, input, row, true, true);
      Steps.PayStep(cfg, t, P.Publish(c, true, true));
      done, t := Step(cfg, s, done, t, Pay(P.Publish(c, true, true)));
    }
    Steps.AnsweredStep(cfg, t, p, o, Some(c), None, Served(cfg.adapter, P.Success(row)));
    done, t := Step(cfg, s, done, t, Answered(p, None));
    assert t.procs[p] == Writing(o, Outcome(o.amount));
    WriteSettles(cfg, t, p, o, Outcome(o.amount));
    done, t := Step(cfg, s, done, t, Write(p, Applied));
    assert done == Settle(cfg, false, o.amount, n);
  }

  function Retry(cfg: Config, s: State, n: Names, input: Input, id: string): seq<Label>
    requires id in s.db.orders
  {
    Replay(n.proc, input) +
    if s.db.orders[id].status.Pending? then
      Settle(cfg, P.FindRow(s.pay.rows, id).Some?, s.db.orders[id].amount, n)
    else []
  }

  lemma OrderFacts(cfg: Config, s: State, id: string)
    requires G.Fits(cfg, s) && id in s.db.orders
    ensures id in s.db.history && s.db.orders[id].id == id && id != "" && s.db.orders[id].amount > 0
  {
    hide P.Fits, G.CallsMatch, G.ProcsFit, G.HistoriesFit, T.TxsFit, T.KeysFit;
    assert T.RowFits(s.db.used, id, s.db.orders[id], s.db.history[id]);
    UuidIsTrimmed(id);
  }

  lemma StoredAmountDecides(cfg: Config, s: State, id: string, row: P.Payment)
    requires G.Fits(cfg, s) && !cfg.open && P.FindRow(s.pay.rows, id) == Some(row)
    ensures id in s.db.orders && (if row.status.Authorized? then T.Paid else T.Failed) == Outcome(s.db.orders[id].amount)
  {
    hide T.Fits, G.ProcsFit, G.HistoriesFit, P.EventsFit, P.CallsFit, P.FindRow, IsUuid;
    assert P.AskedFor(s.pay, row.orderId, row.amount);
    var c :| c in s.pay.calls && s.pay.calls[c].input.orderId == row.orderId && s.pay.calls[c].input.amount == row.amount;
    assert G.CallMatches(s, c);
  }

  lemma LinkedOrder(cfg: Config, s: State, key: string)
    requires G.Fits(cfg, s) && key in s.db.keys
    ensures s.db.keys[key] in s.db.orders
  {
    hide P.Fits, G.CallsMatch, G.ProcsFit, G.HistoriesFit, T.TxsFit, T.OrdersFit;
  }

  /** What the retry leaves behind. */
  predicate Settled(cfg: Config, s: State, t: State, p: nat, o: T.Order) {
    var recorded := P.FindRow(s.pay.rows, o.id).Some?;
    o.id in t.db.orders && p in t.procs &&
    (recorded ==> t.pay.rows == s.pay.rows && t.pay.events == s.pay.events) &&
    |t.pay.rows| == |s.pay.rows| + (if o.status.Pending? && !recorded then 1 else 0) &&
    s.pay.events <= t.pay.events && |t.pay.events| <= |s.pay.events| + 1 &&
    (forall i :: |s.pay.events| <= i < |t.pay.events| ==> t.pay.events[i].orderId == o.id) &&
    if !o.status.Pending? then t.db.orders == s.db.orders && t.pay == s.pay && t.procs[p] == Finished(Success(o))
    else if cfg.adapter.Rest? || !recorded then
      t.db.orders[o.id] == o.(status := Outcome(o.amount)) && t.procs[p] == Finished(Success(t.db.orders[o.id]))
    else t.db.orders == s.db.orders && t.procs[p] == Finished(Failure(Some(o), PaymentUnavailable))
  }

  lemma NoClash(s: State, n: Names, o: T.Order, email: string)
    requires P.FindRow(s.pay.rows, o.id).None?
    requires forall row :: row in s.pay.rows ==> row.transactionId != n.transactionId && row.id != n.id
    ensures !P.Clashes(s.pay.rows, P.NewPayment(P.Input(o.id, o.amount, email), n.id, n.transactionId))
  {
    hide P.FindRow, P.StatusFor;
  }

  lemma SettlePending(cfg: Config, s: State, u: State, n: Names, o: T.Order, email: string) returns (t: State)
    requires G.Fits(cfg, s) && !cfg.open
    requires u.pay == s.pay && u.db.orders == s.db.orders && u.db.history == s.db.history
    requires n.proc in u.procs && u.procs[n.proc] == Calling(o, email) && n.call !in s.pay.calls
    requires TrimSpace(email) != "" && o.id in s.db.orders && s.db.orders[o.id] == o && o.status.Pending?
    requires IsUuid(n.id) && n.id !in s.pay.used
    requires forall row :: row in s.pay.rows ==> row.transactionId != n.transactionId && row.id != n.id
    ensures t == Exec(cfg, u, Settle(cfg, P.FindRow(s.pay.rows, o.id).Some?, o.amount, n))
    ensures Settled(cfg, s, t, n.proc, o)
  {
    hide Exec, G.Fits, P.FindRow, IsUuid, T.Fits, TrimSpace, Settle, Outcome, P.EventOf, P.Clashes;
    OrderFacts(cfg, s, o.id);
    match P.FindRow(s.pay.rows, o.id)
    case Some(row) =>
      StoredAmountDecides(cfg, s, o.id, row);
      t := SettleRecorded(cfg, u, n, o, email, row);
    case None =>
      NoClash(s, n, o, email);
      t := SettleUnrecorded(cfg, u, n, o, email);
      P.EventIsOf(P.NewPayment(P.Input(o.id, o.amount, email), n.id, n.transactionId), email);
  }

  /** The retry from a state, once the key's order is known: it returns a settled order. */
  lemma RetryReturns(cfg: Config, s: State, n: Names, input: Input, u: State, o: T.Order) returns (t: State)
    requires o.id in s.db.orders && s.db.orders[o.id] == o && !o.status.Pending? && u == Exec(cfg, s, Replay(n.proc, input))
    requires u.pay == s.pay && u.db.orders == s.db.orders && n.proc in u.procs && u.procs[n.proc] == Finished(Success(o))
    ensures t == Exec(cfg, s, Retry(cfg, s, n, input, o.id)) && Settled(cfg, s, t, n.proc, o)
  {
    hide Exec, P.FindRow, Settle, Settled, Replay;
    t := u;
    assert Replay(n.proc, input) + [] == Replay(n.proc, input);
    SettledAlready(cfg, s, t, n.proc, o);
  }

  /** And it goes on with a Pending one. */
  lemma RetryGoesOn(cfg: Config, s: State, n: Names, input: Input, u: State, o: T.Order) returns (t: State)
    requires input.key.Some? && G.Fits(cfg, s) && !cfg.open && Ready(cfg, s, n, input.key.value) && TrimSpace(TrimSpace(input.email)) != ""
    requires o.id in s.db.orders && s.db.orders[o.id] == o && o.status.Pending? && u == Exec(cfg, s, Replay(n.proc, input))
    requires u.pay == s.pay && u.db.orders == s.db.orders && u.db.history == s.db.history
    requires n.proc in u.procs && u.procs[n.proc] == Calling(o, TrimSpace(input.email))
    ensures t == Exec(cfg, s, Retry(cfg, s, n, input, o.id)) && Settled(cfg, s, t, n.proc, o)
  {
    hide Exec, G.Fits, P.FindRow, IsUuid, Settle, Settled, Replay, TrimSpace;
    ExecAppend(cfg, s, Replay(n.proc, input), Settle(cfg, P.FindRow(s.pay.rows, o.id).Some?, o.amount, n));
    t := SettlePending(cfg, s, u, n, o, TrimSpace(input.email));
  }

  /** In any reachable state, whatever failed before, one undisturbed retry with a linked key returns the linked order. A settled order
      is returned as it is. A Pending order settles by its stored amount, Paid up to 1000.00 and Failed above it, exactly
      when the adapter is REST or no payment is recorded yet; behind gRPC a recorded payment leaves it Pending.
      A recorded payment is never joined by a second one, and no second event is published for it. */
  lemma RetrySettles(cfg: Config, before: seq<Label>, n: Names, input: Input) returns (t: State)
    requires !cfg.open && ValidInput(input) && input.key.Some? && input.key.value != ""
    requires var s := Exec(cfg, Initial(), before); input.key.value in s.db.keys && Ready(cfg, s, n, input.key.value)
    ensures var s := Exec(cfg, Initial(), before);
      var id := s.db.keys[input.key.value];
      id in s.db.orders && t == Exec(cfg, s, Retry(cfg, s, n, input, id)) && Settled(cfg, s, t, n.proc, s.db.orders[id])
  {
    hide Exec, G.Fits, IsUuid, T.Fits, Settled, Replay, Retry, Ready, CanReplay;
    var s := Exec(cfg, Initial(), before);
    G.AlwaysFits(cfg, before);
    var id := s.db.keys[input.key.value];
    LinkedOrder(cfg, s, input.key.value);
    OrderFacts(cfg, s, id);
    var o := s.db.orders[id];
    DbIsFit(cfg, s);
    assert CanReplay(cfg, s, n.proc, input.key.value) by { ReadyReplays(cfg, s, n, input.key.value); }
    var u := ReplayFindsTheOrder(cfg, s, n.proc, input);
    TrimFixes(input.email);
    hide TrimSpace;
    if !o.status.Pending? {
      t := RetryReturns(cfg, s, n, input, u, o);
    } else {
      t := RetryGoesOn(cfg, s, n, input, u, o);
    }
  }

  lemma ReadyReplays(cfg: Config, s: State, n: Names, key: string)
    requires Ready(cfg, s, n, key)
    ensures CanReplay(cfg, s, n.proc, key)
  {
    hide CanReplay;
  }

  lemma SettledAlready(cfg: Config, s: State, t: State, p: nat, o: T.Order)
    requires !o.status.Pending? && o.id in t.db.orders && t.db.orders == s.db.orders && t.pay == s.pay
    requires p in t.procs && t.procs[p] == Finished(Success(o))
    ensures Settled(cfg, s, t, p, o)
  {
    hide P.FindRow;
  }

  lemma DbIsFit(cfg: Config, s: State)
    requires G.Fits(cfg, s)
    ensures T.Fits(cfg.hash, s.db)
  {
    hide T.Fits, P.Fits, G.CallsMatch, G.ProcsFit, G.HistoriesFit;
  }
}
