/** Runs of the saga, built label by label: two calls of one customer for one keyed order, and what their interleavings lead to. */
module SagaRuns {
  import opened Text
  import opened Writes
  import opened PaymentAdapter
  import opened CheckoutSaga
  import opened TransactionSteps
  import T = OrderTransactions
  import P = PaymentProtocol
  import G = SagaGuarantees
  import R = SagaRetry
  import Steps = SagaSteps

  function AnyUuid(): (id: string)
    ensures IsUuid(id)
  {
    seq(36, _ => 'a')
  }

  /** The publisher reports success only for an event that the broker has taken. */
  predicate Honest(l: Label) {
    l.Pay? && l.payLabel.Publish? && l.payLabel.confirmed ==> l.payLabel.accepted
  }

  predicate AllHonest(trace: seq<Label>) {
    forall i :: 0 <= i < |trace| ==> Honest(trace[i])
  }

  lemma Extend(cfg: Config, trace: seq<Label>, s: State, l: Label) returns (trace': seq<Label>, s': State)
    requires s == Exec(cfg, Initial(), trace)
    ensures trace' == trace + [l] && s' == Exec(cfg, Initial(), trace') && s' == Next(cfg, s, l)
    ensures AllHonest(trace) && Honest(l) ==> AllHonest(trace')
  {
    trace', s' := trace + [l], Next(cfg, s, l);
    ExecStep(cfg, Initial(), trace, l);
  }

  lemma ExtendDb(cfg: Config, trace: seq<Label>, s: State, l: T.Label, db: T.State) returns (trace': seq<Label>, s': State)
    requires s == Exec(cfg, Initial(), trace) && !l.Begin? && !l.UpdateStatus? && db == T.Next(cfg.hash, s.db, l)
    ensures AllHonest(trace) ==> AllHonest(trace')
    ensures trace' == trace + [Db(l)] && s' == Exec(cfg, Initial(), trace') && s' == s.(db := db)
  {
    hide Exec, Next, T.Next;
    Steps.DbStep(cfg, s, l);
    trace', s' := Extend(cfg, trace, s, Db(l));
  }

  lemma ExtendPay(cfg: Config, trace: seq<Label>, s: State, l: P.Label, pay: P.State) returns (trace': seq<Label>, s': State)
    requires s == Exec(cfg, Initial(), trace) && !l.Begin? && pay == P.Next(cfg.publisher, s.pay, l)
    ensures AllHonest(trace) && Honest(Pay(l)) ==> AllHonest(trace')
    ensures trace' == trace + [Pay(l)] && s' == Exec(cfg, Initial(), trace') && s' == s.(pay := pay)
  {
    hide Exec, Next, P.Next;
    Steps.PayStep(cfg, s, l);
    trace', s' := Extend(cfg, trace, s, Pay(l));
  }

  // ----- One order, two callers -----------------------------------------------------------------

  function TheInput(): Input {
    Input("a", "a", "a", 5, Some("k"))
  }

  function TheRequest(): T.Request {
    T.Request(Some("k"), "a", "a", 5)
  }

  function TheOrder(id: string): T.Order {
    T.Order(id, "a", "a", 5, T.Pending, 0)
  }

  lemma InputIsValid()
    ensures ValidInput(TheInput()) && RequestOf(TheInput()) == TheRequest() && TrimSpace(TheInput().email) == "a"
  {
    TrimFixes("a");
    hide TrimSpace;
  }

  /** The transaction of process 0 up to its commit. */
  lemma PlaceOrder(cfg: Config, id: string) returns (trace: seq<Label>, s: State)
    requires IsUuid(id)
    ensures s == Exec(cfg, Initial(), trace) && AllHonest(trace)
    ensures s.pay == P.Initial() && s.procs == map[0 := Storing("a")]
    ensures s.db == During(T.Committed(T.Initial(), TheRequest(), TheOrder(id)), 0, T.Returned(TheRequest(), TheOrder(id)), map[], {id})
  {
    hide Exec, Next, T.Next, TrimSpace, IsUuid, T.Committed, LocksOf, ValidInput, RequestOf, T.Fits;
    var req, o, db := TheRequest(), TheOrder(id), T.Initial();
    var locks := LocksOf(cfg.hash, 0, req);
    InputIsValid();
    trace, s := [], Initial();
    assert AllHonest(trace);
    ExecNothing(cfg, s);
    Steps.CreateStep(cfg, s, 0, TheInput());
    BeginStep(cfg.hash, db, 0, req);
    trace, s := Extend(cfg, trace, s, Create(0, TheInput()));
    assert s.procs == map[0 := Storing("a")];
    LockStep(cfg.hash, db, 0, req);
    trace, s := ExtendDb(cfg, trace, s, T.Lock(0), During(db, 0, T.Locked(req), locks, {}));
    LookUpStep(cfg.hash, db, 0, req, locks);
    trace, s := ExtendDb(cfg, trace, s, T.LookUp(0), During(db, 0, T.Unlinked(req), locks, {}));
    InsertOrderStep(cfg.hash, db, 0, req, id, 0, locks);
    trace, s := ExtendDb(cfg, trace, s, T.InsertOrder(0, id, 0), During(db, 0, T.Inserted(req, o), locks, {} + {id}));
    FitsNow(cfg, trace, s);
    InsertKeyStep(cfg.hash, db, 0, req, o, locks, {} + {id});
    trace, s := ExtendDb(cfg, trace, s, T.InsertKey(0), During(db, 0, T.Complete(req, o), locks, {} + {id}));
    NewCommitStep(cfg.hash, db, 0, req, o, {} + {id}, Applied);
    trace, s := ExtendDb(cfg, trace, s, T.Commit(0, Applied),
                         During(T.Committed(db, req, o), 0, T.Returned(req, o), map[], {} + {id}));
    assert {} + {id} == {id};
  }

  lemma FitsNow(cfg: Config, trace: seq<Label>, s: State)
    requires s == Exec(cfg, Initial(), trace)
    ensures T.Fits(cfg.hash, s.db)
  {
    hide Exec, G.Fits, T.Fits;
    G.AlwaysFits(cfg, trace);
    R.DbIsFit(cfg, s);
  }

  /** Two processes hold the same Pending order and are about to call the payment service for it. */
  predicate BothCalling(s: State, id: string) {
    s.procs == map[0 := Calling(TheOrder(id), "a"), 1 := Calling(TheOrder(id), "a")] && s.pay == P.Initial() &&
    s.db.orders == map[id := TheOrder(id)] && s.db.history == map[id := [T.Pending]] && s.db.txs.Keys == {0, 1}
  }

  /** The key leads to the order, and its lock is free. */
  predicate Linked(cfg: Config, s: State, id: string) {
    "k" in s.db.keys && s.db.keys["k"] == id && cfg.hash("k") !in s.db.locks
  }

  lemma PlaceForTwo(cfg: Config, id: string) returns (trace: seq<Label>, s: State)
    requires IsUuid(id)
    ensures s == Exec(cfg, Initial(), trace) && AllHonest(trace) && BothCalling(s, id) && Linked(cfg, s, id)
  {
    hide Exec, Next, T.Next, TrimSpace, IsUuid, ValidInput, RequestOf, T.Fits;
    InputIsValid();
    trace, s := PlaceOrder(cfg, id);
    Steps.StoredStep(cfg, s, 0, "a");
    trace, s := Extend(cfg, trace, s, Stored(0));
    FitsNow(cfg, trace, s);
    var t := R.ReplayFindsTheOrder(cfg, s, 1, TheInput());
    ExecAppend(cfg, Initial(), trace, R.Replay(1, TheInput()));
    assert t.procs == map[0 := Calling(TheOrder(id), "a"), 1 := Calling(TheOrder(id), "a")];
    assert t.db.orders == map[id := TheOrder(id)];
    assert t.db.history == map[id := [T.Pending]];
    assert t.db.txs.Keys == {0, 1};
    trace, s := trace + R.Replay(1, TheInput()), t;
  }

  // ----- The first caller is authorized ---------------------------------------------------------

  function TheCall(id: string): P.Input {
    P.Input(id, 5, "a")
  }

  function TheRow(id: string): P.Payment {
    P.Payment(id, id, "t", 5, P.Authorized)
  }

  lemma RowIsNew(id: string)
    ensures P.NewPayment(TheCall(id), id, "t") == TheRow(id)
    ensures P.FindRow([], id).None? && !P.Clashes([], TheRow(id)) && P.FindRow([TheRow(id)], id) == Some(TheRow(id))
  {
    assert [TheRow(id)][..0] == [];
  }

  /** The payment service after it has stored and, if it can, published the first payment. */
  function Authorized(cfg: Config, id: string): P.State {
    var stored := P.Stored(P.Initial(), TheRow(id));
    P.Asked(if cfg.publisher then P.Sent(stored, TheRow(id), "a", true) else stored, 0, TheCall(id), P.Finished(P.Success(TheRow(id))))
  }

  /** Process 0 asks, and its call is served up to the save. */
  lemma StoreFirst(cfg: Config, id: string, before: seq<Label>, s0: State) returns (trace: seq<Label>, s: State)
    requires IsUuid(id) && s0 == Exec(cfg, Initial(), before) && s0.pay == P.Initial()
    requires 0 in s0.procs && s0.procs[0] == Calling(TheOrder(id), "a")
    ensures AllHonest(before) ==> AllHonest(trace)
    ensures s == Exec(cfg, Initial(), trace) && s.db == s0.db && s.procs == s0.procs[0 := Awaiting(TheOrder(id), Some(0))]
    ensures s.pay == P.Asked(P.Stored(P.Initial(), TheRow(id)), 0, TheCall(id),
                             if cfg.publisher then P.Publishing(TheRow(id)) else P.Finished(P.Success(TheRow(id))))
  {
    hide Exec, AllHonest, Next, P.Next, IsUuid, P.FindRow, P.Clashes, P.NewPayment;
    var pay, c := P.Initial(), TheCall(id);
    TrimFixes("a");
    hide TrimSpace;
    UuidIsTrimmed(id);
    RowIsNew(id);
    Steps.CallStep(cfg, s0, 0, TheOrder(id), "a", Some(0));
    P.BeginStep(cfg.publisher, pay, 0, c);
    trace, s := Extend(cfg, before, s0, Call(0, Some(0)));
    P.CheckStep(cfg.publisher, pay, 0, c, true);
    trace, s := ExtendPay(cfg, trace, s, P.Check(0, true), P.Asked(pay, 0, c, P.Saving));
    P.SaveStep(cfg.publisher, pay, 0, c, id, "t", Applied);
    trace, s := ExtendPay(cfg, trace, s, P.Save(0, id, "t", Applied),
                          P.Asked(P.Stored(pay, TheRow(id)), 0, c, P.StageAfterSave(cfg.publisher, c, TheRow(id))));
  }

  lemma AuthorizeFirst(cfg: Config, id: string, before: seq<Label>, s0: State) returns (trace: seq<Label>, s: State)
    requires IsUuid(id) && s0 == Exec(cfg, Initial(), before) && s0.pay == P.Initial()
    requires 0 in s0.procs && s0.procs[0] == Calling(TheOrder(id), "a")
    ensures AllHonest(before) ==> AllHonest(trace)
    ensures s == Exec(cfg, Initial(), trace)
    ensures s == State(s0.db, Authorized(cfg, id), s0.procs[0 := Awaiting(TheOrder(id), Some(0))])
  {
    hide Exec, AllHonest, Next, P.Next, IsUuid, TrimSpace;
    trace, s := StoreFirst(cfg, id, before, s0);
    if cfg.publisher {
      P.PublishStep(cfg.publisher, P.Stored(P.Initial(), TheRow(id)), 0, TheCall(id), TheRow(id), true, true);
      trace, s := ExtendPay(cfg, trace, s, P.Publish(0, true, true), Authorized(cfg, id));
    }
  }

  /** Nothing in the orders database but the orders themselves. */
  predicate OnlyWritten(s: State, t: State) {
    t.db == s.db.(orders := t.db.orders, history := t.db.history) && t.procs.Keys == s.procs.Keys
  }

  /** A status written by process p, while the order is stored with this history. */
  lemma WriteOne(cfg: Config, before: seq<Label>, s0: State, p: nat, id: string, status: T.OrderStatus, l: Label) returns (trace: seq<Label>, s: State)
    requires s0 == Exec(cfg, Initial(), before) && p in s0.procs && id in s0.db.orders && id in s0.db.history
    requires (l == Write(p, Applied) && s0.procs[p] == Writing(TheOrder(id), status)) ||
             (l == WriteFailed(p, Applied) && s0.procs[p] == Failing(TheOrder(id)) && status.Failed?) ||
             (l == CancelWrite(p, Applied) && s0.procs[p] == CancelWriting(TheOrder(id)) && status.Cancelled?)
    ensures AllHonest(before) ==> AllHonest(trace)
    ensures s == Exec(cfg, Initial(), trace) && s.pay == s0.pay && OnlyWritten(s0, s)
    ensures id in s.db.orders && id in s.db.history && s.db.history[id] == s0.db.history[id] + [status]
    ensures s.procs.Keys == s0.procs.Keys && forall q :: q in s0.procs && q != p ==> s.procs[q] == s0.procs[q]
  {
    hide Exec, AllHonest;
    trace, s := Extend(cfg, before, s0, l);
  }

  /** Process 0 reads its authorized answer and writes Paid; the second caller is still where it was. */
  lemma PayFirst(cfg: Config, id: string, before: seq<Label>, s0: State) returns (trace: seq<Label>, s: State)
    requires IsUuid(id) && s0 == Exec(cfg, Initial(), before) && s0.pay == P.Initial()
    requires 0 in s0.procs && s0.procs[0] == Calling(TheOrder(id), "a") && id in s0.db.orders && id in s0.db.history
    ensures AllHonest(before) ==> AllHonest(trace)
    ensures s == Exec(cfg, Initial(), trace) && s.pay == Authorized(cfg, id)
    ensures id in s.db.orders && id in s.db.history && s.db.history[id] == s0.db.history[id] + [T.Paid]
    ensures s.procs.Keys == s0.procs.Keys && forall q :: q in s0.procs && q != 0 ==> s.procs[q] == s0.procs[q]
  {
    hide Exec, AllHonest, Next, IsUuid;
    trace, s := AuthorizeFirst(cfg, id, before, s0);
    Steps.AnsweredStep(cfg, s, 0, TheOrder(id), Some(0), None, Served(cfg.adapter, P.Success(TheRow(id))));
    trace, s := Extend(cfg, trace, s, Answered(0, None));
    trace, s := WriteOne(cfg, trace, s, 0, id, T.Paid, Write(0, Applied));
  }

  // ----- The second caller ----------------------------------------------------------------------

  /** Process 1 asks for the order whose payment is recorded: behind REST it goes on to the query. */
  lemma AskAgain(cfg: Config, id: string, before: seq<Label>, s0: State, pay: P.State) returns (trace: seq<Label>, s: State)
    requires cfg.adapter.Rest? && IsUuid(id) && s0 == Exec(cfg, Initial(), before) && s0.pay == pay
    requires pay.rows == [TheRow(id)] && 1 !in pay.calls
    requires 1 in s0.procs && s0.procs[1] == Calling(TheOrder(id), "a")
    ensures AllHonest(before) ==> AllHonest(trace)
    ensures s == Exec(cfg, Initial(), trace) && s.db == s0.db && s.procs == s0.procs[1 := Querying(TheOrder(id))]
    ensures s.pay == P.Asked(pay, 1, TheCall(id), P.Finished(P.Refused(P.AlreadyExists)))
  {
    hide Exec, AllHonest, Next, P.Next, IsUuid, P.FindRow, TrimSpace;
    UuidIsTrimmed(id);
    RowIsNew(id);
    Steps.CallStep(cfg, s0, 1, TheOrder(id), "a", Some(1));
    P.BeginStep(cfg.publisher, pay, 1, TheCall(id));
    trace, s := Extend(cfg, before, s0, Call(1, Some(1)));
    P.CheckStep(cfg.publisher, pay, 1, TheCall(id), true);
    trace, s := ExtendPay(cfg, trace, s, P.Check(1, true), P.Asked(pay, 1, TheCall(id), P.Finished(P.Refused(P.AlreadyExists))));
    Steps.AnsweredStep(cfg, s, 1, TheOrder(id), Some(1), None, Served(cfg.adapter, P.Refused(P.AlreadyExists)));
    trace, s := Extend(cfg, trace, s, Answered(1, None));
  }

  // ----- What it can come to --------------------------------------------------------------------

  /** A request of process 1 is lost, and its caller gets this reply instead. */
  lemma Misread(cfg: Config, id: string, before: seq<Label>, s0: State, r: Reply) returns (trace: seq<Label>, s: State)
    requires G.FailsOnAuthorize(cfg, r) && s0 == Exec(cfg, Initial(), before)
    requires 1 in s0.procs && s0.procs[1] == Awaiting(TheOrder(id), None) && id in s0.db.orders && id in s0.db.history
    ensures s == Exec(cfg, Initial(), trace) && s.pay == s0.pay && OnlyWritten(s0, s)
    ensures id in s.db.history && s.db.history[id] == s0.db.history[id] + [T.Failed]
  {
    hide Exec, Next, AllHonest, Authorize;
    Steps.AnsweredStep(cfg, s0, 1, TheOrder(id), None, Some(r), r);
    trace, s := Extend(cfg, before, s0, Answered(1, Some(r)));
    if Authorize(r).OtherError? {
      trace, s := WriteOne(cfg, trace, s, 1, id, T.Failed, WriteFailed(1, Applied));
    } else {
      trace, s := WriteOne(cfg, trace, s, 1, id, T.Failed, Write(1, Applied));
    }
  }

  /** The recorded payment's status comes back unknown. */
  lemma MisreadStatus(cfg: Config, id: string, before: seq<Label>, s0: State, r: Reply) returns (trace: seq<Label>, s: State)
    requires G.FailsOnGetStatus(cfg, r) && s0 == Exec(cfg, Initial(), before)
    requires 1 in s0.procs && s0.procs[1] == Querying(TheOrder(id)) && id in s0.db.orders && id in s0.db.history
    ensures s == Exec(cfg, Initial(), trace) && s.pay == s0.pay && OnlyWritten(s0, s)
    ensures id in s.db.history && s.db.history[id] == s0.db.history[id] + [T.Failed]
  {
    hide Exec, Next, AllHonest, GetStatus;
    Steps.QueriedStep(cfg, s0, 1, TheOrder(id), Some(r), r);
    trace, s := Extend(cfg, before, s0, Queried(1, Some(r)));
    trace, s := WriteOne(cfg, trace, s, 1, id, T.Failed, Write(1, Applied));
  }

  /** A reply to Authorize that claims nothing marks an order Failed for which no payment was ever asked. */
  lemma MisreadingFailsUnrecorded(cfg: Config, r: Reply) returns (trace: seq<Label>, id: string)
    requires G.FailsOnAuthorize(cfg, r)
    ensures var s := Exec(cfg, Initial(), trace);
      id in s.db.history && s.db.history[id] == [T.Pending, T.Failed] && s.pay.rows == [] && s.pay.calls == map[]
  {
    hide Exec, Next, AllHonest, IsUuid, G.FailsOnAuthorize;
    id := AnyUuid();
    var s;
    trace, s := PlaceForTwo(cfg, id);
    Steps.CallStep(cfg, s, 1, TheOrder(id), "a", None);
    trace, s := Extend(cfg, trace, s, Call(1, None));
    trace, s := Misread(cfg, id, trace, s, r);
    assert [T.Pending] + [T.Failed] == [T.Pending, T.Failed];
  }

  /** Any such reply, to Authorize or to the query, can mark an order Failed whose payment is authorized, stored and, with a
      publisher, on its way to a receipt. */
  lemma MisreadingFailsAuthorized(cfg: Config, r: Reply) returns (trace: seq<Label>, id: string)
    requires G.FailsOnAuthorize(cfg, r) || G.FailsOnGetStatus(cfg, r)
    ensures var s := Exec(cfg, Initial(), trace);
      id in s.db.history && s.db.history[id] == [T.Pending, T.Failed] &&
      s.pay.rows == [TheRow(id)] && (cfg.publisher ==> s.pay.events == [P.EventOf(TheRow(id), "a")]) &&
      Linked(cfg, s, id) && 2 !in s.procs && 2 !in s.db.txs
  {
    hide Exec, Next, AllHonest, IsUuid, P.EventOf;
    id := AnyUuid();
    var s;
    trace, s := PlaceForTwo(cfg, id);
    if G.FailsOnAuthorize(cfg, r) {
      hide G.FailsOnAuthorize;
      Steps.CallStep(cfg, s, 1, TheOrder(id), "a", None);
      trace, s := Extend(cfg, trace, s, Call(1, None));
      trace, s := AuthorizeFirst(cfg, id, trace, s);
      trace, s := Misread(cfg, id, trace, s, r);
    } else {
      trace, s := AuthorizeFirst(cfg, id, trace, s);
      trace, s := AskAgain(cfg, id, trace, s, Authorized(cfg, id));
      trace, s := MisreadStatus(cfg, id, trace, s, r);
    }
    assert [T.Pending] + [T.Failed] == [T.Pending, T.Failed];
  }

  /** And it can overwrite Paid. */
  lemma MisreadingOverwritesPaid(cfg: Config, r: Reply) returns (trace: seq<Label>, id: string)
    requires G.FailsOnAuthorize(cfg, r) || G.FailsOnGetStatus(cfg, r)
    ensures var s := Exec(cfg, Initial(), trace);
      id in s.db.history && s.db.history[id] == [T.Pending, T.Paid, T.Failed] && s.pay.rows == [TheRow(id)]
  {
    hide Exec, Next, AllHonest, IsUuid, P.EventOf;
    id := AnyUuid();
    var s;
    trace, s := PlaceForTwo(cfg, id);
    if G.FailsOnAuthorize(cfg, r) {
      hide G.FailsOnAuthorize;
      Steps.CallStep(cfg, s, 1, TheOrder(id), "a", None);
      trace, s := Extend(cfg, trace, s, Call(1, None));
      trace, s := PayFirst(cfg, id, trace, s);
      trace, s := Misread(cfg, id, trace, s, r);
    } else {
      trace, s := PayFirst(cfg, id, trace, s);
      trace, s := AskAgain(cfg, id, trace, s, Authorized(cfg, id));
      trace, s := MisreadStatus(cfg, id, trace, s, r);
    }
    assert [T.Pending] + [T.Paid] + [T.Failed] == [T.Pending, T.Paid, T.Failed];
  }

  /** A cancel that has read Pending overwrites Paid. */
  lemma CancelOverwritesPaid(cfg: Config) returns (trace: seq<Label>, id: string)
    ensures var s := Exec(cfg, Initial(), trace);
      id in s.db.history && s.db.history[id] == [T.Pending, T.Paid, T.Cancelled] && s.pay.rows == [TheRow(id)]
  {
    hide Exec, Next, AllHonest, IsUuid, P.EventOf;
    id := AnyUuid();
    var s;
    trace, s := PlaceForTwo(cfg, id);
    Steps.CancelStep(cfg, s, 2, id);
    trace, s := Extend(cfg, trace, s, Cancel(2, id));
    Steps.CancelReadStep(cfg, s, 2, id, true);
    trace, s := Extend(cfg, trace, s, CancelRead(2, true));
    trace, s := PayFirst(cfg, id, trace, s);
    trace, s := WriteOne(cfg, trace, s, 2, id, T.Cancelled, CancelWrite(2, Applied));
    assert [T.Pending] + [T.Paid] + [T.Cancelled] == [T.Pending, T.Paid, T.Cancelled];
  }

  /** The broker refuses the event of a stored payment; the second caller meets the payment and reconciles to Paid. Without
      a publisher the first caller does. */
  lemma PaidUnpublished(cfg: Config) returns (trace: seq<Label>, id: string)
    requires cfg.adapter.Rest? || !cfg.publisher
    ensures AllHonest(trace)
    ensures var s := Exec(cfg, Initial(), trace);
      id in s.db.history && s.db.history[id] == [T.Pending, T.Paid] && s.pay.events == []
  {
    hide Exec, Next, P.Next, AllHonest, IsUuid, P.EventOf;
    id := AnyUuid();
    var s;
    trace, s := PlaceForTwo(cfg, id);
    if cfg.publisher {
      trace, s := StoreFirst(cfg, id, trace, s);
      var stored := P.Stored(P.Initial(), TheRow(id));
      var refused := P.Asked(P.Sent(stored, TheRow(id), "a", false), 0, TheCall(id), P.Finished(P.Refused(P.Internal)));
      P.PublishStep(true, stored, 0, TheCall(id), TheRow(id), false, false);
      trace, s := ExtendPay(cfg, trace, s, P.Publish(0, false, false), refused);
      trace, s := AskAgain(cfg, id, trace, s, refused);
      RowIsNew(id);
      hide P.FindRow;
      Steps.QueriedStep(cfg, s, 1, TheOrder(id), None, Http(HttpGet(Some(TheRow(id)))));
      trace, s := Extend(cfg, trace, s, Queried(1, None));
      trace, s := WriteOne(cfg, trace, s, 1, id, T.Paid, Write(1, Applied));
    } else {
      trace, s := PayFirst(cfg, id, trace, s);
    }
    assert [T.Pending] + [T.Paid] == [T.Pending, T.Paid];
  }
}
