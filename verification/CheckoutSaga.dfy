/** The order service's use cases over the two databases as a step system: any number of CreateOrder and CancelOrder calls,
    each repository statement and each call of the payment service a step of its own, together with the steps of
    the transactions and of the payment service. */
module CheckoutSaga {
  import opened Text
  import opened Writes
  import opened PaymentAdapter
  import T = OrderTransactions
  import P = PaymentProtocol

  /** `open` lets anyone call the payment service directly; `faults` are the replies that may arrive
      instead of the payment service's own. */
  datatype Config = Config(hash: string -> int, publisher: bool, adapter: Adapter, faults: set<Reply>, open: bool)

  datatype Input = Input(customer: string, email: string, item: string, amount: int, key: Option<string>)

  datatype Error = InvalidInput | StoreError | PaymentUnavailable | PaymentError | RecordMissing | OrderNotFound | CancelNotAllowed | Crashed

  datatype Outcome = Success(order: T.Order) | Failure(attached: Option<T.Order>, error: Error)

  datatype Proc =
    | Storing(email: string)                                      // in the transaction with the same number
    | Calling(order: T.Order, email: string)                      // about to call Authorize
    | Awaiting(order: T.Order, call: Option<nat>)
    | Querying(order: T.Order)                                    // about to call GetStatus
    | Writing(order: T.Order, status: T.OrderStatus)              // about to write what the payment service said
    | Failing(order: T.Order)                                     // about to write Failed after a generic error
    | Rereading(order: T.Order, error: Error)                     // about to read the order to return with the error
    | Cancelling(id: string)
    | CancelWriting(order: T.Order)
    | Finished(outcome: Outcome)

  datatype State = State(db: T.State, pay: P.State, procs: map<nat, Proc>)

  datatype Label =
    | Create(proc: nat, input: Input)
    | Db(dbLabel: T.Label)
    | Stored(proc: nat)
    | Call(proc: nat, call: Option<nat>)                          // None: the request is lost
    | Pay(payLabel: P.Label)
    | Answered(proc: nat, fault: Option<Reply>)                   // None: the payment service's own reply
    | Queried(proc: nat, fault: Option<Reply>)
    | Write(proc: nat, outcome: WriteOutcome)
    | WriteFailed(proc: nat, outcome: WriteOutcome)
    | Reread(proc: nat, ok: bool)
    | Cancel(proc: nat, id: string)
    | CancelRead(proc: nat, ok: bool)
    | CancelWrite(proc: nat, outcome: WriteOutcome)
    | Crash(proc: nat)

  function Initial(): State {
    State(T.Initial(), P.Initial(), map[])
  }

  function Go(s: State, p: nat, proc: Proc): State {
    s.(procs := s.procs[p := proc])
  }

  predicate ValidInput(input: Input) {
    input.amount > 0 && TrimSpace(input.customer) != "" && TrimSpace(input.item) != "" && TrimSpace(input.email) != ""
  }

  function RequestOf(input: Input): T.Request {
    T.Request(input.key, TrimSpace(input.customer), TrimSpace(input.item), input.amount)
  }

  function OnCreate(cfg: Config, s: State, p: nat, input: Input): State {
    if p in s.procs || p in s.db.txs then s
    else if !ValidInput(input) then Go(s, p, Finished(Failure(None, InvalidInput)))
    else Go(s.(db := T.Next(cfg.hash, s.db, T.Begin(p, RequestOf(input)))), p, Storing(TrimSpace(input.email)))
  }

  /** Only a Pending order goes on to payment. */
  function OnStored(s: State, p: nat, email: string): State {
    if p !in s.db.txs then s
    else match s.db.txs[p]
      case Returned(_, o) => Go(s, p, if o.status.Pending? then Calling(o, email) else Finished(Success(o)))
      case Aborted(_) => Go(s, p, Finished(Failure(None, StoreError)))
      case KeyClash(_) => Go(s, p, Finished(Failure(None, StoreError)))
      case _ => s
  }

  function OnCall(cfg: Config, s: State, p: nat, order: T.Order, email: string, call: Option<nat>): State {
    match call
    case None => Go(s, p, Awaiting(order, None))
    case Some(c) =>
      if c in s.pay.calls then s
      else Go(s.(pay := P.Next(cfg.publisher, s.pay, P.Begin(c, P.Input(order.id, order.amount, email)))), p, Awaiting(order, call))
  }

  function StatusToWrite(text: string): T.OrderStatus {
    if text == "Authorized" then T.Paid else T.Failed
  }

  function AfterAuthorize(order: T.Order, a: Answer): Proc {
    match a
    case Status(text) => Writing(order, StatusToWrite(text))
    case InvalidArgument => Finished(Failure(None, InvalidInput))
    case AlreadyRecorded => Querying(order)
    case Unavailable => Rereading(order, PaymentUnavailable)
    case NotFound => Failing(order)
    case OtherError => Failing(order)
  }

  function AfterGetStatus(order: T.Order, a: Answer): Proc {
    match a
    case Status(text) => Writing(order, StatusToWrite(text))
    case NotFound => Finished(Failure(None, RecordMissing))
    case Unavailable => Rereading(order, PaymentUnavailable)
    case _ => Finished(Failure(None, PaymentError))
  }

  predicate DisturbsAuthorize(cfg: Config, fault: Reply) {
    fault in cfg.faults && NoiseOnAuthorize(cfg.adapter, fault)
  }

  predicate DisturbsGetStatus(cfg: Config, fault: Reply) {
    fault in cfg.faults && NoiseOnGetStatus(cfg.adapter, fault)
  }

  function OnAnswered(cfg: Config, s: State, p: nat, order: T.Order, call: Option<nat>, fault: Option<Reply>): State {
    match fault
    case Some(r) => if DisturbsAuthorize(cfg, r) then Go(s, p, AfterAuthorize(order, Authorize(r))) else s
    case None =>
      if call.Some? && call.value in s.pay.calls && s.pay.calls[call.value].stage.Finished? then
        Go(s, p, AfterAuthorize(order, Authorize(Served(cfg.adapter, s.pay.calls[call.value].stage.outcome))))
      else s
  }

  function OnQueried(cfg: Config, s: State, p: nat, order: T.Order, fault: Option<Reply>): State {
    match fault
    case Some(r) => if DisturbsGetStatus(cfg, r) then Go(s, p, AfterGetStatus(order, GetStatus(r))) else s
    case None => Go(s, p, AfterGetStatus(order, GetStatus(Http(HttpGet(P.FindRow(s.pay.rows, order.id))))))
  }

  /** UpdateStatus: unconditional. */
  function SetStatus(s: State, id: string, status: T.OrderStatus, outcome: WriteOutcome): State {
    if outcome.Rejected? then s else s.(db := T.OnUpdateStatus(s.db, id, status))
  }

  predicate Told(s: State, id: string, outcome: WriteOutcome) {
    outcome.Applied? && id in s.db.orders
  }

  function OnWrite(s: State, p: nat, order: T.Order, status: T.OrderStatus, outcome: WriteOutcome): State {
    Go(SetStatus(s, order.id, status, outcome), p,
       Finished(if Told(s, order.id, outcome) then Success(order.(status := status)) else Failure(None, StoreError)))
  }

  /** After a generic error the result of the write is ignored. */
  function OnWriteFailed(s: State, p: nat, order: T.Order, outcome: WriteOutcome): State {
    Go(SetStatus(s, order.id, T.Failed, outcome), p, Rereading(order.(status := T.Failed), PaymentError))
  }

  function OnReread(s: State, p: nat, order: T.Order, error: Error, ok: bool): State {
    var current := if ok && order.id in s.db.orders then s.db.orders[order.id] else order;
    Go(s, p, Finished(Failure(Some(current), error)))
  }

  function OnCancelRead(s: State, p: nat, id: string, ok: bool): State {
    Go(s, p,
       if !ok then Finished(Failure(None, StoreError))
       else if id !in s.db.orders then Finished(Failure(None, OrderNotFound))
       else if !s.db.orders[id].status.Pending? then Finished(Failure(None, CancelNotAllowed))
       else CancelWriting(s.db.orders[id]))
  }

  function OnCancelWrite(s: State, p: nat, order: T.Order, outcome: WriteOutcome): State {
    Go(SetStatus(s, order.id, T.Cancelled, outcome), p,
       Finished(if Told(s, order.id, outcome) then Success(order.(status := T.Cancelled)) else Failure(None, StoreError)))
  }

  /** The process dies; the database rolls its transaction back. */
  function OnCrash(cfg: Config, s: State, p: nat): State {
    Go(s.(db := T.Next(cfg.hash, s.db, T.Abort(p))), p, Finished(Failure(None, Crashed)))
  }

  function ProcStep(cfg: Config, s: State, p: nat, proc: Proc, l: Label): State {
    match proc
    case Storing(email) => if l.Stored? then OnStored(s, p, email) else s
    case Calling(order, email) => if l.Call? then OnCall(cfg, s, p, order, email, l.call) else s
    case Awaiting(order, call) => if l.Answered? then OnAnswered(cfg, s, p, order, call, l.fault) else s
    case Querying(order) => if l.Queried? then OnQueried(cfg, s, p, order, l.fault) else s
    case Writing(order, status) => if l.Write? then OnWrite(s, p, order, status, l.outcome) else s
    case Failing(order) => if l.WriteFailed? then OnWriteFailed(s, p, order, l.outcome) else s
    case Rereading(order, error) => if l.Reread? then OnReread(s, p, order, error, l.ok) else s
    case Cancelling(id) => if l.CancelRead? then OnCancelRead(s, p, id, l.ok) else s
    case CancelWriting(order) => if l.CancelWrite? then OnCancelWrite(s, p, order, l.outcome) else s
    case Finished(_) => s
  }

  function Next(cfg: Config, s: State, l: Label): State {
    match l
    case Create(p, input) => OnCreate(cfg, s, p, input)
    case Cancel(p, id) => if p in s.procs || p in s.db.txs then s else Go(s, p, Cancelling(id))
    case Db(d) => if d.Begin? || d.UpdateStatus? then s else s.(db := T.Next(cfg.hash, s.db, d))
    case Pay(q) => if q.Begin? && !cfg.open then s else s.(pay := P.Next(cfg.publisher, s.pay, q))
    case Crash(p) => if p in s.procs && !s.procs[p].Finished? then OnCrash(cfg, s, p) else s
    case _ => if l.proc in s.procs then ProcStep(cfg, s, l.proc, s.procs[l.proc], l) else s
  }

  function Exec(cfg: Config, s: State, trace: seq<Label>): State {
    if trace == [] then s
    else Next(cfg, Exec(cfg, s, trace[..|trace| - 1]), trace[|trace| - 1])
  }

  lemma ExecStep(cfg: Config, s: State, trace: seq<Label>, l: Label)
    ensures Exec(cfg, s, trace + [l]) == Next(cfg, Exec(cfg, s, trace), l)
  {
    assert (trace + [l])[..|trace|] == trace;
  }

  lemma ExecNothing(cfg: Config, s: State)
    ensures Exec(cfg, s, []) == s
  {
  }

  lemma {:induction false} ExecAppend(cfg: Config, s: State, a: seq<Label>, b: seq<Label>)
    ensures Exec(cfg, s, a + b) == Exec(cfg, Exec(cfg, s, a), b)
    decreases |b|
  {
    hide Next;
    if b == [] {
      assert a + b == a;
    } else {
      var c := b[..|b| - 1];
      ExecAppend(cfg, s, a, c);
      assert a + b == (a + c) + [b[|b| - 1]];
      ExecStep(cfg, s, a + c, b[|b| - 1]);
    }
  }
}
