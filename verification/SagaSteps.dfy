/** The steps of the checkout saga, one equation each, and runs of several of them. */
module SagaSteps {
  import opened Text
  import opened Writes
  import opened PaymentAdapter
  import opened CheckoutSaga
  import T = OrderTransactions
  import P = PaymentProtocol

  function DbLabels(steps: seq<T.Label>): (r: seq<Label>)
    ensures |r| == |steps|
  {
    if steps == [] then [] else DbLabels(steps[..|steps| - 1]) + [Db(steps[|steps| - 1])]
  }

  function PayLabels(steps: seq<P.Label>): (r: seq<Label>)
    ensures |r| == |steps|
  {
    if steps == [] then [] else PayLabels(steps[..|steps| - 1]) + [Pay(steps[|steps| - 1])]
  }

  lemma DbStep(cfg: Config, s: State, l: T.Label)
    requires !l.Begin? && !l.UpdateStatus?
    ensures Next(cfg, s, Db(l)) == s.(db := T.Next(cfg.hash, s.db, l))
  {
    hide T.Next;
  }

  /** A stretch of a transaction is a run of the saga. */
  lemma {:induction false} DbSteps(cfg: Config, before: seq<Label>, steps: seq<T.Label>)
    requires forall i :: 0 <= i < |steps| ==> !steps[i].Begin? && !steps[i].UpdateStatus?
    ensures var s := Exec(cfg, Initial(), before);
      Exec(cfg, Initial(), before + DbLabels(steps)) == s.(db := T.Exec(cfg.hash, s.db, steps))
  {
    hide Next, T.Next;
    if steps == [] {
      assert before + DbLabels(steps) == before;
    } else {
      var rest, l := steps[..|steps| - 1], steps[|steps| - 1];
      DbSteps(cfg, before, rest);
      assert before + DbLabels(steps) == (before + DbLabels(rest)) + [Db(l)];
      ExecStep(cfg, Initial(), before + DbLabels(rest), Db(l));
      DbStep(cfg, Exec(cfg, Initial(), before + DbLabels(rest)), l);
    }
  }

  lemma PayStep(cfg: Config, s: State, l: P.Label)
    requires !l.Begin?
    ensures Next(cfg, s, Pay(l)) == s.(pay := P.Next(cfg.publisher, s.pay, l))
  {
    hide P.Next;
  }

  /** A stretch of a payment call is a run of the saga. */
  lemma {:induction false} PaySteps(cfg: Config, before: seq<Label>, steps: seq<P.Label>)
    requires forall i :: 0 <= i < |steps| ==> !steps[i].Begin?
    ensures var s := Exec(cfg, Initial(), before);
      Exec(cfg, Initial(), before + PayLabels(steps)) == s.(pay := P.Exec(cfg.publisher, s.pay, steps))
  {
    hide Next, P.Next;
    if steps == [] {
      assert before + PayLabels(steps) == before;
    } else {
      var rest, l := steps[..|steps| - 1], steps[|steps| - 1];
      PaySteps(cfg, before, rest);
      assert before + PayLabels(steps) == (before + PayLabels(rest)) + [Pay(l)];
      ExecStep(cfg, Initial(), before + PayLabels(rest), Pay(l));
      PayStep(cfg, Exec(cfg, Initial(), before + PayLabels(rest)), l);
    }
  }

  lemma {:induction false} DbRun(hash: string -> int, s: T.State, a: seq<T.Label>, b: seq<T.Label>)
    ensures T.Exec(hash, s, a + b) == T.Exec(hash, T.Exec(hash, s, a), b)
    decreases |b|
  {
    hide T.Next;
    if b == [] {
      assert a + b == a;
    } else {
      DbRun(hash, s, a, b[..|b| - 1]);
      assert a + b == (a + b[..|b| - 1]) + [b[|b| - 1]];
      T.ExecStep(hash, s, a + b[..|b| - 1], b[|b| - 1]);
    }
  }

  lemma {:induction false} PayRun(publisher: bool, s: P.State, a: seq<P.Label>, b: seq<P.Label>)
    ensures P.Exec(publisher, s, a + b) == P.Exec(publisher, P.Exec(publisher, s, a), b)
    decreases |b|
  {
    hide P.Next;
    if b == [] {
      assert a + b == a;
    } else {
      PayRun(publisher, s, a, b[..|b| - 1]);
      assert a + b == (a + b[..|b| - 1]) + [b[|b| - 1]];
      P.ExecStep(publisher, s, a + b[..|b| - 1], b[|b| - 1]);
    }
  }

  // ----- CreateOrder ----------------------------------------------------------------------------

  lemma CreateStep(cfg: Config, s: State, p: nat, input: Input)
    requires p !in s.procs && p !in s.db.txs
    ensures Next(cfg, s, Create(p, input)) ==
            if !ValidInput(input) then Go(s, p, Finished(Failure(None, InvalidInput)))
            else Go(s.(db := T.Next(cfg.hash, s.db, T.Begin(p, RequestOf(input)))), p, Storing(TrimSpace(input.email)))
  {
    hide ValidInput, RequestOf, TrimSpace, T.Next;
  }

  lemma StoredStep(cfg: Config, s: State, p: nat, email: string)
    requires p in s.procs && s.procs[p] == Storing(email) && p in s.db.txs && T.Over(s.db.txs[p])
    ensures Next(cfg, s, Stored(p)) ==
            Go(s, p, match s.db.txs[p]
                     case Aborted(_) => Finished(Failure(None, StoreError))
                     case Returned(_, o) => if o.status.Pending? then Calling(o, email) else Finished(Success(o))
                     case _ => Storing(email))
  {
  }

  lemma CallStep(cfg: Config, s: State, p: nat, o: T.Order, email: string, call: Option<nat>)
    requires p in s.procs && s.procs[p] == Calling(o, email) && (call.Some? ==> call.value !in s.pay.calls)
    ensures Next(cfg, s, Call(p, call)) ==
            Go(if call.Some? then s.(pay := P.Next(cfg.publisher, s.pay, P.Begin(call.value, P.Input(o.id, o.amount, email)))) else s,
               p, Awaiting(o, call))
  {
    hide P.Next;
  }

  lemma AnsweredStep(cfg: Config, s: State, p: nat, o: T.Order, call: Option<nat>, fault: Option<Reply>, reply: Reply)
    requires p in s.procs && s.procs[p] == Awaiting(o, call)
    requires fault.Some? ==> DisturbsAuthorize(cfg, fault.value) && reply == fault.value
    requires fault.None? ==> call.Some? && call.value in s.pay.calls && s.pay.calls[call.value].stage.Finished? &&
                             reply == Served(cfg.adapter, s.pay.calls[call.value].stage.outcome)
    ensures Next(cfg, s, Answered(p, fault)) == Go(s, p, AfterAuthorize(o, Authorize(reply)))
  {
    hide AfterAuthorize, Authorize, Served, DisturbsAuthorize;
  }

  lemma QueriedStep(cfg: Config, s: State, p: nat, o: T.Order, fault: Option<Reply>, reply: Reply)
    requires p in s.procs && s.procs[p] == Querying(o)
    requires fault.Some? ==> DisturbsGetStatus(cfg, fault.value) && reply == fault.value
    requires fault.None? ==> reply == Http(HttpGet(P.FindRow(s.pay.rows, o.id)))
    ensures Next(cfg, s, Queried(p, fault)) == Go(s, p, AfterGetStatus(o, GetStatus(reply)))
  {
    hide AfterGetStatus, GetStatus, HttpGet, P.FindRow, DisturbsGetStatus;
  }

  lemma WriteStep(cfg: Config, s: State, p: nat, o: T.Order, status: T.OrderStatus, outcome: WriteOutcome)
    requires p in s.procs && s.procs[p] == Writing(o, status)
    ensures Next(cfg, s, Write(p, outcome)) ==
            Go(SetStatus(s, o.id, status, outcome), p,
               Finished(if Told(s, o.id, outcome) then Success(o.(status := status)) else Failure(None, StoreError)))
  {
    hide T.OnUpdateStatus;
  }

  lemma WriteFailedStep(cfg: Config, s: State, p: nat, o: T.Order, outcome: WriteOutcome)
    requires p in s.procs && s.procs[p] == Failing(o)
    ensures Next(cfg, s, WriteFailed(p, outcome)) ==
            Go(SetStatus(s, o.id, T.Failed, outcome), p, Rereading(o.(status := T.Failed), PaymentError))
  {
    hide T.OnUpdateStatus;
  }

  lemma RereadStep(cfg: Config, s: State, p: nat, o: T.Order, error: Error, ok: bool)
    requires p in s.procs && s.procs[p] == Rereading(o, error)
    ensures Next(cfg, s, Reread(p, ok)) ==
            Go(s, p, Finished(Failure(Some(if ok && o.id in s.db.orders then s.db.orders[o.id] else o), error)))
  {
  }

  // ----- CancelOrder ----------------------------------------------------------------------------

  lemma CancelStep(cfg: Config, s: State, p: nat, id: string)
    requires p !in s.procs && p !in s.db.txs
    ensures Next(cfg, s, Cancel(p, id)) == Go(s, p, Cancelling(id))
  {
  }

  lemma CancelReadStep(cfg: Config, s: State, p: nat, id: string, ok: bool)
    requires p in s.procs && s.procs[p] == Cancelling(id)
    ensures Next(cfg, s, CancelRead(p, ok)) ==
            Go(s, p, if !ok then Finished(Failure(None, StoreError))
                     else if id !in s.db.orders then Finished(Failure(None, OrderNotFound))
                     else if !s.db.orders[id].status.Pending? then Finished(Failure(None, CancelNotAllowed))
                     else CancelWriting(s.db.orders[id]))
  {
  }

  lemma CancelWriteStep(cfg: Config, s: State, p: nat, o: T.Order, outcome: WriteOutcome)
    requires p in s.procs && s.procs[p] == CancelWriting(o)
    ensures Next(cfg, s, CancelWrite(p, outcome)) ==
            Go(SetStatus(s, o.id, T.Cancelled, outcome), p,
               Finished(if Told(s, o.id, outcome) then Success(o.(status := T.Cancelled)) else Failure(None, StoreError)))
  {
    hide T.OnUpdateStatus;
  }
}
