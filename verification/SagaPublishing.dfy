/** When a Paid order means that the event of its payment was published. */
module SagaPublishing {
  import opened Text
  import opened Writes
  import opened PaymentAdapter
  import opened CheckoutSaga
  import T = OrderTransactions
  import P = PaymentProtocol
  import G = SagaGuarantees
  import Fin = SagaFinality
  import Th = SagaTheorems
  import Runs = SagaRuns

  predicate HasEvent(pay: P.State, id: string) {
    exists e :: e in pay.events && e.orderId == id
  }

  ghost predicate PaidMeansPublished(cfg: Config, trace: seq<Label>) {
    var s := Exec(cfg, Initial(), trace);
    forall id :: Th.Held(s, id, T.Paid) ==> HasEvent(s.pay, id)
  }

  // ----- Behind gRPC, with a publisher -----------------------------------------------------------

  /** A call that reported an authorized payment has published its event. */
  predicate SuccessPublished(pay: P.State) {
    forall c :: c in pay.calls && pay.calls[c].stage.Finished? && pay.calls[c].stage.outcome.Success? &&
                pay.calls[c].stage.outcome.payment.status.Authorized? ==>
                  HasEvent(pay, pay.calls[c].stage.outcome.payment.orderId)
  }

  lemma EventsLast(pay: P.State, pay': P.State)
    requires pay.events <= pay'.events
    ensures forall id :: HasEvent(pay, id) ==> HasEvent(pay', id)
  {
    forall id | HasEvent(pay, id) ensures HasEvent(pay', id) {
      var e :| e in pay.events && e.orderId == id;
      assert e in pay'.events;
    }
  }

  /** Publish is the only step to report an authorized success, once the event is with the broker. */
  lemma PaySuccessPublished(pay: P.State, l: P.Label)
    requires SuccessPublished(pay) && P.Fits(pay) && (l.Publish? && l.confirmed ==> l.accepted)
    ensures SuccessPublished(P.Next(true, pay, l)) && pay.events <= P.Next(true, pay, l).events
  {
    hide P.Fits, P.FindRow, P.Clashes, IsUuid, TrimSpace, SuccessPublished, HasEvent, P.Next;
    P.FitsStep(true, pay, l);
    var next := P.Next(true, pay, l);
    GrownEvents(pay, next);
    EventsLast(pay, next);
    NewSuccess(pay, l);
    OldSuccess(pay, next);
  }

  lemma GrownEvents(pay: P.State, pay': P.State)
    requires P.Grows(pay, pay')
    ensures pay.events <= pay'.events
  {
  }

  predicate AuthorizedSuccess(pay: P.State, c: nat) {
    c in pay.calls && pay.calls[c].stage.Finished? && pay.calls[c].stage.outcome.Success? &&
    pay.calls[c].stage.outcome.payment.status.Authorized?
  }

  lemma NewSuccess(pay: P.State, l: P.Label)
    requires l.Publish? && l.confirmed ==> l.accepted
    ensures var next := P.Next(true, pay, l);
      forall c :: AuthorizedSuccess(next, c) && !AuthorizedSuccess(pay, c) ==> HasEvent(next, next.calls[c].stage.outcome.payment.orderId)
  {
    hide P.FindRow, P.Clashes, IsUuid, TrimSpace, HasEvent;
    var next := P.Next(true, pay, l);
    if l.Publish? && l.confirmed && l.call in pay.calls && pay.calls[l.call].stage.Publishing? {
      var p, email := pay.calls[l.call].stage.payment, pay.calls[l.call].input.email;
      EventMakes(next, p, email);
    }
  }

  lemma EventMakes(pay: P.State, p: P.Payment, email: string)
    ensures P.EventOf(p, email) in pay.events ==> HasEvent(pay, p.orderId)
  {
    P.EventIsOf(p, email);
    hide P.EventOf;
  }

  lemma OldSuccess(pay: P.State, next: P.State)
    requires SuccessPublished(pay) && P.Grows(pay, next) && (forall id :: HasEvent(pay, id) ==> HasEvent(next, id))
    requires forall c :: AuthorizedSuccess(next, c) && !AuthorizedSuccess(pay, c) ==> HasEvent(next, next.calls[c].stage.outcome.payment.orderId)
    ensures SuccessPublished(next)
  {
    hide HasEvent;
    forall c | AuthorizedSuccess(next, c) ensures HasEvent(next, next.calls[c].stage.outcome.payment.orderId) {
      if AuthorizedSuccess(pay, c) {
        assert next.calls[c] == pay.calls[c];
      }
    }
  }

  // ----- The saga -------------------------------------------------------------------------------

  predicate WritesPublished(s: State) {
    forall p :: p in s.procs ==> ProcPublished(s.pay, s.procs[p])
  }

  predicate ProcPublished(pay: P.State, proc: Proc) {
    proc.Writing? && proc.status.Paid? ==> HasEvent(pay, proc.order.id)
  }

  predicate HistoryPublished(pay: P.State, id: string, statuses: seq<T.OrderStatus>) {
    T.Paid in statuses ==> HasEvent(pay, id)
  }

  predicate HistoriesPublished(s: State) {
    forall id :: id in s.db.history ==> HistoryPublished(s.pay, id, s.db.history[id])
  }

  predicate Published(s: State) {
    SuccessPublished(s.pay) && WritesPublished(s) && HistoriesPublished(s)
  }

  /** Only the answer that reports a success of its own makes a process write Paid. */
  lemma AnsweredPublished(cfg: Config, s: State, o: T.Order, c: nat)
    requires cfg.adapter.Grpc? && SuccessPublished(s.pay) && P.Fits(s.pay)
    requires G.CallsFor(s, c, o) && s.pay.calls[c].stage.Finished?
    ensures ProcPublished(s.pay, AfterAuthorize(o, Authorize(Served(cfg.adapter, s.pay.calls[c].stage.outcome))))
  {
    hide HasEvent, P.RowsFit, P.EventsFit, TrimSpace;
    assert P.CallFits(s.pay, s.pay.calls[c]);
    if AuthorizedSuccess(s.pay, c) {
      assert s.pay.calls[c].stage.outcome.payment.orderId == o.id;
    }
  }

  lemma NoisePublished(cfg: Config, pay: P.State, o: T.Order, r: Reply)
    requires DisturbsAuthorize(cfg, r)
    ensures ProcPublished(pay, AfterAuthorize(o, Authorize(r)))
  {
    hide HasEvent, Authorize;
  }

  /** A step of a process that is not the call leaves the payments alone and adds no Paid of its own. */
  lemma ProcPublishes(cfg: Config, s: State, p: nat, l: Label)
    requires cfg.adapter.Grpc? && G.Fits(cfg, s) && Published(s) && p in s.procs && !(s.procs[p].Calling? && l.Call?)
    ensures var t := ProcStep(cfg, s, p, s.procs[p], l);
      t.pay == s.pay && p in t.procs && ProcPublished(s.pay, t.procs[p]) &&
      forall id :: id in t.db.history ==> HistoryPublished(s.pay, id, t.db.history[id])
  {
    hide P.Next, P.FindRow, HasEvent, G.CallsMatch, G.HistoriesFit, T.Fits, P.Fits, AfterAuthorize, Authorize, Served,
         SuccessPublished, DisturbsAuthorize, G.Known, G.Backed, P.HasRow, G.GoodEmail;
    assert G.ProcFits(cfg, s, s.procs[p]) && ProcPublished(s.pay, s.procs[p]);
    assert P.Fits(s.pay);
    match s.procs[p]
    case Awaiting(o, call) =>
      if l.Answered? {
        match l.fault
        case Some(r) =>
          if DisturbsAuthorize(cfg, r) {
            NoisePublished(cfg, s.pay, o, r);
          }
        case None =>
          if call.Some? && call.value in s.pay.calls && s.pay.calls[call.value].stage.Finished? {
            AnsweredPublished(cfg, s, o, call.value);
          }
      }
    case Writing(o, status) => AppendedPublished(s, o.id, status);
    case Failing(o) => AppendedPublished(s, o.id, T.Failed);
    case CancelWriting(o) => AppendedPublished(s, o.id, T.Cancelled);
    case _ =>
  }

  lemma AppendedPublished(s: State, id: string, status: T.OrderStatus)
    requires HistoriesPublished(s) && (status.Paid? ==> HasEvent(s.pay, id))
    ensures forall outcome, x :: x in SetStatus(s, id, status, outcome).db.history ==>
              HistoryPublished(s.pay, x, SetStatus(s, id, status, outcome).db.history[x])
  {
    hide HasEvent;
    forall outcome, x | x in SetStatus(s, id, status, outcome).db.history
      ensures HistoryPublished(s.pay, x, SetStatus(s, id, status, outcome).db.history[x])
    {
      assert x in s.db.history && HistoryPublished(s.pay, x, s.db.history[x]);
    }
  }

  /** More events, the same histories and no new write of Paid. */
  lemma PublishedOn(s: State, t: State)
    requires Published(s) && SuccessPublished(t.pay) && (forall id :: HasEvent(s.pay, id) ==> HasEvent(t.pay, id))
    requires forall p :: p in t.procs ==> (p in s.procs && t.procs[p] == s.procs[p]) || ProcPublished(t.pay, t.procs[p])
    requires forall id :: id in t.db.history ==>
               (id in s.db.history && t.db.history[id] == s.db.history[id]) || HistoryPublished(t.pay, id, t.db.history[id])
    ensures Published(t)
  {
    hide HasEvent, SuccessPublished;
    forall p | p in t.procs ensures ProcPublished(t.pay, t.procs[p]) {
      if p in s.procs && t.procs[p] == s.procs[p] {
        assert ProcPublished(s.pay, s.procs[p]);
      }
    }
    forall id | id in t.db.history ensures HistoryPublished(t.pay, id, t.db.history[id]) {
      if id in s.db.history && t.db.history[id] == s.db.history[id] {
        assert HistoryPublished(s.pay, id, s.db.history[id]);
      }
    }
  }

  lemma DbPublishes(cfg: Config, s: State, t: State, d: T.Label)
    requires G.Fits(cfg, s) && Published(s) && !d.UpdateStatus? && t.pay == s.pay && t.db == T.Next(cfg.hash, s.db, d)
    requires forall p :: p in t.procs ==> (p in s.procs && t.procs[p] == s.procs[p]) || !t.procs[p].Writing?
    ensures Published(t)
  {
    hide HasEvent, SuccessPublished, T.Next, T.Fits, P.Fits, G.CallsMatch, G.HistoriesFit, G.ProcsFit;
    assert T.Fits(cfg.hash, s.db);
    forall id | id in t.db.history
      ensures (id in s.db.history && t.db.history[id] == s.db.history[id]) || HistoryPublished(t.pay, id, t.db.history[id])
    {
      G.QuietHistory(cfg.hash, s.db, d, id);
    }
    PublishedOn(s, t);
  }

  lemma PayPublishes(cfg: Config, s: State, t: State, l: P.Label)
    requires cfg.publisher && G.Fits(cfg, s) && Published(s) && (l.Publish? && l.confirmed ==> l.accepted)
    requires t.pay == P.Next(true, s.pay, l) && t.db == s.db
    requires forall p :: p in t.procs ==> (p in s.procs && t.procs[p] == s.procs[p]) || !t.procs[p].Writing?
    ensures Published(t)
  {
    hide HasEvent, SuccessPublished, P.Next, T.Fits, P.Fits, G.CallsMatch, G.HistoriesFit, G.ProcsFit;
    assert P.Fits(s.pay);
    PaySuccessPublished(s.pay, l);
    EventsLast(s.pay, t.pay);
    PublishedOn(s, t);
  }

  lemma StepPublishes(cfg: Config, s: State, l: Label)
    requires cfg.publisher && cfg.adapter.Grpc? && G.Fits(cfg, s) && Published(s) && Runs.Honest(l)
    ensures Published(Next(cfg, s, l))
  {
    hide G.Fits, ProcStep, T.Next, P.Next, Published, ValidInput, RequestOf, TrimSpace;
    var t := Next(cfg, s, l);
    if l.Create? {
      if t.db != s.db {
        DbPublishes(cfg, s, t, T.Begin(l.proc, RequestOf(l.input)));
      } else {
        QuietPublishes(s, t);
      }
    } else if l.Db? {
      if t != s {
        DbPublishes(cfg, s, t, l.dbLabel);
      }
    } else if l.Crash? {
      if t != s {
        DbPublishes(cfg, s, t, T.Abort(l.proc));
      }
    } else if l.Pay? {
      if t != s {
        PayPublishes(cfg, s, t, l.payLabel);
      }
    } else if l.Cancel? {
      QuietPublishes(s, t);
    } else if l.proc in s.procs {
      ProcStepPublishes(cfg, s, l.proc, l);
    }
  }

  lemma QuietPublishes(s: State, t: State)
    requires Published(s) && t.pay == s.pay && t.db == s.db
    requires forall p :: p in t.procs ==> (p in s.procs && t.procs[p] == s.procs[p]) || !t.procs[p].Writing?
    ensures Published(t)
  {
    hide HasEvent, SuccessPublished;
    PublishedOn(s, t);
  }

  lemma ProcStepPublishes(cfg: Config, s: State, p: nat, l: Label)
    requires cfg.publisher && cfg.adapter.Grpc? && G.Fits(cfg, s) && Published(s) && p in s.procs
    ensures Published(ProcStep(cfg, s, p, s.procs[p], l))
  {
    hide G.Fits, SuccessPublished, HasEvent, P.Next, T.Next;
    if s.procs[p].Calling? && l.Call? {
      hide Published;
      CallPublishes(cfg, s, p, s.procs[p].order, s.procs[p].email, l.call);
    } else {
      var t := ProcStep(cfg, s, p, s.procs[p], l);
      ProcPublishes(cfg, s, p, l);
      Fin.ProcTouches(cfg, s, p, l);
      hide ProcStep;
      PublishedOn(s, t);
    }
  }

  lemma CallPublishes(cfg: Config, s: State, p: nat, o: T.Order, email: string, call: Option<nat>)
    requires cfg.publisher && G.Fits(cfg, s) && Published(s)
    ensures Published(OnCall(cfg, s, p, o, email, call))
  {
    hide G.Fits, Published, P.Next;
    var t := OnCall(cfg, s, p, o, email, call);
    if call.None? {
      QuietPublishes(s, t);
    } else if call.value !in s.pay.calls {
      PayPublishes(cfg, s, t, P.Begin(call.value, P.Input(o.id, o.amount, email)));
    }
  }

  lemma {:induction false} AlwaysPublished(cfg: Config, trace: seq<Label>)
    requires cfg.publisher && cfg.adapter.Grpc? && Runs.AllHonest(trace)
    ensures Published(Exec(cfg, Initial(), trace))
  {
    hide Next, G.Fits, Runs.Honest;
    if trace != [] {
      var before := trace[..|trace| - 1];
      AlwaysPublished(cfg, before);
      G.AlwaysFits(cfg, before);
      hide Published;
      StepPublishes(cfg, Exec(cfg, Initial(), before), trace[|trace| - 1]);
    }
  }

  /** "A Paid order's event was published", while the publisher reports success only for events that the broker has taken: true
      in every run exactly with a publisher and behind gRPC. Behind REST the retry that reconciles with a stored payment
      makes up for its lost reply, but not for its refused event. */
  lemma PaidMeansPublishedIffGrpc(cfg: Config)
    ensures (forall trace :: Runs.AllHonest(trace) ==> PaidMeansPublished(cfg, trace)) <==> cfg.publisher && cfg.adapter.Grpc?
  {
    hide Exec, Runs.AllHonest;
    if cfg.publisher && cfg.adapter.Grpc? {
      forall trace | Runs.AllHonest(trace) ensures PaidMeansPublished(cfg, trace) {
        AlwaysPublished(cfg, trace);
        HistoriesSay(cfg, trace);
      }
    } else {
      var trace, id := Runs.PaidUnpublished(cfg);
      var s := Exec(cfg, Initial(), trace);
      assert s.db.history[id][1] == T.Paid;
      assert Th.Held(s, id, T.Paid) && !HasEvent(s.pay, id);
      assert !PaidMeansPublished(cfg, trace);
    }
  }

  lemma HistoriesSay(cfg: Config, trace: seq<Label>)
    requires Published(Exec(cfg, Initial(), trace))
    ensures PaidMeansPublished(cfg, trace)
  {
    hide Exec, HasEvent, SuccessPublished;
    var s := Exec(cfg, Initial(), trace);
    forall id | Th.Held(s, id, T.Paid) ensures HasEvent(s.pay, id) {
      assert HistoryPublished(s.pay, id, s.db.history[id]);
    }
  }
}
