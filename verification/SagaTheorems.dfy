/** The promises of checkout over every interleaved run. */
module SagaTheorems {
  import opened Text
  import opened Writes
  import opened PaymentAdapter
  import opened CheckoutSaga
  import T = OrderTransactions
  import P = PaymentProtocol
  import G = SagaGuarantees
  import R = SagaRetry
  import Runs = SagaRuns

  predicate Held(s: State, id: string, status: T.OrderStatus) {
    id in s.db.history && status in s.db.history[id]
  }

  // ----- What a status rests on -----------------------------------------------------------------

  lemma HeldIsBacked(cfg: Config, s: State, id: string, status: T.OrderStatus)
    requires G.Fits(cfg, s) && Held(s, id, status)
    ensures G.Backed(cfg, s, id, status)
  {
    hide G.PartsFit, G.CallsMatch, G.ProcsFit, G.Backed;
    assert G.StatusesFit(cfg, s, id, s.db.history[id]);
    var i :| 0 <= i < |s.db.history[id]| && s.db.history[id][i] == status;
  }

  /** When payments come only from CreateOrder, a stored payment carries its order's stored amount. */
  lemma RowCarriesOrderAmount(cfg: Config, s: State, row: P.Payment)
    requires G.Fits(cfg, s) && !cfg.open && row in s.pay.rows
    ensures row.orderId in s.db.orders && row.amount == s.db.orders[row.orderId].amount && row.status == P.StatusFor(row.amount)
  {
    hide T.Fits, G.ProcsFit, G.HistoriesFit, P.EventsFit, P.CallsFit, IsUuid;
    assert P.AskedFor(s.pay, row.orderId, row.amount);
    var c :| c in s.pay.calls && s.pay.calls[c].input.orderId == row.orderId && s.pay.calls[c].input.amount == row.amount;
    assert G.CallMatches(s, c);
  }

  /** Under every interleaving, an order that was ever Paid has a stored Authorized payment of its own stored amount,
      of at most 1000.00; whatever the adapter and the faults. */
  lemma PaidRestsOnAuthorized(cfg: Config, trace: seq<Label>, id: string)
    requires !cfg.open
    ensures var s := Exec(cfg, Initial(), trace);
      Held(s, id, T.Paid) ==>
        id in s.db.orders && 0 < s.db.orders[id].amount <= 100000 &&
        exists row :: row in s.pay.rows && row.orderId == id && row.status.Authorized? && row.amount == s.db.orders[id].amount
  {
    hide Exec, G.Fits, P.RowsFit;
    var s := Exec(cfg, Initial(), trace);
    G.AlwaysFits(cfg, trace);
    if Held(s, id, T.Paid) {
      HeldIsBacked(cfg, s, id, T.Paid);
      var row :| row in s.pay.rows && row.orderId == id && row.status == P.Authorized;
      RowCarriesOrderAmount(cfg, s, row);
      RowIsPositive(cfg, s, row);
    }
  }

  lemma RowIsPositive(cfg: Config, s: State, row: P.Payment)
    requires G.Fits(cfg, s) && row in s.pay.rows
    ensures row.amount > 0
  {
    hide T.Fits, G.CallsMatch, G.ProcsFit, G.HistoriesFit, P.EventsFit, P.CallsFit, P.AskedFor, IsUuid;
  }

  ghost predicate FailedMeansDeclined(cfg: Config, trace: seq<Label>) {
    var s := Exec(cfg, Initial(), trace);
    forall id :: Held(s, id, T.Failed) ==> P.HasRow(s.pay, id, P.Declined)
  }

  /** "Failed means the payment was declined" holds in every run exactly when no reply that can occur and claims nothing
      about the payment makes the order service mark the order Failed. */
  lemma FailedMeansDeclinedIffNoMisreading(cfg: Config)
    ensures (forall trace :: FailedMeansDeclined(cfg, trace)) <==> !G.MisreadingsOccur(cfg)
  {
    hide Exec, G.Fits, G.FailsOnAuthorize, G.FailsOnGetStatus;
    if G.MisreadingsOccur(cfg) {
      var r :| G.FailsOnAuthorize(cfg, r) || G.FailsOnGetStatus(cfg, r);
      var trace, id := Runs.MisreadingFailsAuthorized(cfg, r);
      var s := Exec(cfg, Initial(), trace);
      assert s.db.history[id][1] == T.Failed;
      assert Held(s, id, T.Failed) && !P.HasRow(s.pay, id, P.Declined);
      assert !FailedMeansDeclined(cfg, trace);
    } else {
      forall trace ensures FailedMeansDeclined(cfg, trace) {
        var s := Exec(cfg, Initial(), trace);
        G.AlwaysFits(cfg, trace);
        forall id | Held(s, id, T.Failed) ensures P.HasRow(s.pay, id, P.Declined) {
          HeldIsBacked(cfg, s, id, T.Failed);
        }
      }
    }
  }

  ghost predicate PaidExcludesFailed(cfg: Config, trace: seq<Label>) {
    var s := Exec(cfg, Initial(), trace);
    forall id :: !(Held(s, id, T.Paid) && Held(s, id, T.Failed))
  }

  /** No order is ever both Paid and Failed, in any run, under the same condition; otherwise a paid order can be
      overwritten by Failed. */
  lemma PaidExcludesFailedIffNoMisreading(cfg: Config)
    ensures (forall trace :: PaidExcludesFailed(cfg, trace)) <==> !G.MisreadingsOccur(cfg)
  {
    hide Exec, G.Fits, G.FailsOnAuthorize, G.FailsOnGetStatus;
    if G.MisreadingsOccur(cfg) {
      var r :| G.FailsOnAuthorize(cfg, r) || G.FailsOnGetStatus(cfg, r);
      var trace, id := Runs.MisreadingOverwritesPaid(cfg, r);
      var s := Exec(cfg, Initial(), trace);
      assert s.db.history[id][1] == T.Paid && s.db.history[id][2] == T.Failed;
      assert Held(s, id, T.Paid) && Held(s, id, T.Failed);
      assert !PaidExcludesFailed(cfg, trace);
    } else {
      forall trace ensures PaidExcludesFailed(cfg, trace) {
        var s := Exec(cfg, Initial(), trace);
        G.AlwaysFits(cfg, trace);
        forall id ensures !(Held(s, id, T.Paid) && Held(s, id, T.Failed)) {
          if Held(s, id, T.Paid) && Held(s, id, T.Failed) {
            HeldIsBacked(cfg, s, id, T.Paid);
            HeldIsBacked(cfg, s, id, T.Failed);
            OneRow(cfg, s, id);
          }
        }
      }
    }
  }

  /** Timeouts, refused connections and server errors. */
  predicate OnlyUnavailable(faults: set<Reply>) {
    forall r :: r in faults && r.Http? ==>
      match r.http
      case NoResponse(t) => t.DeadlineExceeded? || t.TimedOut? || t.ConnectionRefused?
      case Response(code, _) => code >= 500
  }

  /** Timeouts alone are harmless behind REST and a generic error behind gRPC; a 404 to the POST is one behind REST. */
  lemma TimeoutsByAdapter(cfg: Config)
    ensures cfg.adapter.Rest? && OnlyUnavailable(cfg.faults) ==> !G.MisreadingsOccur(cfg)
    ensures cfg.adapter.Rest? && Http(Response(404, None)) in cfg.faults ==> G.MisreadingsOccur(cfg)
    ensures cfg.adapter.Grpc? && Rpc(RpcError(DeadlineExceededCode)) in cfg.faults ==> G.MisreadingsOccur(cfg)
    ensures cfg.adapter.Grpc? && Rpc(RpcError(UnavailableCode)) in cfg.faults ==> G.MisreadingsOccur(cfg)
  {
    if cfg.adapter.Rest? && Http(Response(404, None)) in cfg.faults {
      assert G.FailsOnAuthorize(cfg, Http(Response(404, None)));
    }
    if cfg.adapter.Grpc? && Rpc(RpcError(DeadlineExceededCode)) in cfg.faults {
      assert G.FailsOnAuthorize(cfg, Rpc(RpcError(DeadlineExceededCode)));
    }
    if cfg.adapter.Grpc? && Rpc(RpcError(UnavailableCode)) in cfg.faults {
      assert G.FailsOnAuthorize(cfg, Rpc(RpcError(UnavailableCode)));
    }
  }

  /** Every order starts Pending and never returns there. */
  lemma NeverPendingAgain(cfg: Config, trace: seq<Label>, id: string)
    ensures var s := Exec(cfg, Initial(), trace);
      id in s.db.history ==>
        s.db.history[id] != [] && s.db.history[id][0] == T.Pending &&
        forall i :: 0 < i < |s.db.history[id]| ==> !s.db.history[id][i].Pending?
  {
    hide Exec, G.Fits;
    var s := Exec(cfg, Initial(), trace);
    G.AlwaysFits(cfg, trace);
    if id in s.db.history {
      HistoryFits(cfg, s, id);
      HistoryStarts(cfg, s, id);
    }
  }

  lemma HistoryStarts(cfg: Config, s: State, id: string)
    requires G.Fits(cfg, s) && id in s.db.history
    ensures id in s.db.orders && T.RowFits(s.db.used, id, s.db.orders[id], s.db.history[id])
  {
    hide P.Fits, G.CallsMatch, G.ProcsFit, G.HistoriesFit, T.TxsFit, T.KeysFit, T.RowFits;
  }

  lemma HistoryFits(cfg: Config, s: State, id: string)
    requires G.Fits(cfg, s) && id in s.db.history
    ensures G.StatusesFit(cfg, s, id, s.db.history[id])
  {
    hide G.PartsFit, G.CallsMatch, G.ProcsFit, G.StatusesFit;
  }

  lemma OneRow(cfg: Config, s: State, id: string)
    requires G.Fits(cfg, s)
    ensures !(P.HasRow(s.pay, id, P.Authorized) && P.HasRow(s.pay, id, P.Declined))
  {
    hide T.Fits, G.CallsMatch, G.ProcsFit, G.HistoriesFit, P.EventsFit, P.CallsFit, P.AskedFor, IsUuid, P.StatusFor;
  }

  // ----- Branches that are never taken ----------------------------------------------------------

  /** Whatever the retries and replays, the payment service never finds fault with the arguments of CreateOrder: in particular
      no Authorized payment is left unpublished for lack of an address. */
  lemma ArgumentsAreNeverRefused(cfg: Config, trace: seq<Label>, c: nat)
    requires !cfg.open
    ensures var s := Exec(cfg, Initial(), trace);
      c in s.pay.calls && s.pay.calls[c].stage.Finished? && s.pay.calls[c].stage.outcome.Refused? ==>
        s.pay.calls[c].stage.outcome.why.AlreadyExists? || s.pay.calls[c].stage.outcome.why.Internal?
  {
    hide Exec, G.ProcsFit, G.HistoriesFit, P.RowsFit, P.EventsFit, TrimSpace, T.TxsFit, T.KeysFit, IsUuid;
    G.AlwaysFits(cfg, trace);
    var s := Exec(cfg, Initial(), trace);
    if c in s.pay.calls {
      assert G.CallMatches(s, c);
      assert P.CallFits(s.pay, s.pay.calls[c]);
      var id := s.pay.calls[c].input.orderId;
      assert T.RowFits(s.db.used, id, s.db.orders[id], s.db.history[id]);
      UuidIsTrimmed(id);
    }
  }

  /** "payment record missing after duplicate authorization" is never returned. */
  lemma RecordIsNeverMissing(cfg: Config, trace: seq<Label>, p: nat)
    ensures var s := Exec(cfg, Initial(), trace);
      p in s.procs && s.procs[p].Finished? && s.procs[p].outcome.Failure? ==> s.procs[p].outcome.error != RecordMissing
  {
    hide Exec, G.PartsFit, G.CallsMatch, G.HistoriesFit;
    G.AlwaysFits(cfg, trace);
    var s := Exec(cfg, Initial(), trace);
    if p in s.procs {
      assert G.ProcFits(cfg, s, s.procs[p]);
    }
  }

  // ----- Retrying -------------------------------------------------------------------------------

  /** Without misreadings a settled status is the one the stored amount decides. */
  lemma StatusIsByAmount(cfg: Config, s: State, id: string)
    requires G.Fits(cfg, s) && !cfg.open && !G.MisreadingsOccur(cfg) && id in s.db.orders
    ensures var o := s.db.orders[id]; o.status.Paid? || o.status.Failed? ==> o.status == R.Outcome(o.amount)
  {
    hide G.Fits, G.MisreadingsOccur;
    var o := s.db.orders[id];
    if o.status.Paid? || o.status.Failed? {
      R.OrderFacts(cfg, s, id);
      HistoryStarts(cfg, s, id);
      var statuses := s.db.history[id];
      assert statuses[|statuses| - 1] == o.status;
      assert Held(s, id, o.status);
      HeldIsBacked(cfg, s, id, o.status);
      var row :| row in s.pay.rows && row.orderId == id && row.status == if o.status.Paid? then P.Authorized else P.Declined;
      RowCarriesOrderAmount(cfg, s, row);
    }
  }

  /** Behind REST and without misreadings: after any run, one undisturbed retry with a linked key ends with the linked order
      Paid if its stored amount is at most 1000.00 and Failed above it, unless it was Cancelled; at most one
      payment and one event are new, both of this order and neither if it had a payment. */
  lemma RetryDecides(cfg: Config, before: seq<Label>, n: R.Names, input: Input) returns (t: State)
    requires !cfg.open && cfg.adapter.Rest? && !G.MisreadingsOccur(cfg)
    requires ValidInput(input) && input.key.Some? && input.key.value != ""
    requires var s := Exec(cfg, Initial(), before); input.key.value in s.db.keys && R.Ready(cfg, s, n, input.key.value)
    ensures var s := Exec(cfg, Initial(), before);
      var id := s.db.keys[input.key.value];
      id in s.db.orders && t == Exec(cfg, s, R.Retry(cfg, s, n, input, id)) &&
      var was := s.db.orders[id];
      id in t.db.orders && n.proc in t.procs && t.procs[n.proc] == Finished(Success(t.db.orders[id])) &&
      t.db.orders[id] == was.(status := if was.status.Cancelled? then T.Cancelled else R.Outcome(was.amount)) &&
      |t.pay.rows| <= |s.pay.rows| + 1 && |t.pay.events| <= |s.pay.events| + 1 &&
      (P.FindRow(s.pay.rows, id).Some? ==> t.pay.rows == s.pay.rows && t.pay.events == s.pay.events) &&
      (forall i :: |s.pay.events| <= i < |t.pay.events| ==> t.pay.events[i].orderId == id)
  {
    hide Exec, G.Fits, P.FindRow, IsUuid, TrimSpace, ValidInput, G.MisreadingsOccur, R.Retry, R.Outcome, R.Ready;
    var s := Exec(cfg, Initial(), before);
    var id := s.db.keys[input.key.value];
    t := R.RetrySettles(cfg, before, n, input);
    G.AlwaysFits(cfg, before);
    R.OrderFacts(cfg, s, id);
    StatusIsByAmount(cfg, s, id);
  }
}
