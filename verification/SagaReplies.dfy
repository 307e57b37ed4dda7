/** What each reply of the payment service, or in its place, does to the CreateOrder that waits for it, by codes and transports and in
    every reachable state; and which replies, of those that can occur, mark an order Failed that they say nothing about. */
module SagaReplies {
  import opened Text
  import opened Writes
  import opened PaymentAdapter
  import opened CheckoutSaga
  import T = OrderTransactions
  import P = PaymentProtocol
  import G = SagaGuarantees
  import Steps = SagaSteps

  // ----- Replies in place of the service's own --------------------------------------------------

  /** The reply can reach this client. */
  predicate CanOccur(cfg: Config, r: Reply) {
    r in cfg.faults && (r.Http? <==> cfg.adapter.Rest?)
  }

  lemma DisturbsAre(cfg: Config, r: Reply)
    requires CanOccur(cfg, r)
    ensures DisturbsAuthorize(cfg, r) <==>
              (PostUnavailable(r) || GenericOnPost(r) || exists text :: Carries(r, text) && text != "Authorized" && text != "Declined")
    ensures DisturbsGetStatus(cfg, r) <==>
              (QueryUnavailable(r) || GenericOnQuery(r) || exists text :: Carries(r, text) && text != "Authorized" && text != "Declined")
  {
    hide PostUnavailable, QueryUnavailable, GenericOnPost, GenericOnQuery, Carries, Authorize, GetStatus;
    RepliesReadAs(r);
    if Authorize(r).Status? {
      assert Carries(r, Authorize(r).status);
    }
    if GetStatus(r).Status? {
      assert Carries(r, GetStatus(r).status);
    }
  }

  /** To the POST: an unreachable service leaves the order to be read again, a status that is not Authorized is taken for a
      refusal, and a reply without a meaning sets out to mark the order Failed. */
  lemma AnswerFaults(cfg: Config, s: State, p: nat, o: T.Order, call: Option<nat>, r: Reply)
    requires p in s.procs && s.procs[p] == Awaiting(o, call) && CanOccur(cfg, r)
    ensures var t := Next(cfg, s, Answered(p, Some(r)));
      (PostUnavailable(r) ==> t == Go(s, p, Rereading(o, PaymentUnavailable))) &&
      (GenericOnPost(r) ==> t == Go(s, p, Failing(o))) &&
      ((exists text :: Carries(r, text) && text != "Authorized" && text != "Declined") ==> t == Go(s, p, Writing(o, T.Failed)))
  {
    hide PostUnavailable, GenericOnPost, Carries, Authorize, DisturbsAuthorize;
    DisturbsAre(cfg, r);
    RepliesReadAs(r);
    if DisturbsAuthorize(cfg, r) {
      Steps.AnsweredStep(cfg, s, p, o, call, Some(r), r);
    }
  }

  /** To the status query: an unreachable service leaves the order to be read again, a status that is not Authorized is taken for a
      refusal, and a reply without a meaning ends the use case with an error and no order. */
  lemma QueryFaults(cfg: Config, s: State, p: nat, o: T.Order, r: Reply)
    requires p in s.procs && s.procs[p] == Querying(o) && CanOccur(cfg, r)
    ensures var t := Next(cfg, s, Queried(p, Some(r)));
      (QueryUnavailable(r) ==> t == Go(s, p, Rereading(o, PaymentUnavailable))) &&
      (GenericOnQuery(r) ==> t == Go(s, p, Finished(Failure(None, PaymentError)))) &&
      ((exists text :: Carries(r, text) && text != "Authorized" && text != "Declined") ==> t == Go(s, p, Writing(o, T.Failed)))
  {
    hide QueryUnavailable, GenericOnQuery, Carries, GetStatus, DisturbsGetStatus;
    DisturbsAre(cfg, r);
    RepliesReadAs(r);
    if DisturbsGetStatus(cfg, r) {
      Steps.QueriedStep(cfg, s, p, o, Some(r), r);
    }
  }

  // ----- The service's own replies --------------------------------------------------------------

  /** A decision is written as it is; an existing payment is queried behind REST and taken for an unreachable service behind gRPC, as any internal
      error is; and arguments are the caller's fault. */
  lemma AnswerOwn(cfg: Config, s: State, p: nat, o: T.Order, c: nat)
    requires p in s.procs && s.procs[p] == Awaiting(o, Some(c)) && c in s.pay.calls && s.pay.calls[c].stage.Finished?
    ensures Next(cfg, s, Answered(p, None)) ==
            Go(s, p, match s.pay.calls[c].stage.outcome
                     case Success(row) => Writing(o, if row.status.Authorized? then T.Paid else T.Failed)
                     case Refused(AlreadyExists) => if cfg.adapter.Rest? then Querying(o) else Rereading(o, PaymentUnavailable)
                     case Refused(Internal) => Rereading(o, PaymentUnavailable)
                     case Refused(_) => Finished(Failure(None, InvalidInput)))
  {
    hide Served, Authorize, PostUnavailable, PostRecorded, PostInvalid;
    var outcome := s.pay.calls[c].stage.outcome;
    var reply := Served(cfg.adapter, outcome);
    OwnReplies(outcome, None);
    RepliesReadAs(reply);
    Steps.AnsweredStep(cfg, s, p, o, Some(c), None, reply);
    OwnMeaning(cfg.adapter, outcome);
  }

  lemma OwnMeaning(adapter: Adapter, outcome: P.Outcome)
    ensures var r := Served(adapter, outcome);
      match outcome
      case Success(row) => Carries(r, if row.status.Authorized? then "Authorized" else "Declined")
      case Refused(AlreadyExists) => if adapter.Rest? then PostRecorded(r) else PostUnavailable(r)
      case Refused(Internal) => PostUnavailable(r)
      case Refused(_) => PostInvalid(r)
  {
    OwnReplies(outcome, None);
    hide Served;
  }

  /** The query finds the order's payment and writes what it decided. */
  lemma QueryOwn(cfg: Config, before: seq<Label>, p: nat, o: T.Order)
    requires var s := Exec(cfg, Initial(), before); p in s.procs && s.procs[p] == Querying(o)
    ensures var s := Exec(cfg, Initial(), before);
      exists row :: row in s.pay.rows && row.orderId == o.id &&
        Next(cfg, s, Queried(p, None)) == Go(s, p, Writing(o, if row.status.Authorized? then T.Paid else T.Failed))
  {
    hide Exec, G.PartsFit, G.CallsMatch, G.HistoriesFit, GetStatus, HttpGet, Carries, Next;
    var s := Exec(cfg, Initial(), before);
    G.AlwaysFits(cfg, before);
    assert G.ProcFits(cfg, s, s.procs[p]);
    var found := P.FindRow(s.pay.rows, o.id);
    var reply := Http(HttpGet(found));
    OwnReplies(P.Refused(P.Internal), found);
    RepliesReadAs(reply);
    Steps.QueriedStep(cfg, s, p, o, None, reply);
    OwnStatus(found.value);
  }

  lemma OwnStatus(row: P.Payment)
    ensures Carries(Http(HttpGet(Some(row))), if row.status.Authorized? then "Authorized" else "Declined")
  {
  }

  // ----- Over runs ------------------------------------------------------------------------------

  /** In every run, a retry whose status query meets a deadline, a timeout, a refused connection or one of 500, 502, 503 and 504 returns its order
      with that error, as it is stored or, when it cannot be read, as it was; one whose query meets a reply without a meaning returns
      an error and no order. Neither writes anything. */
  lemma UnansweredQueryReturnsTheOrder(cfg: Config, before: seq<Label>, p: nat, r: Reply, ok: bool)
    ensures var s, t := Exec(cfg, Initial(), before), Exec(cfg, Initial(), before + [Queried(p, Some(r)), Reread(p, ok)]);
      p in s.procs && s.procs[p].Querying? && CanOccur(cfg, r) ==>
        var o := s.procs[p].order;
        o.id in s.db.orders && T.SameOrder(o, s.db.orders[o.id]) &&
        (QueryUnavailable(r) ==>
           t == Go(s, p, Finished(Failure(Some(if ok then s.db.orders[o.id] else o), PaymentUnavailable)))) &&
        (GenericOnQuery(r) ==> t == Go(s, p, Finished(Failure(None, PaymentError))))
  {
    hide Exec, G.PartsFit, G.CallsMatch, G.HistoriesFit, QueryUnavailable, GenericOnQuery, Carries, Next;
    var s, l, m := Exec(cfg, Initial(), before), Queried(p, Some(r)), Reread(p, ok);
    if p in s.procs && s.procs[p].Querying? && CanOccur(cfg, r) {
      var o := s.procs[p].order;
      G.AlwaysFits(cfg, before);
      assert G.ProcFits(cfg, s, s.procs[p]);
      var u := Next(cfg, s, l);
      ExecStep(cfg, Initial(), before, l);
      ExecStep(cfg, Initial(), before + [l], m);
      assert before + [l] + [m] == before + [l, m];
      QueryFaults(cfg, s, p, o, r);
      if QueryUnavailable(r) {
        Steps.RereadStep(cfg, u, p, o, PaymentUnavailable, ok);
      }
      if GenericOnQuery(r) {
        FinishedRests(cfg, u, m);
      }
    }
  }

  lemma FinishedRests(cfg: Config, s: State, l: Label)
    requires l.Reread? && l.proc in s.procs && s.procs[l.proc].Finished?
    ensures Next(cfg, s, l) == s
  {
  }

  /** In every run, a reply without a meaning to the POST marks the order Failed and returns it so with an error; an unreachable service changes
      nothing and the order is returned with that error. */
  lemma UnansweredCallReturnsTheOrder(cfg: Config, before: seq<Label>, p: nat, r: Reply, ok: bool)
    ensures var s := Exec(cfg, Initial(), before);
      p in s.procs && s.procs[p].Awaiting? && CanOccur(cfg, r) ==>
        var o := s.procs[p].order;
        o.id in s.db.orders && T.SameOrder(o, s.db.orders[o.id]) &&
        (PostUnavailable(r) ==>
           Exec(cfg, Initial(), before + [Answered(p, Some(r)), Reread(p, ok)]) ==
           Go(s, p, Finished(Failure(Some(if ok then s.db.orders[o.id] else o), PaymentUnavailable)))) &&
        (GenericOnPost(r) ==>
           var t := Exec(cfg, Initial(), before + [Answered(p, Some(r)), WriteFailed(p, Applied), Reread(p, ok)]);
           t.db.orders == s.db.orders[o.id := s.db.orders[o.id].(status := T.Failed)] && t.pay == s.pay &&
           t.procs == s.procs[p := Finished(Failure(Some(o.(status := T.Failed)), PaymentError))])
  {
    hide Exec, G.HistoriesFit, G.CallsMatch, PostUnavailable, GenericOnPost, Carries, Next, T.TxsFit, T.KeysFit, IsUuid, P.Fits;
    var s, l := Exec(cfg, Initial(), before), Answered(p, Some(r));
    if p in s.procs && s.procs[p].Awaiting? && CanOccur(cfg, r) {
      var o := s.procs[p].order;
      G.AlwaysFits(cfg, before);
      assert G.ProcFits(cfg, s, s.procs[p]);
      var u := Next(cfg, s, l);
      ExecStep(cfg, Initial(), before, l);
      AnswerFaults(cfg, s, p, o, s.procs[p].call, r);
      if PostUnavailable(r) {
        ExecStep(cfg, Initial(), before + [l], Reread(p, ok));
        assert before + [l] + [Reread(p, ok)] == before + [l, Reread(p, ok)];
        Steps.RereadStep(cfg, u, p, o, PaymentUnavailable, ok);
      }
      if GenericOnPost(r) {
        FailsAndReturns(cfg, u, p, o, ok);
        var v := Next(cfg, u, WriteFailed(p, Applied));
        ExecStep(cfg, Initial(), before + [l], WriteFailed(p, Applied));
        ExecStep(cfg, Initial(), before + [l] + [WriteFailed(p, Applied)], Reread(p, ok));
        assert before + [l] + [WriteFailed(p, Applied)] + [Reread(p, ok)] == before + [l, WriteFailed(p, Applied), Reread(p, ok)];
      }
    }
  }

  lemma FailsAndReturns(cfg: Config, s: State, p: nat, o: T.Order, ok: bool)
    requires p in s.procs && s.procs[p] == Failing(o) && T.OrdersFit(s.db) && o.id in s.db.orders && T.SameOrder(o, s.db.orders[o.id])
    ensures var t := Next(cfg, Next(cfg, s, WriteFailed(p, Applied)), Reread(p, ok));
      t.db.orders == s.db.orders[o.id := s.db.orders[o.id].(status := T.Failed)] && t.pay == s.pay &&
      t.procs == s.procs[p := Finished(Failure(Some(o.(status := T.Failed)), PaymentError))]
  {
    hide Next, T.RowFits;
    Steps.WriteFailedStep(cfg, s, p, o, Applied);
    var u := Next(cfg, s, WriteFailed(p, Applied));
    Steps.RereadStep(cfg, u, p, o.(status := T.Failed), PaymentError, ok);
  }

  // ----- Misreadings, code by code --------------------------------------------------------------

  lemma MisreadingIs(cfg: Config, r: Reply)
    ensures G.FailsOnAuthorize(cfg, r) <==> r in cfg.faults && PostMisread(cfg.adapter, r)
    ensures G.FailsOnGetStatus(cfg, r) <==> r in cfg.faults && QueryMisread(cfg.adapter, r)
  {
  }

  /** The condition that decides whether Failed means declined, and whether Paid and Failed exclude each other, can be read off the configured
      faults: a connection reset, an unexpected code below 500, a 200 without a known status, an unexpected gRPC code. */
  lemma MisreadingsAre(cfg: Config)
    ensures G.MisreadingsOccur(cfg) <==> exists r :: r in cfg.faults && (PostMisread(cfg.adapter, r) || QueryMisread(cfg.adapter, r))
  {
    hide PostMisread, QueryMisread, G.FailsOnAuthorize, G.FailsOnGetStatus;
    forall r ensures G.FailsOnAuthorize(cfg, r) || G.FailsOnGetStatus(cfg, r) <==>
                     r in cfg.faults && (PostMisread(cfg.adapter, r) || QueryMisread(cfg.adapter, r)) {
      MisreadingIs(cfg, r);
    }
  }
}
