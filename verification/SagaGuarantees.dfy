/** What every interleaving of creates, retries, cancels, payment calls, faults and crashes keeps. */
module SagaGuarantees {
  import opened Text
  import opened Writes
  import opened PaymentAdapter
  import opened CheckoutSaga
  import T = OrderTransactions
  import P = PaymentProtocol

  /** A reply to Authorize on which the order is marked Failed: a generic error or an unknown status. */
  predicate FailsOnAuthorize(cfg: Config, r: Reply) {
    DisturbsAuthorize(cfg, r) && !Authorize(r).Unavailable?
  }

  /** A reply to the reconcile query, which only REST asks, that is read as an unknown status. */
  predicate FailsOnGetStatus(cfg: Config, r: Reply) {
    cfg.adapter.Rest? && DisturbsGetStatus(cfg, r) && GetStatus(r).Status?
  }

  /** Some reply that can occur claims nothing about the payment and yet marks the order Failed. */
  ghost predicate MisreadingsOccur(cfg: Config) {
    exists r :: FailsOnAuthorize(cfg, r) || FailsOnGetStatus(cfg, r)
  }

  predicate Recorded(s: State, id: string) {
    P.HasRow(s.pay, id, P.Authorized) || P.HasRow(s.pay, id, P.Declined)
  }

  /** The order is stored and differs from this copy in nothing but its status. */
  predicate Known(s: State, o: T.Order) {
    o.id in s.db.orders && T.SameOrder(o, s.db.orders[o.id])
  }

  predicate GoodEmail(email: string) {
    email != "" && TrimSpace(email) == email
  }

  /** A payment call made for a stored order, with the order's stored amount and an address. */
  predicate CallMatches(s: State, c: nat) {
    c in s.pay.calls &&
    var input := s.pay.calls[c].input;
    input.orderId in s.db.orders && input.amount == s.db.orders[input.orderId].amount && GoodEmail(input.email)
  }

  predicate CallsFor(s: State, c: nat, o: T.Order) {
    c in s.pay.calls && s.pay.calls[c].input.orderId == o.id && s.pay.calls[c].input.amount == o.amount
  }

  ghost predicate Backed(cfg: Config, s: State, id: string, status: T.OrderStatus) {
    match status
    case Pending => true
    case Paid => P.HasRow(s.pay, id, P.Authorized)
    case Failed => P.HasRow(s.pay, id, P.Declined) || MisreadingsOccur(cfg)
    case Cancelled => true
  }

  ghost predicate ProcFits(cfg: Config, s: State, proc: Proc) {
    match proc
    case Storing(email) => GoodEmail(email)
    case Calling(o, email) => Known(s, o) && GoodEmail(email)
    case Awaiting(o, call) => Known(s, o) && (call.Some? ==> CallsFor(s, call.value, o))
    case Querying(o) => Known(s, o) && Recorded(s, o.id) && cfg.adapter.Rest?
    case Writing(o, st) => Known(s, o) && Backed(cfg, s, o.id, st) && (st.Paid? || st.Failed?)
    case Failing(o) => Known(s, o) && MisreadingsOccur(cfg)
    case Rereading(o, e) => Known(s, o) && e != RecordMissing
    case Cancelling(_) => true
    case CancelWriting(o) => Known(s, o)
    case Finished(Success(o)) => Known(s, o)
    case Finished(Failure(_, e)) => e != RecordMissing
  }

  ghost predicate ProcsFit(cfg: Config, s: State) {
    forall p :: p in s.procs ==> ProcFits(cfg, s, s.procs[p])
  }

  /** Every status in the history has its reason, and Pending is only the first. */
  ghost predicate StatusesFit(cfg: Config, s: State, id: string, statuses: seq<T.OrderStatus>) {
    forall i :: 0 <= i < |statuses| ==> Backed(cfg, s, id, statuses[i]) && (i > 0 ==> !statuses[i].Pending?)
  }

  ghost predicate HistoriesFit(cfg: Config, s: State) {
    forall id :: id in s.db.history ==> StatusesFit(cfg, s, id, s.db.history[id])
  }

  predicate CallsMatch(cfg: Config, s: State) {
    !cfg.open ==> forall c :: c in s.pay.calls ==> CallMatches(s, c)
  }

  predicate PartsFit(cfg: Config, s: State) {
    T.Fits(cfg.hash, s.db) && P.Fits(s.pay)
  }

  ghost predicate Fits(cfg: Config, s: State) {
    PartsFit(cfg, s) && CallsMatch(cfg, s) && ProcsFit(cfg, s) && HistoriesFit(cfg, s)
  }

  predicate Grows(s: State, t: State) {
    T.Grows(s.db, t.db) && P.Grows(s.pay, t.pay)
  }

  // ----- Facts last -----------------------------------------------------------------------------

  lemma RowsLast(s: State, t: State)
    requires P.Grows(s.pay, t.pay)
    ensures forall o, st :: P.HasRow(s.pay, o, st) ==> P.HasRow(t.pay, o, st)
  {
    hide P.AskedFor, P.EventFits;
    P.EvidenceLasts(s.pay, t.pay);
  }

  lemma ProcLasts(cfg: Config, s: State, t: State, proc: Proc)
    requires Grows(s, t) && ProcFits(cfg, s, proc)
    ensures ProcFits(cfg, t, proc)
  {
    hide P.HasRow, MisreadingsOccur, GoodEmail;
    RowsLast(s, t);
  }

  lemma StatusesLast(cfg: Config, s: State, t: State, id: string, statuses: seq<T.OrderStatus>)
    requires Grows(s, t) && StatusesFit(cfg, s, id, statuses)
    ensures StatusesFit(cfg, t, id, statuses)
  {
    hide P.HasRow, MisreadingsOccur, T.Grows;
    RowsLast(s, t);
  }

  lemma CallLasts(s: State, t: State, c: nat)
    requires Grows(s, t) && CallMatches(s, c)
    ensures CallMatches(t, c)
  {
    hide GoodEmail;
  }

  // ----- Assembling a step ----------------------------------------------------------------------

  /** A step is fine when the parts are, old facts last, and what is new fits. */
  lemma StepFits(cfg: Config, s: State, t: State)
    requires Fits(cfg, s) && PartsFit(cfg, t) && Grows(s, t)
    requires forall p :: p in t.procs ==> (p in s.procs && t.procs[p] == s.procs[p]) || ProcFits(cfg, t, t.procs[p])
    requires forall c :: c in t.pay.calls ==> c in s.pay.calls || cfg.open || CallMatches(t, c)
    requires forall id :: id in t.db.history ==>
               (id in s.db.history && t.db.history[id] == s.db.history[id]) || StatusesFit(cfg, t, id, t.db.history[id])
    ensures Fits(cfg, t)
  {
    hide PartsFit, Grows, ProcFits, StatusesFit, CallMatches;
    forall p | p in t.procs ensures ProcFits(cfg, t, t.procs[p]) {
      if p in s.procs && t.procs[p] == s.procs[p] {
        ProcLasts(cfg, s, t, t.procs[p]);
      }
    }
    forall c | c in t.pay.calls && !cfg.open ensures CallMatches(t, c) {
      if c in s.pay.calls {
        CallLasts(s, t, c);
      }
    }
    forall id | id in t.db.history ensures StatusesFit(cfg, t, id, t.db.history[id]) {
      if id in s.db.history && t.db.history[id] == s.db.history[id] {
        StatusesLast(cfg, s, t, id, t.db.history[id]);
      }
    }
  }

  lemma GrowsFromItself(s: State)
    ensures Grows(s, s)
  {
  }

  /** A step that changes nothing but one process. */
  lemma GoFits(cfg: Config, s: State, p: nat, proc: Proc)
    requires Fits(cfg, s) && ProcFits(cfg, s, proc)
    ensures Fits(cfg, Go(s, p, proc))
  {
    var t := Go(s, p, proc);
    assert Grows(s, t) by { GrowsFromItself(s); SameParts(s, t); }
    ProcMovesOver(cfg, s, t, proc);
    hide PartsFit, Grows, ProcFits, StatusesFit, CallMatches;
    assert PartsFit(cfg, t) by { PartsMoveOver(cfg, s, t); }
    StepFits(cfg, s, t);
  }

  lemma SameParts(s: State, t: State)
    requires Grows(s, s) && t.db == s.db && t.pay == s.pay
    ensures Grows(s, t)
  {
  }

  lemma PartsMoveOver(cfg: Config, s: State, t: State)
    requires PartsFit(cfg, s) && t.db == s.db && t.pay == s.pay
    ensures PartsFit(cfg, t)
  {
  }

  lemma ProcMovesOver(cfg: Config, s: State, t: State, proc: Proc)
    requires ProcFits(cfg, s, proc) && t.db == s.db && t.pay == s.pay
    ensures ProcFits(cfg, t, proc)
  {
    hide P.HasRow, GoodEmail, MisreadingsOccur;
  }

  // ----- Steps of the parts ---------------------------------------------------------------------

  /** A database step other than a status update leaves every history alone or starts one at Pending. */
  lemma QuietHistory(hash: string -> int, db: T.State, l: T.Label, id: string)
    requires T.Fits(hash, db) && !l.UpdateStatus?
    requires id in T.Next(hash, db, l).history
    ensures var h := T.Next(hash, db, l).history[id]; (id in db.history && h == db.history[id]) || h == [T.Pending]
  {
    hide T.OnLock, T.OnLookUp, T.OnLoad, T.OnInsertOrder, T.OnInsertKey, IsUuid, T.TablesFit, T.Uncommitted;
    if !l.Begin? && !l.Abort? && l.tx in db.txs && l.Commit? && db.txs[l.tx].Complete? {
      CompleteIsPending(hash, db, l.tx);
    } else if !l.Begin? && !l.Abort? && l.tx in db.txs {
      QuietStatement(hash, db, l.tx, l);
    }
  }

  lemma CompleteIsPending(hash: string -> int, db: T.State, t: nat)
    requires T.Fits(hash, db) && t in db.txs && db.txs[t].Complete?
    ensures db.txs[t].order.status == T.Pending
  {
    hide T.TablesFit, IsUuid;
    assert T.TxFits(hash, db, t, db.txs[t]);
  }

  lemma QuietStatement(hash: string -> int, db: T.State, t: nat, l: T.Label)
    requires t in db.txs && !(l.Commit? && db.txs[t].Complete?)
    ensures T.TxStep(hash, db, t, db.txs[t], l).history == db.history
  {
    hide T.Keyed, IsUuid, T.NewOrder, T.HoldsKey, T.OnCommitNew;
  }

  lemma DbFits(cfg: Config, s: State, l: T.Label)
    requires Fits(cfg, s) && !l.UpdateStatus?
    ensures var t := s.(db := T.Next(cfg.hash, s.db, l)); Fits(cfg, t) && Grows(s, t)
  {
    hide T.Fits, P.Fits, T.Next, T.Grows, P.Grows, ProcFits, CallMatches, Backed;
    var t := s.(db := T.Next(cfg.hash, s.db, l));
    T.FitsStep(cfg.hash, s.db, l);
    PaymentsGrowFromThemselves(s);
    forall id | id in t.db.history
      ensures (id in s.db.history && t.db.history[id] == s.db.history[id]) || StatusesFit(cfg, t, id, t.db.history[id])
    {
      QuietHistory(cfg.hash, s.db, l, id);
      if t.db.history[id] == [T.Pending] {
        PendingNeedsNothing(cfg, t, id);
      }
    }
    StepFits(cfg, s, t);
  }

  lemma PendingNeedsNothing(cfg: Config, s: State, id: string)
    ensures StatusesFit(cfg, s, id, [T.Pending])
  {
  }

  lemma PaymentsGrowFromThemselves(s: State)
    ensures P.Grows(s.pay, s.pay) && T.Grows(s.db, s.db)
  {
  }

  lemma OnlyBeginCalls(publisher: bool, pay: P.State, l: P.Label, c: nat)
    requires c in P.Next(publisher, pay, l).calls && c !in pay.calls
    ensures l.Begin? && l.call == c && P.Next(publisher, pay, l).calls[c].input == l.input
  {
    hide TrimSpace, IsUuid, P.StageAfterSave, P.Clashes, P.FindRow;
  }

  lemma PayFits(cfg: Config, s: State, l: P.Label)
    requires Fits(cfg, s)
    requires l.Begin? && !cfg.open ==>
               l.input.orderId in s.db.orders && l.input.amount == s.db.orders[l.input.orderId].amount && GoodEmail(l.input.email)
    ensures var t := s.(pay := P.Next(cfg.publisher, s.pay, l)); Fits(cfg, t) && Grows(s, t)
  {
    hide T.Fits, P.Fits, P.Next, T.Grows, P.Grows, ProcFits, StatusesFit, GoodEmail;
    var t := s.(pay := P.Next(cfg.publisher, s.pay, l));
    P.FitsStep(cfg.publisher, s.pay, l);
    PaymentsGrowFromThemselves(s);
    forall c | c in t.pay.calls && c !in s.pay.calls && !cfg.open ensures CallMatches(t, c) {
      OnlyBeginCalls(cfg.publisher, s.pay, l, c);
    }
    StepFits(cfg, s, t);
  }

  lemma SetStatusFits(cfg: Config, s: State, id: string, status: T.OrderStatus, outcome: WriteOutcome)
    requires Fits(cfg, s) && Backed(cfg, s, id, status) && !status.Pending?
    ensures var t := SetStatus(s, id, status, outcome); Fits(cfg, t) && Grows(s, t)
  {
    hide T.Fits, P.Fits, T.Grows, P.Grows, ProcFits, CallMatches, Backed;
    var t := SetStatus(s, id, status, outcome);
    PaymentsGrowFromThemselves(s);
    if t != s {
      T.UpdateStatusFits(cfg.hash, s.db, id, status);
      forall i | i in t.db.history
        ensures (i in s.db.history && t.db.history[i] == s.db.history[i]) || StatusesFit(cfg, t, i, t.db.history[i])
      {
        if i == id && i in s.db.history {
          assert StatusesFit(cfg, s, i, s.db.history[i]);
          StatusesLast(cfg, s, t, i, s.db.history[i]);
          BackedMovesOver(cfg, s, t, id, status);
        }
      }
      StepFits(cfg, s, t);
    }
  }

  lemma BackedMovesOver(cfg: Config, s: State, t: State, id: string, status: T.OrderStatus)
    requires Backed(cfg, s, id, status) && t.pay == s.pay
    ensures Backed(cfg, t, id, status)
  {
  }

  // ----- Steps of the use cases -----------------------------------------------------------------

  lemma CreateFits(cfg: Config, s: State, p: nat, input: Input)
    requires Fits(cfg, s)
    ensures var t := OnCreate(cfg, s, p, input); Fits(cfg, t) && Grows(s, t)
  {
    hide Fits, Grows, T.Next, T.Fits;
    GrowsFromItself(s);
    var t := OnCreate(cfg, s, p, input);
    if p !in s.procs && p !in s.db.txs {
      if ValidInput(input) {
        var u := s.(db := T.Next(cfg.hash, s.db, T.Begin(p, RequestOf(input))));
        DbFits(cfg, s, T.Begin(p, RequestOf(input)));
        TrimFixes(input.email);
        GoFits(cfg, u, p, Storing(TrimSpace(input.email)));
        SameGrowth(s, u, t);
      } else {
        GoFits(cfg, s, p, Finished(Failure(None, InvalidInput)));
        SameGrowth(s, s, t);
      }
    }
  }

  lemma SameGrowth(s: State, u: State, t: State)
    requires Grows(s, u) && t.db == u.db && t.pay == u.pay
    ensures Grows(s, t)
  {
  }

  lemma StoredFits(cfg: Config, s: State, p: nat, email: string)
    requires Fits(cfg, s) && p in s.procs && s.procs[p] == Storing(email)
    ensures Fits(cfg, OnStored(s, p, email))
  {
    hide T.TablesFit, P.Fits, CallMatches, StatusesFit, GoodEmail, IsUuid;
    assert ProcFits(cfg, s, Storing(email));
    if p in s.db.txs {
      assert T.TxFits(cfg.hash, s.db, p, s.db.txs[p]);
      match s.db.txs[p]
      case Returned(_, o) =>
        hide Fits;
        GoFits(cfg, s, p, if o.status.Pending? then Calling(o, email) else Finished(Success(o)));
      case Aborted(_) => GoFits(cfg, s, p, Finished(Failure(None, StoreError)));
      case KeyClash(_) => GoFits(cfg, s, p, Finished(Failure(None, StoreError)));
      case _ =>
    }
  }

  lemma CallFits(cfg: Config, s: State, p: nat, o: T.Order, email: string, call: Option<nat>)
    requires Fits(cfg, s) && p in s.procs && s.procs[p] == Calling(o, email)
    ensures Fits(cfg, OnCall(cfg, s, p, o, email, call)) && Grows(s, OnCall(cfg, s, p, o, email, call))
  {
    hide PartsFit, CallMatches, StatusesFit, GoodEmail, Grows, P.Fits;
    assert ProcFits(cfg, s, Calling(o, email));
    hide Fits;
    GrowsFromItself(s);
    match call
    case None =>
      GoFits(cfg, s, p, Awaiting(o, None));
      SameGrowth(s, s, OnCall(cfg, s, p, o, email, call));
    case Some(c) =>
      if c !in s.pay.calls {
        var l := P.Begin(c, P.Input(o.id, o.amount, email));
        var u := s.(pay := P.Next(cfg.publisher, s.pay, l));
        PayFits(cfg, s, l);
        assert CallsFor(u, c, o);
        GoFits(cfg, u, p, Awaiting(o, call));
        SameGrowth(s, u, OnCall(cfg, s, p, o, email, call));
      }
  }

  lemma FoundRow(s: State, id: string)
    requires P.Fits(s.pay) && Recorded(s, id)
    ensures var row := P.FindRow(s.pay.rows, id); row.Some? && P.HasRow(s.pay, id, row.value.status)
  {
    hide P.Fits, P.FindRow;
  }

  lemma AnsweredFits(cfg: Config, s: State, p: nat, o: T.Order, call: Option<nat>, fault: Option<Reply>)
    requires Fits(cfg, s) && p in s.procs && s.procs[p] == Awaiting(o, call)
    ensures Fits(cfg, OnAnswered(cfg, s, p, o, call, fault))
  {
    hide T.Fits, P.RowsFit, P.EventsFit, CallMatches, StatusesFit, GoodEmail, TrimSpace, T.SameOrder;
    assert ProcFits(cfg, s, Awaiting(o, call));
    match fault
    case Some(r) =>
      if DisturbsAuthorize(cfg, r) {
        var next := AfterAuthorize(o, Authorize(r));
        assert next.Failing? || next.Writing? ==> FailsOnAuthorize(cfg, r);
        assert ProcFits(cfg, s, next);
        GoFits(cfg, s, p, next);
      }
    case None =>
      if call.Some? && call.value in s.pay.calls && s.pay.calls[call.value].stage.Finished? {
        assert P.CallFits(s.pay, s.pay.calls[call.value]);
        ServedFits(cfg, s, o, s.pay.calls[call.value]);
        hide Fits, ProcFits;
        GoFits(cfg, s, p, AfterAuthorize(o, Authorize(Served(cfg.adapter, s.pay.calls[call.value].stage.outcome))));
      }
  }

  lemma ServedFits(cfg: Config, s: State, o: T.Order, call: P.Call)
    requires Known(s, o) && P.CallFits(s.pay, call) && call.stage.Finished? && call.input.orderId == o.id
    ensures ProcFits(cfg, s, AfterAuthorize(o, Authorize(Served(cfg.adapter, call.stage.outcome))))
  {
    hide GoodEmail, TrimSpace, MisreadingsOccur, Known;
    match call.stage.outcome
    case Success(p) => assert P.HasRow(s.pay, o.id, p.status);
    case Refused(_) =>
  }

  lemma QueryNoiseFits(cfg: Config, s: State, o: T.Order, r: Reply)
    requires Known(s, o) && cfg.adapter.Rest? && DisturbsGetStatus(cfg, r)
    ensures ProcFits(cfg, s, AfterGetStatus(o, GetStatus(r)))
  {
    hide Known, GetStatus;
    assert GetStatus(r).Status? ==> FailsOnGetStatus(cfg, r);
  }

  lemma QueriedFits(cfg: Config, s: State, p: nat, o: T.Order, fault: Option<Reply>)
    requires Fits(cfg, s) && p in s.procs && s.procs[p] == Querying(o)
    ensures Fits(cfg, OnQueried(cfg, s, p, o, fault))
  {
    hide T.Fits, P.Fits, CallMatches, StatusesFit, GoodEmail, TrimSpace, T.SameOrder, MisreadingsOccur, P.HasRow, P.FindRow;
    assert ProcFits(cfg, s, Querying(o));
    match fault
    case Some(r) =>
      if DisturbsGetStatus(cfg, r) {
        QueryNoiseFits(cfg, s, o, r);
        GoFits(cfg, s, p, AfterGetStatus(o, GetStatus(r)));
      }
    case None =>
      FoundRow(s, o.id);
      GoFits(cfg, s, p, AfterGetStatus(o, GetStatus(Http(HttpGet(P.FindRow(s.pay.rows, o.id))))));
  }

  lemma WritingFits(cfg: Config, s: State, p: nat, o: T.Order, status: T.OrderStatus, outcome: WriteOutcome, next: Proc)
    requires Fits(cfg, s) && Known(s, o) && Backed(cfg, s, o.id, status) && !status.Pending?
    requires next == Rereading(o.(status := status), PaymentError) || next == Finished(Failure(None, StoreError)) ||
             next == Finished(Success(o.(status := status)))
    ensures var t := Go(SetStatus(s, o.id, status, outcome), p, next); Fits(cfg, t)
  {
    hide Fits, Backed;
    var u := SetStatus(s, o.id, status, outcome);
    SetStatusFits(cfg, s, o.id, status, outcome);
    assert Known(u, o.(status := status));
    GoFits(cfg, u, p, next);
  }

  lemma WriteFits(cfg: Config, s: State, p: nat, o: T.Order, status: T.OrderStatus, outcome: WriteOutcome)
    requires Fits(cfg, s) && p in s.procs && s.procs[p] == Writing(o, status)
    ensures Fits(cfg, OnWrite(s, p, o, status, outcome))
  {
    hide PartsFit, CallsMatch, HistoriesFit, Known, Backed, SetStatus;
    assert ProcFits(cfg, s, Writing(o, status));
    hide Fits, ProcFits;
    WritingFits(cfg, s, p, o, status, outcome, OnWrite(s, p, o, status, outcome).procs[p]);
  }

  lemma WriteFailedFits(cfg: Config, s: State, p: nat, o: T.Order, outcome: WriteOutcome)
    requires Fits(cfg, s) && p in s.procs && s.procs[p] == Failing(o)
    ensures Fits(cfg, OnWriteFailed(s, p, o, outcome))
  {
    hide PartsFit, CallsMatch, HistoriesFit, Known, MisreadingsOccur, SetStatus;
    assert ProcFits(cfg, s, Failing(o));
    hide Fits, ProcFits;
    WritingFits(cfg, s, p, o, T.Failed, outcome, Rereading(o.(status := T.Failed), PaymentError));
  }

  lemma RereadFits(cfg: Config, s: State, p: nat, o: T.Order, error: Error, ok: bool)
    requires Fits(cfg, s) && p in s.procs && s.procs[p] == Rereading(o, error) && error != RecordMissing
    ensures Fits(cfg, OnReread(s, p, o, error, ok))
  {
    hide Fits;
    GoFits(cfg, s, p, OnReread(s, p, o, error, ok).procs[p]);
  }

  lemma CancelWriteFits(cfg: Config, s: State, p: nat, o: T.Order, outcome: WriteOutcome)
    requires Fits(cfg, s) && p in s.procs && s.procs[p] == CancelWriting(o)
    ensures Fits(cfg, OnCancelWrite(s, p, o, outcome))
  {
    hide PartsFit, CallsMatch, HistoriesFit, Known, SetStatus;
    assert ProcFits(cfg, s, CancelWriting(o));
    hide Fits, ProcFits;
    WritingFits(cfg, s, p, o, T.Cancelled, outcome, OnCancelWrite(s, p, o, outcome).procs[p]);
  }

  lemma RereadErrorIsNotMissing(cfg: Config, s: State, p: nat)
    requires Fits(cfg, s) && p in s.procs && s.procs[p].Rereading?
    ensures s.procs[p].error != RecordMissing
  {
    hide PartsFit, CallsMatch, HistoriesFit, Known;
    assert ProcFits(cfg, s, s.procs[p]);
  }

  lemma ProcStepFits(cfg: Config, s: State, p: nat, l: Label)
    requires Fits(cfg, s) && p in s.procs
    ensures Fits(cfg, ProcStep(cfg, s, p, s.procs[p], l))
  {
    hide Fits, OnStored, OnCall, OnAnswered, OnQueried, OnWrite, OnWriteFailed, OnReread, OnCancelRead, OnCancelWrite;
    match s.procs[p]
    case Storing(email) =>
      if l.Stored? {
        StoredFits(cfg, s, p, email);
      }
    case Calling(o, email) =>
      if l.Call? {
        CallFits(cfg, s, p, o, email, l.call);
      }
    case Awaiting(o, call) =>
      if l.Answered? {
        AnsweredFits(cfg, s, p, o, call, l.fault);
      }
    case Querying(o) =>
      if l.Queried? {
        QueriedFits(cfg, s, p, o, l.fault);
      }
    case Writing(o, status) =>
      if l.Write? {
        WriteFits(cfg, s, p, o, status, l.outcome);
      }
    case Failing(o) =>
      if l.WriteFailed? {
        WriteFailedFits(cfg, s, p, o, l.outcome);
      }
    case Rereading(o, error) =>
      if l.Reread? {
        RereadErrorIsNotMissing(cfg, s, p);
        RereadFits(cfg, s, p, o, error, l.ok);
      }
    case Cancelling(id) =>
      if l.CancelRead? {
        CancelReadFits(cfg, s, p, id, l.ok);
      }
    case CancelWriting(o) =>
      if l.CancelWrite? {
        CancelWriteFits(cfg, s, p, o, l.outcome);
      }
    case Finished(_) =>
  }

  lemma CancelReadFits(cfg: Config, s: State, p: nat, id: string, ok: bool)
    requires Fits(cfg, s)
    ensures Fits(cfg, OnCancelRead(s, p, id, ok))
  {
    hide P.Fits, CallsMatch, HistoriesFit, ProcsFit, T.TxsFit, IsUuid, T.KeysFit;
    if id in s.db.orders {
      assert T.RowFits(s.db.used, id, s.db.orders[id], s.db.history[id]);
    }
    var next := OnCancelRead(s, p, id, ok).procs[p];
    assert ProcFits(cfg, s, next);
    GoFits(cfg, s, p, next);
  }

  lemma FitsStep(cfg: Config, s: State, l: Label)
    requires Fits(cfg, s)
    ensures Fits(cfg, Next(cfg, s, l))
  {
    hide Fits, OnCreate, ProcStep, T.Next, P.Next;
    match l
    case Create(p, input) => CreateFits(cfg, s, p, input);
    case Cancel(p, id) =>
      if p !in s.procs {
        GoFits(cfg, s, p, Cancelling(id));
      }
    case Db(d) =>
      if !d.Begin? && !d.UpdateStatus? {
        DbFits(cfg, s, d);
      }
    case Pay(q) =>
      if !(q.Begin? && !cfg.open) {
        PayFits(cfg, s, q);
      }
    case Crash(p) =>
      if p in s.procs && !s.procs[p].Finished? {
        DbFits(cfg, s, T.Abort(p));
        GoFits(cfg, s.(db := T.Next(cfg.hash, s.db, T.Abort(p))), p, Finished(Failure(None, Crashed)));
      }
    case _ =>
      if l.proc in s.procs {
        ProcStepFits(cfg, s, l.proc, l);
      }
  }

  lemma {:induction false} AlwaysFits(cfg: Config, trace: seq<Label>)
    ensures Fits(cfg, Exec(cfg, Initial(), trace))
  {
    hide Next;
    if trace != [] {
      AlwaysFits(cfg, trace[..|trace| - 1]);
      hide Fits;
      FitsStep(cfg, Exec(cfg, Initial(), trace[..|trace| - 1]), trace[|trace| - 1]);
    }
  }
}
