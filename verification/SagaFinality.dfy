/** When a settled order can still change: exactly while some process holds what it read before. */
module SagaFinality {
  import opened Text
  import opened Writes
  import opened PaymentAdapter
  import opened CheckoutSaga
  import T = OrderTransactions
  import P = PaymentProtocol
  import G = SagaGuarantees

  /** Stored, and Paid, Failed or Cancelled. */
  predicate Settled(s: State, id: string) {
    id in s.db.orders && id in s.db.history && !s.db.orders[id].status.Pending?
  }

  predicate AboutToCancel(proc: Proc, id: string) {
    proc.CancelWriting? && proc.order.id == id
  }

  /** A cancel has read the order as Pending and is about to write. */
  predicate CancelInHand(s: State, id: string) {
    exists p :: p in s.procs && AboutToCancel(s.procs[p], id)
  }

  /** A transaction that returns, or has returned, this order as Pending. */
  predicate TxHolds(tx: T.Tx, id: string) {
    match tx
    case Loaded(_, o) => o.id == id && o.status.Pending?
    case Returned(_, o) => o.id == id && o.status.Pending?
    case _ => false
  }

  /** The process, past its transaction, has read the order as Pending and has not written yet. */
  predicate InHand(proc: Proc, id: string) {
    match proc
    case Calling(o, _) => o.id == id
    case Awaiting(o, _) => o.id == id
    case Querying(o) => o.id == id
    case Writing(o, _) => o.id == id
    case Failing(o) => o.id == id
    case CancelWriting(o) => o.id == id
    case _ => false
  }

  /** Process p has read the order as Pending and has not written yet. */
  predicate Holds(s: State, p: nat, id: string) {
    p in s.procs &&
    if s.procs[p].Storing? then p in s.db.txs && TxHolds(s.db.txs[p], id) else InHand(s.procs[p], id)
  }

  ghost predicate AtRest(s: State, id: string) {
    forall p :: !Holds(s, p, id)
  }

  // ----- Steps ----------------------------------------------------------------------------------

  lemma LastIsStatus(cfg: Config, s: State, id: string)
    requires G.Fits(cfg, s) && id in s.db.orders
    ensures id in s.db.history && s.db.history[id] != [] && s.db.orders[id].id == id &&
            s.db.history[id][|s.db.history[id]| - 1] == s.db.orders[id].status
  {
    hide P.Fits, G.CallsMatch, G.ProcsFit, G.HistoriesFit, T.TxsFit, T.KeysFit, IsUuid;
    assert T.RowFits(s.db.used, id, s.db.orders[id], s.db.history[id]);
  }

  /** A transaction's statement leaves a settled order alone. */
  lemma DbKeepsHistory(cfg: Config, s: State, d: T.Label, id: string)
    requires G.Fits(cfg, s) && G.Fits(cfg, s.(db := T.Next(cfg.hash, s.db, d))) && Settled(s, id) && !d.UpdateStatus?
    ensures var t := s.(db := T.Next(cfg.hash, s.db, d)); Settled(t, id) && t.db.history[id] == s.db.history[id]
  {
    hide G.Fits, T.Next, T.Fits, T.SameOrder;
    FitsOfDb(cfg, s);
    T.FitsStep(cfg.hash, s.db, d);
    var t := s.(db := T.Next(cfg.hash, s.db, d));
    G.QuietHistory(cfg.hash, s.db, d, id);
    LastIsStatus(cfg, s, id);
    LastIsStatus(cfg, t, id);
  }

  lemma FitsOfDb(cfg: Config, s: State)
    requires G.Fits(cfg, s)
    ensures T.Fits(cfg.hash, s.db)
  {
    hide P.Fits, T.Fits, G.CallsMatch, G.ProcsFit, G.HistoriesFit;
  }

  /** Transaction t moves to tx, and the others stay where they are. */
  predicate Only(db: T.State, u: T.State, t: nat) {
    t in u.txs && u.txs == db.txs[t := u.txs[t]]
  }

  lemma FinishTxs(db: T.State, t: nat, tx: T.Tx)
    ensures T.Finish(db, t, tx).txs == db.txs[t := tx]
  {
  }

  lemma LockOnly(hash: string -> int, db: T.State, t: nat, req: T.Request)
    requires t in db.txs
    ensures Only(db, T.OnLock(hash, db, t, req), t)
  {
    hide T.Keyed;
  }

  lemma ReadsOnly(db: T.State, t: nat, req: T.Request, id: string)
    ensures T.Keyed(req) ==> Only(db, T.OnLookUp(db, t, req), t)
    ensures Only(db, T.OnLoad(db, t, req, id), t)
  {
    hide T.Finish;
    FinishTxs(db, t, T.Aborted(req));
  }

  lemma InsertsOnly(db: T.State, t: nat, req: T.Request, id: string, at: int, order: T.Order)
    requires t in db.txs
    ensures Only(db, T.OnInsertOrder(db, t, req, id, at), t)
    ensures Only(db, T.OnInsertKey(db, t, req, order), t)
  {
    hide T.Finish, T.HoldsKey, T.NewOrder;
    FinishTxs(db.(used := db.used + {id}), t, T.Aborted(req));
  }

  lemma CommitOnly(db: T.State, t: nat, req: T.Request, order: T.Order, outcome: WriteOutcome)
    ensures Only(db, T.OnCommitNew(db, t, req, order, outcome), t)
  {
    hide T.Finish, T.Keyed;
    FinishTxs(db, t, T.Aborted(req));
    FinishTxs(T.Committed(db, req, order), t, if outcome.Applied? then T.Returned(req, order) else T.Aborted(req));
  }

  lemma StepOnly(hash: string -> int, db: T.State, t: nat, d: T.Label)
    requires t in db.txs
    ensures Only(db, T.TxStep(hash, db, t, db.txs[t], d), t)
  {
    hide T.OnLock, T.OnLookUp, T.OnLoad, T.OnInsertOrder, T.OnInsertKey, T.OnCommitNew, T.Finish, IsUuid, T.Keyed;
    match db.txs[t]
    case Opened(req) => LockOnly(hash, db, t, req);
    case Locked(req) => ReadsOnly(db, t, req, "");
    case Found(req, id) => ReadsOnly(db, t, req, id);
    case Loaded(req, order) =>
      FinishTxs(db, t, T.Returned(req, order));
      FinishTxs(db, t, T.Aborted(req));
    case Unlinked(req) =>
      if d.InsertOrder? {
        InsertsOnly(db, t, req, d.id, d.at, T.NewOrder(req, d.id, d.at));
      }
    case Inserted(req, order) => InsertsOnly(db, t, req, "", 0, order);
    case Complete(req, order) =>
      if d.Commit? {
        CommitOnly(db, t, req, order, d.outcome);
      }
    case _ =>
  }

  /** What a label makes of transaction p: it is new, or over, or as it was, or one step on. */
  lemma TxAfter(hash: string -> int, db: T.State, d: T.Label, p: nat)
    requires !d.UpdateStatus? && p in T.Next(hash, db, d).txs
    ensures T.Next(hash, db, d).txs[p].Opened? || T.Next(hash, db, d).txs[p].Aborted? || p in db.txs
    ensures p in db.txs ==>
      var tx, u := T.Next(hash, db, d).txs[p], T.TxStep(hash, db, p, db.txs[p], d);
      tx.Opened? || tx.Aborted? || tx == db.txs[p] || (p in u.txs && tx == u.txs[p])
  {
    hide T.TxStep, T.Finish;
    if d.Begin? {
    } else if d.Abort? {
      if d.tx in db.txs {
        FinishTxs(db, d.tx, T.Aborted(db.txs[d.tx].req));
      }
    } else if d.tx in db.txs {
      StepOnly(hash, db, d.tx, d);
    }
  }

  lemma FoundComesToHold(hash: string -> int, db: T.State, d: T.Label, p: nat, id: string)
    requires T.OrdersFit(db) && p in db.txs && db.txs[p].Found? && id in db.orders && !db.orders[id].status.Pending?
    requires p in T.TxStep(hash, db, p, db.txs[p], d).txs
    ensures !TxHolds(T.TxStep(hash, db, p, db.txs[p], d).txs[p], id)
  {
    hide IsUuid;
    var x := db.txs[p].id;
    if x in db.orders {
      assert T.RowFits(db.used, x, db.orders[x], db.history[x]);
    }
  }

  lemma CompleteComesToHold(hash: string -> int, db: T.State, d: T.Label, p: nat, id: string)
    requires p in db.txs && db.txs[p].Complete? && T.TxFits(hash, db, p, db.txs[p]) && id in db.orders
    requires p in T.TxStep(hash, db, p, db.txs[p], d).txs
    ensures !TxHolds(T.TxStep(hash, db, p, db.txs[p], d).txs[p], id)
  {
    hide IsUuid, T.LockHeld, T.Keyed;
  }

  lemma LoadedComesToHold(hash: string -> int, db: T.State, d: T.Label, p: nat, id: string)
    requires p in db.txs && db.txs[p].Loaded?
    requires p in T.TxStep(hash, db, p, db.txs[p], d).txs && TxHolds(T.TxStep(hash, db, p, db.txs[p], d).txs[p], id)
    ensures TxHolds(db.txs[p], id)
  {
    hide T.Finish;
    FinishTxs(db, p, T.Returned(db.txs[p].req, db.txs[p].order));
    FinishTxs(db, p, T.Aborted(db.txs[p].req));
  }

  lemma LockHoldsNothing(hash: string -> int, db: T.State, d: T.Label, p: nat, id: string)
    requires p in db.txs && (db.txs[p].Opened? || db.txs[p].Locked?)
    requires p in T.TxStep(hash, db, p, db.txs[p], d).txs
    ensures !TxHolds(T.TxStep(hash, db, p, db.txs[p], d).txs[p], id)
  {
    hide T.Keyed, T.OnInsertKey, T.OnInsertOrder, T.OnCommitNew, T.OnLoad;
  }

  lemma KeyHoldsNothing(hash: string -> int, db: T.State, d: T.Label, p: nat, id: string)
    requires p in db.txs && db.txs[p].Inserted?
    requires p in T.TxStep(hash, db, p, db.txs[p], d).txs
    ensures !TxHolds(T.TxStep(hash, db, p, db.txs[p], d).txs[p], id)
  {
    hide T.Keyed, T.HoldsKey, T.OnLock, T.OnLookUp, T.OnInsertOrder, T.OnCommitNew, T.OnLoad;
  }

  lemma UnlinkedHoldsNothing(hash: string -> int, db: T.State, d: T.Label, p: nat, id: string)
    requires p in db.txs && db.txs[p].Unlinked?
    requires p in T.TxStep(hash, db, p, db.txs[p], d).txs
    ensures !TxHolds(T.TxStep(hash, db, p, db.txs[p], d).txs[p], id)
  {
    hide IsUuid, T.NewOrder, T.Finish;
    if d.InsertOrder? {
      FinishTxs(db.(used := db.used + {d.id}), p, T.Aborted(db.txs[p].req));
    }
  }

  lemma OtherwiseComesToHold(hash: string -> int, db: T.State, d: T.Label, p: nat, id: string)
    requires p in db.txs && !db.txs[p].Found? && !db.txs[p].Complete?
    requires p in T.TxStep(hash, db, p, db.txs[p], d).txs && TxHolds(T.TxStep(hash, db, p, db.txs[p], d).txs[p], id)
    ensures TxHolds(db.txs[p], id)
  {
    if db.txs[p].Loaded? {
      hide T.TxStep;
      LoadedComesToHold(hash, db, d, p, id);
    } else if db.txs[p].Unlinked? {
      hide T.TxStep;
      UnlinkedHoldsNothing(hash, db, d, p, id);
    } else if db.txs[p].Opened? || db.txs[p].Locked? {
      hide T.TxStep;
      LockHoldsNothing(hash, db, d, p, id);
    } else if db.txs[p].Inserted? {
      hide T.TxStep;
      KeyHoldsNothing(hash, db, d, p, id);
    } else {
      hide T.OnLock, T.OnLookUp, T.OnLoad, T.OnInsertOrder, T.OnInsertKey, T.OnCommitNew;
    }
  }

  /** A transaction never comes to hold a settled order as Pending. */
  lemma TxComesToHold(hash: string -> int, db: T.State, d: T.Label, p: nat, id: string)
    requires T.Fits(hash, db) && !d.UpdateStatus? && id in db.orders && !db.orders[id].status.Pending?
    requires p in T.Next(hash, db, d).txs && TxHolds(T.Next(hash, db, d).txs[p], id)
    ensures p in db.txs && TxHolds(db.txs[p], id)
  {
    hide T.KeysFit, T.OrdersFit, T.TxFits, T.Next, T.TxStep;
    TxAfter(hash, db, d, p);
    assert T.TxFits(hash, db, p, db.txs[p]) && T.OrdersFit(db);
    if T.Next(hash, db, d).txs[p] != db.txs[p] {
      StepOnly(hash, db, p, d);
      if db.txs[p].Found? {
        FoundComesToHold(hash, db, d, p, id);
      } else if db.txs[p].Complete? {
        CompleteComesToHold(hash, db, d, p, id);
      } else {
        OtherwiseComesToHold(hash, db, d, p, id);
      }
    }
  }

  /** An answer leaves the process with the order it asked for. */
  lemma AnswersKeepOrder(o: T.Order, a: Answer, id: string)
    ensures InHand(AfterAuthorize(o, a), id) ==> o.id == id
    ensures InHand(AfterGetStatus(o, a), id) ==> o.id == id
    ensures !AfterAuthorize(o, a).Storing? && !AfterGetStatus(o, a).Storing?
    ensures !AboutToCancel(AfterAuthorize(o, a), id) && !AboutToCancel(AfterGetStatus(o, a), id)
  {
  }

  lemma StoredKeepsOrder(s: State, p: nat, email: string, id: string)
    requires p in s.procs && s.procs[p] == Storing(email) && Holds(OnStored(s, p, email), p, id)
    ensures Holds(s, p, id)
  {
  }

  /** A cancel goes on with a Pending order only. */
  lemma CancelReadHolds(cfg: Config, s: State, p: nat, x: string, ok: bool, id: string)
    requires G.Fits(cfg, s) && id in s.db.orders && !s.db.orders[id].status.Pending?
    ensures var t := OnCancelRead(s, p, x, ok); !Holds(t, p, id) && !AboutToCancel(t.procs[p], id)
  {
    hide G.Fits;
    if x in s.db.orders {
      LastIsStatus(cfg, s, x);
    }
  }

  /** What a process becomes holds the order only if the process held it. */
  lemma ProcComesToHold(cfg: Config, s: State, p: nat, l: Label, id: string)
    requires G.Fits(cfg, s) && p in s.procs && id in s.db.orders && !s.db.orders[id].status.Pending?
    requires Holds(ProcStep(cfg, s, p, s.procs[p], l), p, id)
    ensures Holds(s, p, id)
  {
    hide G.Fits, P.Next, P.FindRow, AfterAuthorize, AfterGetStatus, Authorize, GetStatus, Served, HttpGet, DisturbsAuthorize, DisturbsGetStatus,
      OnStored, OnCancelRead, SetStatus;
    match s.procs[p]
    case Storing(email) =>
      if l.Stored? {
        StoredKeepsOrder(s, p, email, id);
      }
    case Awaiting(o, _) =>
      forall a ensures !AfterAuthorize(o, a).Storing? && (InHand(AfterAuthorize(o, a), id) ==> o.id == id) {
        AnswersKeepOrder(o, a, id);
      }
    case Querying(o) =>
      forall a ensures !AfterGetStatus(o, a).Storing? && (InHand(AfterGetStatus(o, a), id) ==> o.id == id) {
        AnswersKeepOrder(o, a, id);
      }
    case Cancelling(x) =>
      if l.CancelRead? {
        CancelReadHolds(cfg, s, p, x, l.ok, id);
      }
    case _ =>
  }

  lemma SetStatusTouches(s: State, id: string, status: T.OrderStatus, outcome: WriteOutcome)
    ensures SetStatus(s, id, status, outcome).procs == s.procs && SetStatus(s, id, status, outcome).db.txs == s.db.txs
  {
  }

  lemma StoredTouches(s: State, p: nat, email: string)
    ensures OnStored(s, p, email).db == s.db && (OnStored(s, p, email) == s || OnStored(s, p, email).procs == s.procs[p := OnStored(s, p, email).procs[p]])
  {
  }

  /** A process touches no other process, no transaction, and no payment of its own accord. */
  lemma ProcTouches(cfg: Config, s: State, p: nat, l: Label)
    requires p in s.procs
    ensures var t := ProcStep(cfg, s, p, s.procs[p], l);
      t.procs.Keys == s.procs.Keys && (forall q :: q in s.procs && q != p ==> t.procs[q] == s.procs[q]) && t.db.txs == s.db.txs
  {
    hide P.Next, P.FindRow, AfterAuthorize, AfterGetStatus, Authorize, GetStatus, Served, HttpGet, DisturbsAuthorize, DisturbsGetStatus,
      SetStatus, OnStored;
    match s.procs[p]
    case Storing(email) => StoredTouches(s, p, email);
    case Writing(o, status) =>
      if l.Write? {
        SetStatusTouches(s, o.id, status, l.outcome);
      }
    case Failing(o) =>
      if l.WriteFailed? {
        SetStatusTouches(s, o.id, T.Failed, l.outcome);
      }
    case CancelWriting(o) =>
      if l.CancelWrite? {
        SetStatusTouches(s, o.id, T.Cancelled, l.outcome);
      }
    case _ =>
  }

  /** Whatever the writing process was told, its write is its last. */
  lemma WriteIsOwn(s: State, p: nat, o: T.Order, status: T.OrderStatus, outcome: WriteOutcome, next: Proc, id: string)
    requires p in s.procs && Holds(s, p, o.id) && Mine(s.procs[p], status) && id in s.db.orders && id in s.db.history
    requires next.Finished? || next.Rereading?
    ensures Wrote(s, Go(SetStatus(s, o.id, status, outcome), p, next), p, id)
  {
    hide TxHolds, Mine;
    var t := Go(SetStatus(s, o.id, status, outcome), p, next);
    if !outcome.Rejected? && o.id == id {
      assert Mine(s.procs[p], status) && Appended(s, t, id, status);
    }
  }

  /** The order is as it was, or p, which held it, has written its status and holds it no more. */
  predicate Wrote(s: State, t: State, p: nat, id: string) {
    id in s.db.orders && id in s.db.history && id in t.db.orders && id in t.db.history && p in s.procs &&
    ((t.db.history[id] == s.db.history[id] && t.db.orders[id] == s.db.orders[id]) ||
     (Holds(s, p, id) && !Holds(t, p, id) && exists status :: Mine(s.procs[p], status) && Appended(s, t, id, status)))
  }

  predicate Appended(s: State, t: State, id: string, status: T.OrderStatus) {
    id in s.db.orders && id in s.db.history && id in t.db.orders && id in t.db.history &&
    t.db.history[id] == s.db.history[id] + [status] && t.db.orders[id] == s.db.orders[id].(status := status)
  }

  lemma WriterWrites(cfg: Config, s: State, p: nat, l: Label, id: string)
    requires p in s.procs && id in s.db.orders && id in s.db.history
    requires match s.procs[p]
      case Writing(o, status) => Mine(s.procs[p], status) && Holds(s, p, o.id)
      case Failing(o) => Mine(s.procs[p], T.Failed) && Holds(s, p, o.id)
      case CancelWriting(o) => Mine(s.procs[p], T.Cancelled) && Holds(s, p, o.id)
      case _ => false
    ensures Wrote(s, ProcStep(cfg, s, p, s.procs[p], l), p, id)
  {
    hide Wrote, SetStatus, Mine, Holds, Told, OnStored, OnCall, OnAnswered, OnQueried, OnReread, OnCancelRead;
    Unwritten(s, p, id);
    match s.procs[p]
    case Writing(o, status) =>
      if l.Write? {
        WriteIsOwn(s, p, o, status, l.outcome, OnWrite(s, p, o, status, l.outcome).procs[p], id);
      }
    case Failing(o) =>
      if l.WriteFailed? {
        WriteIsOwn(s, p, o, T.Failed, l.outcome, OnWriteFailed(s, p, o, l.outcome).procs[p], id);
      }
    case CancelWriting(o) =>
      if l.CancelWrite? {
        WriteIsOwn(s, p, o, T.Cancelled, l.outcome, OnCancelWrite(s, p, o, l.outcome).procs[p], id);
      }
  }

  lemma ProcWrites(cfg: Config, s: State, p: nat, l: Label, id: string)
    requires G.Fits(cfg, s) && p in s.procs && id in s.db.orders && id in s.db.history
    ensures Wrote(s, ProcStep(cfg, s, p, s.procs[p], l), p, id)
  {
    hide ProcStep, Holds, Mine, G.Fits;
    if s.procs[p].Writing? || s.procs[p].Failing? || s.procs[p].CancelWriting? {
      WritingIsMine(cfg, s, p);
      hide Wrote;
      WriterWrites(cfg, s, p, l, id);
    } else {
      QuietProc(cfg, s, p, l);
    }
  }

  lemma Unwritten(s: State, p: nat, id: string)
    requires p in s.procs && id in s.db.orders && id in s.db.history
    ensures Wrote(s, s, p, id)
  {
    hide Holds, Mine;
  }

  lemma QuietProc(cfg: Config, s: State, p: nat, l: Label)
    requires p in s.procs && !s.procs[p].Writing? && !s.procs[p].Failing? && !s.procs[p].CancelWriting?
    ensures ProcStep(cfg, s, p, s.procs[p], l).db == s.db
  {
    hide P.Next, P.FindRow, AfterAuthorize, AfterGetStatus, Authorize, GetStatus, Served, HttpGet, DisturbsAuthorize, DisturbsGetStatus;
  }

  lemma WritingIsMine(cfg: Config, s: State, p: nat)
    requires G.Fits(cfg, s) && p in s.procs
    ensures s.procs[p].Writing? ==> Mine(s.procs[p], s.procs[p].status) && Holds(s, p, s.procs[p].order.id)
    ensures s.procs[p].Failing? ==> Mine(s.procs[p], T.Failed) && Holds(s, p, s.procs[p].order.id)
    ensures s.procs[p].CancelWriting? ==> Mine(s.procs[p], T.Cancelled) && Holds(s, p, s.procs[p].order.id)
  {
    hide G.PartsFit, G.CallsMatch, G.HistoriesFit, G.Known, G.Backed, TxHolds;
    assert G.ProcFits(cfg, s, s.procs[p]);
  }

  /** The status that a process is about to write. */
  predicate Mine(proc: Proc, status: T.OrderStatus) {
    (proc.Writing? && proc.status == status && (status.Paid? || status.Failed?)) ||
    (proc.Failing? && status.Failed?) || (proc.CancelWriting? && status.Cancelled?)
  }

  // ----- Every step -----------------------------------------------------------------------------

  /** Process p, which held the order, has written the status it was about to write. */
  predicate Overwrote(s: State, t: State, p: nat, id: string, status: T.OrderStatus) {
    p in s.procs && Holds(s, p, id) && !Holds(t, p, id) && Mine(s.procs[p], status) && Appended(s, t, id, status)
  }

  ghost predicate Unmoved(s: State, t: State, id: string) {
    Settled(s, id) && Settled(t, id) && t.db.history[id] == s.db.history[id]
  }

  /** Nobody comes to hold a settled order, and it stays settled; it changes only by the write of one who held it. */
  ghost predicate Kept(s: State, t: State, id: string) {
    Settled(t, id) && (forall q :: Holds(t, q, id) ==> Holds(s, q, id)) &&
    (CancelInHand(t, id) ==> CancelInHand(s, id)) &&
    (Unmoved(s, t, id) || exists p, status :: Overwrote(s, t, p, id, status))
  }

  lemma ProcComesToCancel(cfg: Config, s: State, p: nat, l: Label, id: string, t: State)
    requires G.Fits(cfg, s) && p in s.procs && id in s.db.orders && !s.db.orders[id].status.Pending?
    requires t == ProcStep(cfg, s, p, s.procs[p], l) && p in t.procs && AboutToCancel(t.procs[p], id)
    ensures AboutToCancel(s.procs[p], id)
  {
    hide G.Fits, P.Next, P.FindRow, AfterAuthorize, AfterGetStatus, Authorize, GetStatus, Served, HttpGet, DisturbsAuthorize, DisturbsGetStatus,
      OnStored, OnCancelRead, SetStatus;
    match s.procs[p]
    case Storing(email) => StoredCancelsNothing(s, p, email, id);
    case Awaiting(o, _) =>
      forall a ensures !AboutToCancel(AfterAuthorize(o, a), id) {
        AnswersKeepOrder(o, a, id);
      }
    case Querying(o) =>
      forall a ensures !AboutToCancel(AfterGetStatus(o, a), id) {
        AnswersKeepOrder(o, a, id);
      }
    case Cancelling(x) =>
      if l.CancelRead? {
        CancelReadHolds(cfg, s, p, x, l.ok, id);
      }
    case _ =>
  }

  lemma StoredCancelsNothing(s: State, p: nat, email: string, id: string)
    requires p in s.procs && s.procs[p] == Storing(email) && p in OnStored(s, p, email).procs
    ensures !AboutToCancel(OnStored(s, p, email).procs[p], id)
  {
  }

  lemma ProcKeeps(cfg: Config, s: State, p: nat, l: Label, id: string)
    requires G.Fits(cfg, s) && Settled(s, id) && p in s.procs
    ensures Kept(s, ProcStep(cfg, s, p, s.procs[p], l), id)
  {
    hide G.Fits, ProcStep;
    var t := ProcStep(cfg, s, p, s.procs[p], l);
    ProcTouches(cfg, s, p, l);
    ProcWrites(cfg, s, p, l, id);
    hide TxHolds;
    forall q | Holds(t, q, id) ensures Holds(s, q, id) {
      if q == p {
        ProcComesToHold(cfg, s, p, l, id);
      }
    }
    if CancelInHand(t, id) {
      var q :| q in t.procs && AboutToCancel(t.procs[q], id);
      if q == p {
        ProcComesToCancel(cfg, s, p, l, id, t);
      }
      assert AboutToCancel(s.procs[q], id);
    }
    if t.db.history[id] != s.db.history[id] {
      var status :| Mine(s.procs[p], status) && Appended(s, t, id, status);
      assert Overwrote(s, t, p, id, status);
    }
  }

  /** A step of the database, with perhaps one process that starts or ends. */
  lemma DbKeeps(cfg: Config, s: State, d: T.Label, id: string)
    requires G.Fits(cfg, s) && Settled(s, id) && !d.UpdateStatus?
    ensures Kept(s, s.(db := T.Next(cfg.hash, s.db, d)), id)
  {
    hide G.Fits, T.Next, T.Fits, TxHolds;
    var t := s.(db := T.Next(cfg.hash, s.db, d));
    G.DbFits(cfg, s, d);
    DbKeepsHistory(cfg, s, d, id);
    FitsOfDb(cfg, s);
    forall q | Holds(t, q, id) ensures Holds(s, q, id) {
      if t.procs[q].Storing? {
        TxComesToHold(cfg.hash, s.db, d, q, id);
      }
    }
  }

  lemma GoKeeps(s: State, u: State, p: nat, proc: Proc, id: string)
    requires Kept(s, u, id) && Unmoved(s, u, id) && !Holds(Go(u, p, proc), p, id) && !proc.CancelWriting?
    ensures Kept(s, Go(u, p, proc), id)
  {
    hide TxHolds;
    var t := Go(u, p, proc);
    forall q | Holds(t, q, id) ensures Holds(s, q, id) {
      assert Holds(u, q, id);
    }
    if CancelInHand(t, id) {
      var q :| q in t.procs && AboutToCancel(t.procs[q], id);
      assert AboutToCancel(u.procs[q], id);
    }
  }

  lemma KeptByItself(s: State, t: State, id: string)
    requires Settled(s, id) && t.db == s.db && t.procs == s.procs
    ensures Kept(s, t, id) && Unmoved(s, t, id)
  {
    hide TxHolds;
    forall q | Holds(t, q, id) ensures Holds(s, q, id) {
    }
  }

  lemma BeginHoldsNothing(cfg: Config, s: State, p: nat, input: Input, id: string)
    requires p !in s.procs && p !in s.db.txs
    ensures var u := s.(db := T.Next(cfg.hash, s.db, T.Begin(p, RequestOf(input))));
      !Holds(Go(u, p, Storing(TrimSpace(input.email))), p, id)
  {
    hide TrimSpace, RequestOf;
  }

  lemma BeginMovesNothing(cfg: Config, s: State, p: nat, req: T.Request, id: string)
    requires Settled(s, id)
    ensures Unmoved(s, s.(db := T.Next(cfg.hash, s.db, T.Begin(p, req))), id)
    ensures Unmoved(s, s.(db := T.Next(cfg.hash, s.db, T.Abort(p))), id)
  {
  }

  lemma StepKeeps(cfg: Config, s: State, l: Label, id: string)
    requires G.Fits(cfg, s) && Settled(s, id)
    ensures Kept(s, Next(cfg, s, l), id)
  {
    hide G.Fits, ProcStep, T.Next, P.Next, Kept, Unmoved, TxHolds, ValidInput, RequestOf, TrimSpace, Settled;
    KeptByItself(s, s, id);
    match l
    case Create(p, input) =>
      if p !in s.procs && p !in s.db.txs {
        if ValidInput(input) {
          DbKeeps(cfg, s, T.Begin(p, RequestOf(input)), id);
          BeginMovesNothing(cfg, s, p, RequestOf(input), id);
          BeginHoldsNothing(cfg, s, p, input, id);
          GoKeeps(s, s.(db := T.Next(cfg.hash, s.db, T.Begin(p, RequestOf(input)))), p, Storing(TrimSpace(input.email)), id);
        } else {
          GoKeeps(s, s, p, Finished(Failure(None, InvalidInput)), id);
        }
      }
    case Cancel(p, x) =>
      if p !in s.procs && p !in s.db.txs {
        GoKeeps(s, s, p, Cancelling(x), id);
      }
    case Db(d) =>
      if !d.Begin? && !d.UpdateStatus? {
        DbKeeps(cfg, s, d, id);
      }
    case Pay(q) => KeptByItself(s, Next(cfg, s, l), id);
    case Crash(p) =>
      if p in s.procs && !s.procs[p].Finished? {
        DbKeeps(cfg, s, T.Abort(p), id);
        BeginMovesNothing(cfg, s, p, T.Request(None, "", "", 0), id);
        GoKeeps(s, s.(db := T.Next(cfg.hash, s.db, T.Abort(p))), p, Finished(Failure(None, Crashed)), id);
      }
    case _ =>
      if l.proc in s.procs {
        ProcKeeps(cfg, s, l.proc, l, id);
      }
  }

  // ----- Cancelling a settled order -------------------------------------------------------------

  predicate NotCancelledSince(s: State, t: State, id: string) {
    id in s.db.history && id in t.db.history && s.db.history[id] <= t.db.history[id] &&
    forall i :: |s.db.history[id]| <= i < |t.db.history[id]| ==> t.db.history[id][i] != T.Cancelled
  }

  /** Whatever happens from here on, the order is not cancelled. */
  ghost predicate NeverCancelled(cfg: Config, s: State, id: string) {
    forall trace :: NotCancelledSince(s, Exec(cfg, s, trace), id)
  }

  lemma CancelIsInHand(s: State, p: nat, id: string)
    requires Holds(s, p, id) && s.procs[p].CancelWriting?
    ensures CancelInHand(s, id)
  {
    hide TxHolds;
    assert AboutToCancel(s.procs[p], id);
  }

  lemma NoCancelStep(s: State, m: State, t: State, id: string)
    requires NotCancelledSince(s, m, id) && Kept(m, t, id) && !CancelInHand(m, id)
    ensures NotCancelledSince(s, t, id) && !CancelInHand(t, id)
  {
    hide TxHolds;
    if p, status :| Overwrote(m, t, p, id, status) {
      if m.procs[p].CancelWriting? {
        CancelIsInHand(m, p, id);
        assert false;
      }
      assert status != T.Cancelled;
      assert t.db.history[id] == m.db.history[id] + [status];
      assert s.db.history[id] <= m.db.history[id] <= t.db.history[id];
    }
  }

  lemma {:induction false} NoCancelLasts(cfg: Config, s: State, trace: seq<Label>, id: string)
    requires G.Fits(cfg, s) && Settled(s, id) && !CancelInHand(s, id)
    ensures var t := Exec(cfg, s, trace);
      G.Fits(cfg, t) && Settled(t, id) && !CancelInHand(t, id) && NotCancelledSince(s, t, id)
  {
    hide Next, G.Fits, CancelInHand, Kept;
    if trace != [] {
      var before, l := trace[..|trace| - 1], trace[|trace| - 1];
      NoCancelLasts(cfg, s, before, id);
      var m := Exec(cfg, s, before);
      StepKeeps(cfg, m, l, id);
      G.FitsStep(cfg, m, l);
      NoCancelStep(s, m, Next(cfg, m, l), id);
      KeptIsSettled(m, Next(cfg, m, l), id);
    }
  }

  lemma KeptIsSettled(s: State, t: State, id: string)
    requires Kept(s, t, id)
    ensures Settled(t, id)
  {
  }

  /** The cancel in hand goes through. */
  lemma CancelGoesThrough(cfg: Config, s: State, id: string)
    requires Settled(s, id) && CancelInHand(s, id)
    ensures !NeverCancelled(cfg, s, id)
  {
    hide Exec;
    var p :| p in s.procs && AboutToCancel(s.procs[p], id);
    var l := CancelWrite(p, Applied);
    ExecStep(cfg, s, [], l);
    ExecNothing(cfg, s);
    assert [] + [l] == [l];
    var t := Exec(cfg, s, [l]);
    assert t.db.history[id] == s.db.history[id] + [T.Cancelled];
    assert t.db.history[id][|s.db.history[id]|] == T.Cancelled;
    assert !NotCancelledSince(s, t, id);
  }

  /** "Only pending orders can be cancelled": after any run, an order that is Paid, Failed or Cancelled is safe from cancelling
      in every continuation exactly when no cancel that read it as Pending is about to write. */
  lemma SettledIsSafeFromCancelIff(cfg: Config, before: seq<Label>, id: string)
    requires Settled(Exec(cfg, Initial(), before), id)
    ensures var s := Exec(cfg, Initial(), before); NeverCancelled(cfg, s, id) <==> !CancelInHand(s, id)
  {
    hide Exec, G.Fits, Settled, CancelInHand, NotCancelledSince;
    var s := Exec(cfg, Initial(), before);
    G.AlwaysFits(cfg, before);
    if CancelInHand(s, id) {
      CancelGoesThrough(cfg, s, id);
    } else {
      forall trace ensures NotCancelledSince(s, Exec(cfg, s, trace), id) {
        NoCancelLasts(cfg, s, trace, id);
      }
    }
  }

  // ----- Settled for good -----------------------------------------------------------------------

  lemma RestStep(s: State, t: State, id: string)
    requires Settled(s, id) && AtRest(s, id) && Kept(s, t, id)
    ensures Settled(t, id) && AtRest(t, id) && t.db.history[id] == s.db.history[id]
  {
    hide Holds, Mine, Appended;
    if p, status :| Overwrote(s, t, p, id, status) {
      assert false;
    }
  }

  lemma {:induction false} RestLasts(cfg: Config, s: State, trace: seq<Label>, id: string)
    requires G.Fits(cfg, s) && Settled(s, id) && AtRest(s, id)
    ensures var t := Exec(cfg, s, trace);
      G.Fits(cfg, t) && Settled(t, id) && AtRest(t, id) && t.db.history[id] == s.db.history[id]
  {
    hide Next, G.Fits, AtRest, Kept;
    if trace != [] {
      var before, l := trace[..|trace| - 1], trace[|trace| - 1];
      RestLasts(cfg, s, before, id);
      var m := Exec(cfg, s, before);
      StepKeeps(cfg, m, l, id);
      G.FitsStep(cfg, m, l);
      RestStep(m, Next(cfg, m, l), id);
    }
  }

  /** After any run, a settled order that no process still holds as Pending never changes again, whatever comes. */
  lemma SettledAtRestIsFinal(cfg: Config, before: seq<Label>, later: seq<Label>, id: string)
    requires var s := Exec(cfg, Initial(), before); Settled(s, id) && AtRest(s, id)
    ensures var s, t := Exec(cfg, Initial(), before), Exec(cfg, Exec(cfg, Initial(), before), later);
      id in s.db.history && id in t.db.history && t.db.history[id] == s.db.history[id]
  {
    hide Exec, G.Fits, AtRest;
    G.AlwaysFits(cfg, before);
    RestLasts(cfg, Exec(cfg, Initial(), before), later, id);
  }

  // ----- One use case at a time -----------------------------------------------------------------

  /** No use case is under way. */
  predicate Resting(s: State) {
    forall p :: p in s.procs ==> s.procs[p].Finished?
  }

  /** Each use case starts when the ones before it are over. */
  ghost predicate OneAtATime(cfg: Config, trace: seq<Label>) {
    forall i :: 0 <= i < |trace| && (trace[i].Create? || trace[i].Cancel?) ==> Resting(Exec(cfg, Initial(), trace[..i]))
  }

  /** One use case is under way at most, and what it holds as Pending is Pending. */
  ghost predicate Serial(s: State) {
    (forall p, q :: p in s.procs && q in s.procs && !s.procs[p].Finished? && !s.procs[q].Finished? ==> p == q) &&
    (forall p, id :: Holds(s, p, id) && id in s.db.orders ==> s.db.orders[id].status.Pending?)
  }

  lemma SerialRests(s: State, id: string)
    requires Serial(s) && id in s.db.orders && !s.db.orders[id].status.Pending?
    ensures AtRest(s, id)
  {
    hide Holds;
  }

  /** An order that a database step makes appear, or that it finds Pending, is Pending after it. */
  lemma DbKeepsPending(cfg: Config, s: State, t: State, d: T.Label, id: string)
    requires G.Fits(cfg, s) && G.Fits(cfg, t) && t.db == T.Next(cfg.hash, s.db, d) && !d.UpdateStatus?
    requires id in t.db.orders && (id in s.db.orders ==> s.db.orders[id].status.Pending?)
    ensures t.db.orders[id].status.Pending?
  {
    hide G.Fits, T.Next, T.Fits;
    FitsOfDb(cfg, s);
    LastIsStatus(cfg, t, id);
    G.QuietHistory(cfg.hash, s.db, d, id);
    if id in s.db.orders {
      LastIsStatus(cfg, s, id);
    } else {
      HistoryIsOfOrders(cfg, s);
    }
  }

  lemma HistoryIsOfOrders(cfg: Config, s: State)
    requires G.Fits(cfg, s)
    ensures s.db.history.Keys == s.db.orders.Keys
  {
    hide P.Fits, G.CallsMatch, G.ProcsFit, G.HistoriesFit, T.TxsFit, T.KeysFit, T.RowFits;
  }

  /** A process writes only what it holds, and then it is over or about to read; nobody else moves. */
  lemma ProcKeepsPending(cfg: Config, s: State, p: nat, l: Label, id: string, q: nat)
    requires G.Fits(cfg, s) && Serial(s) && p in s.procs && id in s.db.orders && id in s.db.history
    requires Holds(ProcStep(cfg, s, p, s.procs[p], l), q, id) && s.db.orders[id].status.Pending?
    ensures var t := ProcStep(cfg, s, p, s.procs[p], l); id in t.db.orders && t.db.orders[id].status.Pending?
  {
    hide G.Fits, ProcStep, TxHolds;
    var t := ProcStep(cfg, s, p, s.procs[p], l);
    ProcTouches(cfg, s, p, l);
    ProcWrites(cfg, s, p, l, id);
    if t.db.orders[id] != s.db.orders[id] {
      assert false;
    }
  }

  lemma NewcomerIsAlone(s: State, t: State, p: nat)
    requires Resting(s) && (forall q :: q in t.procs ==> q == p || (q in s.procs && t.procs[q] == s.procs[q]))
    ensures forall x, y :: x in t.procs && y in t.procs && !t.procs[x].Finished? && !t.procs[y].Finished? ==> x == y
  {
  }

  /** Which processes a label can move. */
  lemma OneMoves(cfg: Config, s: State, l: Label)
    requires l.Create? || l.Cancel? ==> Resting(s)
    requires forall p, q :: p in s.procs && q in s.procs && !s.procs[p].Finished? && !s.procs[q].Finished? ==> p == q
    ensures var t := Next(cfg, s, l);
      forall p, q :: p in t.procs && q in t.procs && !t.procs[p].Finished? && !t.procs[q].Finished? ==> p == q
  {
    hide T.Next, P.Next, ProcStep, ValidInput, RequestOf, TrimSpace;
    var t := Next(cfg, s, l);
    if l.Create? || l.Cancel? {
      NewcomerIsAlone(s, t, l.proc);
    } else if !l.Db? && !l.Pay? && !l.Crash? && l.proc in s.procs {
      ProcTouches(cfg, s, l.proc, l);
      if s.procs[l.proc].Finished? {
        FinishedStays(cfg, s, l.proc, l);
      }
    }
  }

  lemma FinishedStays(cfg: Config, s: State, p: nat, l: Label)
    requires p in s.procs && s.procs[p].Finished?
    ensures ProcStep(cfg, s, p, s.procs[p], l) == s
  {
  }

  /** What the database does in this step: nothing, one label of a transaction, or a process's own write. */
  lemma SerialStep(cfg: Config, s: State, l: Label)
    requires G.Fits(cfg, s) && Serial(s) && (l.Create? || l.Cancel? ==> Resting(s))
    ensures Serial(Next(cfg, s, l))
  {
    hide Next, G.Fits, Holds;
    var t := Next(cfg, s, l);
    OneMoves(cfg, s, l);
    G.FitsStep(cfg, s, l);
    forall p, id | Holds(t, p, id) && id in t.db.orders ensures t.db.orders[id].status.Pending? {
      HeldIsPending(cfg, s, l, p, id);
    }
  }

  lemma HeldIsPending(cfg: Config, s: State, l: Label, p: nat, id: string)
    requires G.Fits(cfg, s) && Serial(s) && G.Fits(cfg, Next(cfg, s, l))
    requires Holds(Next(cfg, s, l), p, id) && id in Next(cfg, s, l).db.orders
    ensures Next(cfg, s, l).db.orders[id].status.Pending?
  {
    hide G.Fits, Holds, ProcStep, T.Next, P.Next, Kept, ValidInput, RequestOf;
    var t := Next(cfg, s, l);
    if id in s.db.orders && !s.db.orders[id].status.Pending? {
      SerialRests(s, id);
      HistoryIsOfOrders(cfg, s);
      StepKeeps(cfg, s, l, id);
      KeptAtRest(s, t, id);
    } else if l.Create? {
      if t.db != s.db {
        DbKeepsPending(cfg, s, t, T.Begin(l.proc, RequestOf(l.input)), id);
      }
    } else if l.Db? {
      if t.db != s.db {
        DbKeepsPending(cfg, s, t, l.dbLabel, id);
      }
    } else if l.Crash? {
      if t.db != s.db {
        DbKeepsPending(cfg, s, t, T.Abort(l.proc), id);
      }
    } else if !l.Cancel? && !l.Pay? && l.proc in s.procs {
      HistoryIsOfOrders(cfg, s);
      if id in s.db.orders {
        ProcKeepsPending(cfg, s, l.proc, l, id, p);
      } else {
        ProcAddsNothing(cfg, s, l.proc, l);
      }
    }
  }

  lemma KeptAtRest(s: State, t: State, id: string)
    requires Kept(s, t, id) && AtRest(s, id)
    ensures AtRest(t, id)
  {
    hide Holds;
  }

  lemma ProcAddsNothing(cfg: Config, s: State, p: nat, l: Label)
    requires p in s.procs
    ensures ProcStep(cfg, s, p, s.procs[p], l).db.orders.Keys == s.db.orders.Keys
  {
    hide P.Next, P.FindRow, AfterAuthorize, AfterGetStatus, Authorize, GetStatus, Served, HttpGet, DisturbsAuthorize, DisturbsGetStatus;
  }

  lemma {:induction false} AlwaysSerial(cfg: Config, trace: seq<Label>)
    requires OneAtATime(cfg, trace)
    ensures Serial(Exec(cfg, Initial(), trace))
  {
    hide Next, G.Fits;
    if trace != [] {
      var before, l := trace[..|trace| - 1], trace[|trace| - 1];
      assert trace[..|trace| - 1] == before && trace[|trace| - 1] == l;
      EarlierOneAtATime(cfg, trace, |trace| - 1);
      AlwaysSerial(cfg, before);
      G.AlwaysFits(cfg, before);
      hide Serial;
      SerialStep(cfg, Exec(cfg, Initial(), before), l);
    } else {
      hide Holds;
      assert forall p, id :: !Holds(Initial(), p, id) by { NobodyHolds(); }
    }
  }

  lemma NobodyHolds()
    ensures forall p, id :: !Holds(Initial(), p, id)
  {
  }

  lemma EarlierOneAtATime(cfg: Config, trace: seq<Label>, k: nat)
    requires OneAtATime(cfg, trace) && k <= |trace|
    ensures OneAtATime(cfg, trace[..k])
  {
    hide Exec, Resting;
    forall i | 0 <= i < k && (trace[..k][i].Create? || trace[..k][i].Cancel?) ensures Resting(Exec(cfg, Initial(), trace[..k][..i])) {
      assert trace[..k][..i] == trace[..i];
    }
  }

  /** When use cases run one at a time, with any faults and crashes, a settled order never changes again. */
  lemma OneAtATimeSettlesForGood(cfg: Config, trace: seq<Label>, k: nat, id: string)
    requires OneAtATime(cfg, trace) && k <= |trace| && Settled(Exec(cfg, Initial(), trace[..k]), id)
    ensures var s, t := Exec(cfg, Initial(), trace[..k]), Exec(cfg, Initial(), trace);
      id in s.db.history && id in t.db.history && t.db.history[id] == s.db.history[id]
  {
    hide Exec, OneAtATime, Serial, AtRest;
    EarlierOneAtATime(cfg, trace, k);
    AlwaysSerial(cfg, trace[..k]);
    SerialRests(Exec(cfg, Initial(), trace[..k]), id);
    SettledAtRestIsFinal(cfg, trace[..k], trace[k..], id);
    ExecAppend(cfg, Initial(), trace[..k], trace[k..]);
    assert trace[..k] + trace[k..] == trace;
  }
}
