/** The orders database as a step system: any number of concurrent CreatePendingWithIdempotency transactions, and status
    updates from anywhere. A transaction sees committed rows only (read committed); its own inserts become visible when it
    commits and vanish when it aborts. The advisory lock is taken on a hash of the key, which may collide. */
module OrderTransactions {
  import opened Text
  import opened Writes

  datatype OrderStatus = Pending | Paid | Failed | Cancelled

  datatype Order = Order(id: string, customer: string, item: string, amount: int, status: OrderStatus, createdAt: int)

  datatype Request = Request(key: Option<string>, customer: string, item: string, amount: int)

  datatype Tx =
    | Opened(req: Request)                     // before the lock, if a key was given
    | Locked(req: Request)                     // the key is looked up next
    | Found(req: Request, id: string)          // the linked order is loaded next
    | Loaded(req: Request, order: Order)       // commits next
    | Unlinked(req: Request)                   // the order is inserted next
    | Inserted(req: Request, order: Order)     // the key, if any, is inserted next
    | Complete(req: Request, order: Order)     // commits next
    | KeyClash(req: Request)                   // the key insert met the primary key of idempotency_keys
    | Returned(req: Request, order: Order)
    | Aborted(req: Request)

  /** Committed tables, advisory locks by hash, transactions, ids ever generated, and each order's statuses so far. */
  datatype State = State(
    orders: map<string, Order>, keys: map<string, string>, locks: map<int, nat>, txs: map<nat, Tx>,
    used: set<string>, history: map<string, seq<OrderStatus>>)

  datatype Label =
    | Begin(tx: nat, req: Request)
    | Lock(tx: nat)
    | LookUp(tx: nat)
    | Load(tx: nat)
    | InsertOrder(tx: nat, id: string, at: int)
    | InsertKey(tx: nat)
    | Commit(tx: nat, outcome: WriteOutcome)
    | Abort(tx: nat)
    | UpdateStatus(id: string, status: OrderStatus)

  function Initial(): State {
    State(map[], map[], map[], map[], {}, map[])
  }

  predicate Keyed(req: Request) {
    req.key.Some? && req.key.value != ""
  }

  predicate Over(tx: Tx) {
    tx.Returned? || tx.Aborted?
  }

  /** The transaction has inserted this key and has not finished. */
  predicate HoldsKey(tx: Tx, key: string) {
    tx.Complete? && Keyed(tx.req) && tx.req.key.value == key
  }

  function Go(s: State, t: nat, tx: Tx): State {
    s.(txs := s.txs[t := tx])
  }

  /** The end of a transaction releases its advisory locks. */
  function Finish(s: State, t: nat, tx: Tx): State {
    Go(s.(locks := map h | h in s.locks && s.locks[h] != t :: s.locks[h]), t, tx)
  }

  function OnLock(hash: string -> int, s: State, t: nat, req: Request): State {
    if !Keyed(req) then Go(s, t, Unlinked(req))
    else
      var h := hash(req.key.value);
      if h in s.locks then s else Go(s.(locks := s.locks[h := t]), t, Locked(req))
  }

  function OnLookUp(s: State, t: nat, req: Request): State
    requires Keyed(req)
  {
    if req.key.value in s.keys then Go(s, t, Found(req, s.keys[req.key.value])) else Go(s, t, Unlinked(req))
  }

  function OnLoad(s: State, t: nat, req: Request, id: string): State {
    if id in s.orders then Go(s, t, Loaded(req, s.orders[id])) else Finish(s, t, Aborted(req))
  }

  function NewOrder(req: Request, id: string, at: int): Order {
    Order(id, req.customer, req.item, req.amount, Pending, at)
  }

  /** The table's check refuses an amount that is not positive. */
  function OnInsertOrder(s: State, t: nat, req: Request, id: string, at: int): State {
    var s1 := s.(used := s.used + {id});
    if req.amount <= 0 then Finish(s1, t, Aborted(req)) else Go(s1, t, Inserted(req, NewOrder(req, id, at)))
  }

  /** A committed key is a primary-key violation; another transaction's uncommitted one makes the insert wait. */
  function OnInsertKey(s: State, t: nat, req: Request, order: Order): State {
    if !Keyed(req) then Go(s, t, Complete(req, order))
    else if req.key.value in s.keys then Go(s, t, KeyClash(req))
    else if exists u :: u in s.txs && u != t && HoldsKey(s.txs[u], req.key.value) then s
    else Go(s, t, Complete(req, order))
  }

  function OnCommitNew(s: State, t: nat, req: Request, order: Order, outcome: WriteOutcome): State {
    if outcome.Rejected? then Finish(s, t, Aborted(req))
    else
      var s1 := s.(orders := s.orders[order.id := order], history := s.history[order.id := [order.status]],
                   keys := if Keyed(req) then s.keys[req.key.value := order.id] else s.keys);
      Finish(s1, t, if outcome.Applied? then Returned(req, order) else Aborted(req))
  }

  /** UPDATE orders SET status: unconditional, and nothing when no row has the id. */
  function OnUpdateStatus(s: State, id: string, status: OrderStatus): State {
    if id in s.orders && id in s.history then
      s.(orders := s.orders[id := s.orders[id].(status := status)], history := s.history[id := s.history[id] + [status]])
    else s
  }

  function TxStep(hash: string -> int, s: State, t: nat, tx: Tx, l: Label): State {
    match tx
    case Opened(req) => if l.Lock? then OnLock(hash, s, t, req) else s
    case Locked(req) => if l.LookUp? && Keyed(req) then OnLookUp(s, t, req) else s
    case Found(req, id) => if l.Load? then OnLoad(s, t, req, id) else s
    case Loaded(req, order) =>
      if l.Commit? then Finish(s, t, if l.outcome.Applied? then Returned(req, order) else Aborted(req)) else s
    case Unlinked(req) =>
      if l.InsertOrder? && IsUuid(l.id) && l.id !in s.used then OnInsertOrder(s, t, req, l.id, l.at) else s
    case Inserted(req, order) => if l.InsertKey? then OnInsertKey(s, t, req, order) else s
    case Complete(req, order) => if l.Commit? then OnCommitNew(s, t, req, order, l.outcome) else s
    case _ => s
  }

  function Next(hash: string -> int, s: State, l: Label): State {
    match l
    case UpdateStatus(id, status) => OnUpdateStatus(s, id, status)
    case Begin(t, req) => if t in s.txs then s else Go(s, t, Opened(req))
    case Abort(t) => if t in s.txs && !Over(s.txs[t]) then Finish(s, t, Aborted(s.txs[t].req)) else s
    case _ => if l.tx in s.txs then TxStep(hash, s, l.tx, s.txs[l.tx], l) else s
  }

  function Exec(hash: string -> int, s: State, trace: seq<Label>): State {
    if trace == [] then s
    else Next(hash, Exec(hash, s, trace[..|trace| - 1]), trace[|trace| - 1])
  }

  // ----- The invariant --------------------------------------------------------------------------

  /** Everything about an order but its status. */
  predicate SameOrder(a: Order, b: Order) {
    a == b.(status := a.status)
  }

  predicate RowFits(used: set<string>, id: string, order: Order, statuses: seq<OrderStatus>) {
    order.id == id && id in used && IsUuid(id) && order.amount > 0 &&
    statuses != [] && statuses[0] == Pending && statuses[|statuses| - 1] == order.status
  }

  predicate OrdersFit(s: State) {
    s.history.Keys == s.orders.Keys &&
    forall id :: id in s.orders ==> RowFits(s.used, id, s.orders[id], s.history[id])
  }

  predicate KeysFit(s: State) {
    (forall k :: k in s.keys ==> k != "" && s.keys[k] in s.orders) &&
    (forall j, k :: j in s.keys && k in s.keys && s.keys[j] == s.keys[k] ==> j == k)
  }

  predicate TablesFit(s: State) {
    OrdersFit(s) && KeysFit(s)
  }

  predicate LockHeld(hash: string -> int, s: State, t: nat, req: Request) {
    Keyed(req) ==> hash(req.key.value) in s.locks && s.locks[hash(req.key.value)] == t
  }

  /** An order inserted and not yet committed. */
  predicate Uncommitted(s: State, req: Request, order: Order) {
    order.id !in s.orders && order.id in s.used && IsUuid(order.id) && order.amount > 0 && order.status == Pending &&
    order.amount == req.amount && order.customer == req.customer && order.item == req.item
  }

  predicate TxFits(hash: string -> int, s: State, t: nat, tx: Tx) {
    match tx
    case Opened(_) => true
    case Locked(req) => Keyed(req) && LockHeld(hash, s, t, req)
    case Found(req, id) => Keyed(req) && req.key.value in s.keys && s.keys[req.key.value] == id
    case Loaded(req, o) => Keyed(req) && req.key.value in s.keys && s.keys[req.key.value] == o.id &&
                           o.id in s.orders && SameOrder(o, s.orders[o.id])
    case Unlinked(req) => LockHeld(hash, s, t, req) && (Keyed(req) ==> req.key.value !in s.keys)
    case Inserted(req, o) => LockHeld(hash, s, t, req) && (Keyed(req) ==> req.key.value !in s.keys) && Uncommitted(s, req, o)
    case Complete(req, o) => LockHeld(hash, s, t, req) && (Keyed(req) ==> req.key.value !in s.keys) && Uncommitted(s, req, o)
    case KeyClash(_) => false
    case Returned(req, o) => o.id in s.orders && SameOrder(o, s.orders[o.id]) &&
                             (Keyed(req) ==> req.key.value in s.keys && s.keys[req.key.value] == o.id)
    case Aborted(_) => true
  }

  predicate HasUncommitted(tx: Tx) {
    tx.Inserted? || tx.Complete?
  }

  predicate TxsFit(hash: string -> int, s: State) {
    (forall t :: t in s.txs ==> TxFits(hash, s, t, s.txs[t])) &&
    (forall t, u :: t in s.txs && u in s.txs && t != u && HasUncommitted(s.txs[t]) && HasUncommitted(s.txs[u]) ==>
       s.txs[t].order.id != s.txs[u].order.id)
  }

  predicate Fits(hash: string -> int, s: State) {
    TablesFit(s) && TxsFit(hash, s)
  }

  /** Orders and key links are permanent; an order changes in nothing but its status, and its history only grows. */
  predicate Grows(s: State, t: State) {
    s.used <= t.used &&
    (forall id :: id in s.orders ==> id in t.orders && SameOrder(t.orders[id], s.orders[id])) &&
    (forall id :: id in s.history ==> id in t.history && s.history[id] <= t.history[id]) &&
    (forall k :: k in s.keys ==> k in t.keys && t.keys[k] == s.keys[k])
  }

  /** A step inside transaction t that leaves the committed tables alone and takes no lock from another transaction. */
  predicate Inside(s: State, u: State, t: nat) {
    u.orders == s.orders && u.keys == s.keys && u.history == s.history && s.used <= u.used &&
    t in u.txs && (forall x :: x in s.txs && x != t ==> x in u.txs && u.txs[x] == s.txs[x]) &&
    (forall x :: x in u.txs ==> x in s.txs || x == t) &&
    (forall h :: h in s.locks && s.locks[h] != t ==> h in u.locks && u.locks[h] == s.locks[h])
  }

  lemma LockKept(hash: string -> int, s: State, u: State, t: nat, x: nat, req: Request)
    requires Inside(s, u, t) && x != t && LockHeld(hash, s, x, req)
    ensures LockHeld(hash, u, x, req)
  {
    if Keyed(req) {
      var h := hash(req.key.value);
      assert h in s.locks && s.locks[h] != t;
    }
  }

  lemma OthersFit(hash: string -> int, s: State, u: State, t: nat, x: nat)
    requires Inside(s, u, t) && x != t && x in s.txs && TxFits(hash, s, x, s.txs[x])
    ensures TxFits(hash, u, x, u.txs[x])
  {
    hide IsUuid;
    var tx := s.txs[x];
    if tx.Locked? || tx.Unlinked? || tx.Inserted? || tx.Complete? {
      LockKept(hash, s, u, t, x, tx.req);
    }
  }

  lemma InsideFits(hash: string -> int, s: State, u: State, t: nat)
    requires Fits(hash, s) && Inside(s, u, t)
    requires TxFits(hash, u, t, u.txs[t])
    requires HasUncommitted(u.txs[t]) ==>
               u.txs[t].order.id !in s.used || (t in s.txs && HasUncommitted(s.txs[t]) && s.txs[t].order == u.txs[t].order)
    ensures Fits(hash, u) && Grows(s, u)
  {
    hide IsUuid;
    forall x | x in u.txs ensures TxFits(hash, u, x, u.txs[x]) {
      if x != t {
        OthersFit(hash, s, u, t, x);
      }
    }
    hide LockHeld;
    forall x | x in s.txs && HasUncommitted(s.txs[x]) ensures s.txs[x].order.id in s.used {
      assert TxFits(hash, s, x, s.txs[x]);
    }
  }

  lemma LockInside(hash: string -> int, s: State, t: nat, req: Request)
    requires t in s.txs && s.txs[t] == Opened(req)
    ensures Inside(s, OnLock(hash, s, t, req), t) && !HasUncommitted(OnLock(hash, s, t, req).txs[t])
  {
    hide Keyed;
  }

  /** The one that takes the lock holds it, and its key is looked up under it; without a key there is nothing to look up. */
  lemma LockTaken(hash: string -> int, s: State, t: nat, req: Request)
    requires t in s.txs && s.txs[t] == Opened(req)
    ensures var u := OnLock(hash, s, t, req); t in u.txs && TxFits(hash, u, t, u.txs[t])
  {
    hide IsUuid, Uncommitted, SameOrder;
  }

  lemma LockFits(hash: string -> int, s: State, t: nat, req: Request)
    requires Fits(hash, s) && t in s.txs && s.txs[t] == Opened(req)
    ensures var u := OnLock(hash, s, t, req); Fits(hash, u) && Grows(s, u)
  {
    hide IsUuid, Uncommitted, Fits, Grows, SameOrder, OnLock, Inside, TxFits;
    LockInside(hash, s, t, req);
    LockTaken(hash, s, t, req);
    InsideFits(hash, s, OnLock(hash, s, t, req), t);
  }

  lemma LookUpFits(hash: string -> int, s: State, t: nat, req: Request)
    requires Fits(hash, s) && t in s.txs && s.txs[t] == Locked(req) && Keyed(req)
    ensures var u := OnLookUp(s, t, req); Fits(hash, u) && Grows(s, u)
  {
    hide IsUuid, Uncommitted;
    assert TxFits(hash, s, t, s.txs[t]);
    InsideFits(hash, s, OnLookUp(s, t, req), t);
  }

  lemma LoadFits(hash: string -> int, s: State, t: nat, req: Request, id: string)
    requires Fits(hash, s) && t in s.txs && s.txs[t] == Found(req, id)
    ensures var u := OnLoad(s, t, req, id); Fits(hash, u) && Grows(s, u) && u.txs[t].Loaded?
  {
    hide IsUuid, Uncommitted;
    assert TxFits(hash, s, t, s.txs[t]);
    assert s.orders[id].id == id;
    InsideFits(hash, s, OnLoad(s, t, req, id), t);
  }

  lemma InsertOrderFits(hash: string -> int, s: State, t: nat, req: Request, id: string, at: int)
    requires Fits(hash, s) && t in s.txs && s.txs[t] == Unlinked(req) && IsUuid(id) && id !in s.used
    ensures var u := OnInsertOrder(s, t, req, id, at); Fits(hash, u) && Grows(s, u)
  {
    hide IsUuid;
    assert TxFits(hash, s, t, s.txs[t]);
    assert id !in s.orders;
    hide TablesFit, Grows, SameOrder, LockHeld;
    InsideFits(hash, s, OnInsertOrder(s, t, req, id, at), t);
  }

  /** Two transactions past the lock with the same key hold the same lock, so they are the same transaction. */
  lemma KeyIsExclusive(hash: string -> int, s: State, t: nat, u: nat, key: string)
    requires Fits(hash, s) && t in s.txs && u in s.txs && t != u
    requires s.txs[t].Inserted? && Keyed(s.txs[t].req) && s.txs[t].req.key.value == key
    ensures !HoldsKey(s.txs[u], key)
  {
    hide IsUuid, Uncommitted;
    assert TxFits(hash, s, t, s.txs[t]);
    assert TxFits(hash, s, u, s.txs[u]);
  }

  /** Inserting the key never fails and never waits. */
  lemma InsertKeySucceeds(hash: string -> int, s: State, t: nat)
    requires Fits(hash, s) && t in s.txs && s.txs[t].Inserted?
    ensures var req, order := s.txs[t].req, s.txs[t].order;
      OnInsertKey(s, t, req, order) == Go(s, t, Complete(req, order))
  {
    hide IsUuid, Uncommitted;
    var req := s.txs[t].req;
    assert TxFits(hash, s, t, s.txs[t]);
    if Keyed(req) {
      forall u | u in s.txs && u != t ensures !HoldsKey(s.txs[u], req.key.value) {
        KeyIsExclusive(hash, s, t, u, req.key.value);
      }
    }
  }

  lemma InsertKeyFits(hash: string -> int, s: State, t: nat)
    requires Fits(hash, s) && t in s.txs && s.txs[t].Inserted?
    ensures var u := OnInsertKey(s, t, s.txs[t].req, s.txs[t].order); Fits(hash, u) && Grows(s, u)
  {
    hide IsUuid;
    assert TxFits(hash, s, t, s.txs[t]);
    InsertKeySucceeds(hash, s, t);
    InsideFits(hash, s, Go(s, t, Complete(s.txs[t].req, s.txs[t].order)), t);
  }

  /** Commit of a replay, or a rollback: only the locks move. */
  lemma FinishFits(hash: string -> int, s: State, t: nat, tx: Tx)
    requires Fits(hash, s) && t in s.txs && Over(tx)
    requires tx.Returned? ==> s.txs[t] == Loaded(tx.req, tx.order)
    ensures Fits(hash, Finish(s, t, tx)) && Grows(s, Finish(s, t, tx))
  {
    hide IsUuid;
    assert TxFits(hash, s, t, s.txs[t]);
    InsideFits(hash, s, Finish(s, t, tx), t);
  }

  /** The tables after the inserts of a transaction become visible. */
  function Committed(s: State, req: Request, order: Order): State {
    s.(orders := s.orders[order.id := order], history := s.history[order.id := [order.status]],
       keys := if Keyed(req) then s.keys[req.key.value := order.id] else s.keys)
  }

  lemma CommitOrders(s: State, req: Request, order: Order)
    requires OrdersFit(s) && Uncommitted(s, req, order)
    ensures OrdersFit(Committed(s, req, order))
  {
    hide RowFits, IsUuid;
    assert RowFits(s.used, order.id, order, [Pending]) by { NewRowFits(s, req, order); }
  }

  lemma NewRowFits(s: State, req: Request, order: Order)
    requires Uncommitted(s, req, order)
    ensures RowFits(s.used, order.id, order, [Pending])
  {
    hide IsUuid;
  }

  lemma CommitKeys(s: State, req: Request, order: Order)
    requires KeysFit(s) && order.id !in s.orders && (Keyed(req) ==> req.key.value !in s.keys)
    ensures KeysFit(Committed(s, req, order))
  {
    assert forall k :: k in s.keys ==> s.keys[k] != order.id;
  }

  lemma CommitGrows(s: State, req: Request, order: Order)
    requires order.id !in s.orders && order.id !in s.history && (Keyed(req) ==> req.key.value !in s.keys)
    ensures Grows(s, Committed(s, req, order))
  {
  }

  /** Another transaction cannot be waiting on the key just linked: it would need the same lock. */
  lemma OthersFitCommit(hash: string -> int, s: State, t: nat, req: Request, order: Order, outcome: WriteOutcome, x: nat)
    requires Fits(hash, s) && t in s.txs && s.txs[t] == Complete(req, order) && !outcome.Rejected?
    requires x in s.txs && x != t
    ensures var u := OnCommitNew(s, t, req, order, outcome); x in u.txs && TxFits(hash, u, x, u.txs[x])
  {
    hide IsUuid, TablesFit;
    assert TxFits(hash, s, t, s.txs[t]);
    assert TxFits(hash, s, x, s.txs[x]);
    var u := OnCommitNew(s, t, req, order, outcome);
    assert u.txs[x] == s.txs[x];
    if s.txs[x].Locked? || s.txs[x].Unlinked? || s.txs[x].Inserted? || s.txs[x].Complete? {
      if Keyed(s.txs[x].req) {
        var h := hash(s.txs[x].req.key.value);
        assert h in s.locks && s.locks[h] == x;
        assert LockHeld(hash, u, x, s.txs[x].req);
      }
    }
  }

  lemma CommittedIsWhatCommitDoes(s: State, t: nat, req: Request, order: Order, outcome: WriteOutcome)
    requires !outcome.Rejected?
    requires var v := Committed(s, req, order); TablesFit(v) && Grows(s, v)
    ensures var u := OnCommitNew(s, t, req, order, outcome); TablesFit(u) && Grows(s, u)
  {
    hide RowFits, SameOrder;
    var u, v := OnCommitNew(s, t, req, order, outcome), Committed(s, req, order);
    assert u.orders == v.orders && u.keys == v.keys && u.history == v.history && u.used == v.used;
  }

  lemma CommittedTables(hash: string -> int, s: State, t: nat, req: Request, order: Order, outcome: WriteOutcome)
    requires Fits(hash, s) && t in s.txs && s.txs[t] == Complete(req, order) && !outcome.Rejected?
    ensures var u := OnCommitNew(s, t, req, order, outcome); TablesFit(u) && Grows(s, u)
  {
    hide IsUuid, RowFits, LockHeld, OrdersFit, KeysFit, Grows;
    assert TxFits(hash, s, t, s.txs[t]);
    assert order.id !in s.history by { HistoryIsOfOrders(s); }
    CommitOrders(s, req, order);
    CommitKeys(s, req, order);
    CommitGrows(s, req, order);
    CommittedIsWhatCommitDoes(s, t, req, order, outcome);
  }

  lemma HistoryIsOfOrders(s: State)
    requires OrdersFit(s)
    ensures s.history.Keys == s.orders.Keys
  {
  }

  lemma CommittedOwn(hash: string -> int, s: State, t: nat, req: Request, order: Order, outcome: WriteOutcome)
    requires t in s.txs && s.txs[t] == Complete(req, order) && !outcome.Rejected?
    ensures var u := OnCommitNew(s, t, req, order, outcome);
      t in u.txs && Over(u.txs[t]) && TxFits(hash, u, t, u.txs[t]) &&
      u.txs.Keys == s.txs.Keys && forall x :: x in s.txs && x != t ==> u.txs[x] == s.txs[x]
  {
  }

  lemma CommitNewFits(hash: string -> int, s: State, t: nat, req: Request, order: Order, outcome: WriteOutcome)
    requires Fits(hash, s) && t in s.txs && s.txs[t] == Complete(req, order)
    ensures var u := OnCommitNew(s, t, req, order, outcome); Fits(hash, u) && Grows(s, u)
  {
    hide IsUuid, TablesFit, Grows, TxFits, Finish;
    var u := OnCommitNew(s, t, req, order, outcome);
    if outcome.Rejected? {
      FinishFits(hash, s, t, Aborted(req));
    } else {
      CommittedTables(hash, s, t, req, order, outcome);
      CommittedOwn(hash, s, t, req, order, outcome);
      hide OnCommitNew;
      forall x | x in u.txs ensures TxFits(hash, u, x, u.txs[x]) {
        if x != t {
          OthersFitCommit(hash, s, t, req, order, outcome, x);
        }
      }
    }
  }

  lemma UpdateStatusTables(s: State, id: string, status: OrderStatus)
    requires TablesFit(s)
    ensures TablesFit(OnUpdateStatus(s, id, status)) && Grows(s, OnUpdateStatus(s, id, status))
  {
    hide IsUuid;
    var u := OnUpdateStatus(s, id, status);
    if u != s {
      assert RowFits(s.used, id, s.orders[id], s.history[id]);
      assert RowFits(u.used, id, u.orders[id], u.history[id]);
      hide RowFits;
      assert OrdersFit(u);
    }
  }

  lemma UpdateStatusOthers(hash: string -> int, s: State, id: string, status: OrderStatus, x: nat)
    requires x in s.txs && TxFits(hash, s, x, s.txs[x])
    ensures var u := OnUpdateStatus(s, id, status); TxFits(hash, u, x, u.txs[x])
  {
    hide IsUuid;
  }

  lemma UpdateStatusFits(hash: string -> int, s: State, id: string, status: OrderStatus)
    requires Fits(hash, s)
    ensures var u := OnUpdateStatus(s, id, status); Fits(hash, u) && Grows(s, u)
  {
    hide IsUuid;
    var u := OnUpdateStatus(s, id, status);
    UpdateStatusTables(s, id, status);
    hide TablesFit, Grows;
    forall x | x in u.txs ensures TxFits(hash, u, x, u.txs[x]) {
      UpdateStatusOthers(hash, s, id, status, x);
    }
    hide TxFits;
  }

  lemma TxStepFits(hash: string -> int, s: State, t: nat, l: Label)
    requires Fits(hash, s) && t in s.txs
    ensures var u := TxStep(hash, s, t, s.txs[t], l); Fits(hash, u) && Grows(s, u)
  {
    hide Fits, Grows, OnLock, OnLookUp, OnLoad, OnInsertOrder, OnInsertKey, OnCommitNew, Finish, IsUuid;
    GrowsFromItself(s);
    match s.txs[t]
    case Opened(req) =>
      if l.Lock? {
        LockFits(hash, s, t, req);
      }
    case Locked(req) =>
      if l.LookUp? && Keyed(req) {
        LookUpFits(hash, s, t, req);
      }
    case Found(req, id) =>
      if l.Load? {
        LoadFits(hash, s, t, req, id);
      }
    case Loaded(req, order) =>
      if l.Commit? {
        FinishFits(hash, s, t, if l.outcome.Applied? then Returned(req, order) else Aborted(req));
      }
    case Unlinked(req) =>
      if l.InsertOrder? && IsUuid(l.id) && l.id !in s.used {
        InsertOrderFits(hash, s, t, req, l.id, l.at);
      }
    case Inserted(req, order) =>
      if l.InsertKey? {
        InsertKeyFits(hash, s, t);
      }
    case Complete(req, order) =>
      if l.Commit? {
        CommitNewFits(hash, s, t, req, order, l.outcome);
      }
    case _ =>
  }

  lemma GrowsFromItself(s: State)
    ensures Grows(s, s)
  {
  }

  lemma BeginFits(hash: string -> int, s: State, t: nat, req: Request)
    requires Fits(hash, s) && t !in s.txs
    ensures Fits(hash, Go(s, t, Opened(req))) && Grows(s, Go(s, t, Opened(req)))
  {
    hide IsUuid;
    InsideFits(hash, s, Go(s, t, Opened(req)), t);
  }

  lemma FitsStep(hash: string -> int, s: State, l: Label)
    requires Fits(hash, s)
    ensures Fits(hash, Next(hash, s, l)) && Grows(s, Next(hash, s, l))
  {
    hide Fits, Grows, TxStep, Finish, Go, OnUpdateStatus;
    GrowsFromItself(s);
    match l
    case UpdateStatus(id, status) => UpdateStatusFits(hash, s, id, status);
    case Begin(t, req) =>
      if t !in s.txs {
        BeginFits(hash, s, t, req);
      }
    case Abort(t) =>
      if t in s.txs && !Over(s.txs[t]) {
        FinishFits(hash, s, t, Aborted(s.txs[t].req));
      }
    case _ =>
      if l.tx in s.txs {
        TxStepFits(hash, s, l.tx, l);
      }
  }

  lemma {:induction false} AlwaysFits(hash: string -> int, trace: seq<Label>)
    ensures Fits(hash, Exec(hash, Initial(), trace))
  {
    hide Next;
    if trace != [] {
      AlwaysFits(hash, trace[..|trace| - 1]);
      FitsStep(hash, Exec(hash, Initial(), trace[..|trace| - 1]), trace[|trace| - 1]);
    }
  }

  lemma ExecStep(hash: string -> int, s: State, trace: seq<Label>, l: Label)
    ensures Exec(hash, s, trace + [l]) == Next(hash, Exec(hash, s, trace), l)
  {
    assert (trace + [l])[..|trace|] == trace;
  }

  /** Two calls whose transactions returned: with one nonempty key they return one order, and with distinct keys
      distinct orders; the key insert never meets its primary key and never waits for another transaction. */
  lemma KeysNameOrders(hash: string -> int, trace: seq<Label>, t: nat, u: nat)
    ensures var s := Exec(hash, Initial(), trace);
      t in s.txs && u in s.txs ==>
        var a, b := s.txs[t], s.txs[u];
        !a.KeyClash? &&
        (a.Inserted? ==> OnInsertKey(s, t, a.req, a.order) == Go(s, t, Complete(a.req, a.order))) &&
        (a.Returned? && b.Returned? && Keyed(a.req) && Keyed(b.req) ==>
           (a.req.key == b.req.key <==> a.order.id == b.order.id))
  {
    hide Exec, IsUuid, OnInsertKey;
    AlwaysFits(hash, trace);
    var s := Exec(hash, Initial(), trace);
    if t in s.txs && u in s.txs {
      assert TxFits(hash, s, t, s.txs[t]) && TxFits(hash, s, u, s.txs[u]);
      if s.txs[t].Inserted? {
        InsertKeySucceeds(hash, s, t);
      }
    }
  }

  /** Once linked, a key names the same order for ever, and the order keeps everything but its status. */
  lemma {:induction false} LinksAreFinal(hash: string -> int, before: seq<Label>, later: seq<Label>)
    ensures Grows(Exec(hash, Initial(), before), Exec(hash, Initial(), before + later))
    decreases |later|
  {
    hide Next;
    if later == [] {
      assert before + later == before;
    } else {
      var middle, l := later[..|later| - 1], later[|later| - 1];
      LinksAreFinal(hash, before, middle);
      AlwaysFits(hash, before + middle);
      FitsStep(hash, Exec(hash, Initial(), before + middle), l);
      assert before + later == (before + middle) + [l];
      ExecStep(hash, Initial(), before + middle, l);
    }
  }
}
