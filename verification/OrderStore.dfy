/** The orders repository as it is written, over the committed tables, the open transaction's own inserts and the advisory
    locks. Every object carries its own run of the transaction protocol as ghost history. */
module OrderStore {
  import opened Text
  import opened Writes
  import opened Outside
  import opened TransactionSteps
  import T = OrderTransactions

  // ----- The repository -------------------------------------------------------------------------

  class OrderRepository {
    const hash: string -> int
    const env: Environment
    var orders: map<string, T.Order>
    var keys: map<string, string>
    var newOrders: map<string, T.Order>
    var newKeys: map<string, string>
    var held: set<int>
    var open: bool
    ghost var m: T.State
    ghost var run: seq<T.Label>

    constructor (hash: string -> int, env: Environment)
      ensures Valid() && this.hash == hash && this.env == env && m == T.Initial()
    {
      this.hash, this.env := hash, env;
      orders, keys, newOrders, newKeys, held, open := map[], map[], map[], map[], {}, false;
      m, run := T.Initial(), [];
    }

    ghost predicate Matches()
      reads this
    {
      m == T.Exec(hash, T.Initial(), run) && orders == m.orders && keys == m.keys && held == m.locks.Keys
    }

    /** No transaction is open. */
    ghost predicate Valid()
      reads this
    {
      Matches() && !open && held == {} && newOrders == map[] && newKeys == map[]
    }

    /** Transaction t is at tx and has inserted these rows. */
    ghost predicate At(s: T.State, t: nat, tx: T.Tx, used: set<string>, orders': map<string, T.Order>, keys': map<string, string>)
      reads this
    {
      Matches() && open && newOrders == orders' && newKeys == keys' && !T.Over(tx) &&
      m == During(s, t, tx, if tx.Opened? then map[] else LocksOf(hash, t, tx.req), used)
    }

    ghost method Did(l: T.Label)
      modifies this`m, this`run
      ensures m == T.Next(hash, old(m), l) && run == old(run) + [l]
      ensures old(m) == T.Exec(hash, T.Initial(), old(run)) ==> m == T.Exec(hash, T.Initial(), run)
    {
      T.ExecStep(hash, T.Initial(), run, l);
      m, run := T.Next(hash, m, l), run + [l];
    }

    lemma RunFits()
      requires m == T.Exec(hash, T.Initial(), run)
      ensures T.Fits(hash, m)
    {
      hide T.Exec, T.Fits;
      T.AlwaysFits(hash, run);
    }

    lemma LinksExist()
      requires Matches()
      ensures forall k :: k in keys ==> keys[k] in orders
      ensures orders.Keys == m.history.Keys
      ensures forall id :: id in orders ==> orders[id].id == id && id in m.used
    {
      hide T.Exec, T.TxsFit, IsUuid;
      RunFits();
      assert T.KeysFit(m) && T.OrdersFit(m);
    }

    method GetByID(id: string) returns (ok: bool, row: Option<T.Order>)
      modifies env`faultsLeft
      ensures ok ==> row == if id in orders then Some(orders[id]) else None
      ensures env.faultsLeft == old(env.faultsLeft) - if ok then 0 else 1
    {
      var fails := env.Fails();
      ok, row := !fails, None;
      if ok && id in orders {
        row := Some(orders[id]);
      }
    }

    /** UPDATE orders SET status WHERE id: no row is an error; a failed call may have been applied. */
    method UpdateStatus(id: string, status: T.OrderStatus) returns (ok: bool, ghost outcome: WriteOutcome)
      requires Valid()
      modifies this`orders, this`m, this`run, env`faultsLeft
      ensures Valid() && run == old(run) + if outcome.Rejected? then [] else [T.UpdateStatus(id, status)]
      ensures m == if outcome.Rejected? then old(m) else T.OnUpdateStatus(old(m), id, status)
      ensures orders == if outcome.Rejected? || id !in old(orders) then old(orders)
                        else old(orders)[id := old(orders)[id].(status := status)]
      ensures ok <==> outcome.Applied? && id in old(orders)
      ensures env.faultsLeft == old(env.faultsLeft) - if outcome.Applied? then 0 else 1
    {
      hide T.Exec;
      LinksExist();
      var fails := env.Fails();
      var applied: bool := *;
      ok, outcome := false, Rejected;
      if !fails || applied {
        outcome := if fails then AppliedNoReply else Applied;
        if id in orders {
          ok := !fails;
          orders := orders[id := orders[id].(status := status)];
        }
        Did(T.UpdateStatus(id, status));
      }
    }

    method Query() returns (ok: bool)
      modifies env`faultsLeft
      ensures env.faultsLeft == old(env.faultsLeft) - if ok then 0 else 1
    {
      var fails := env.Fails();
      ok := !fails;
    }

    /** COMMIT ends the transaction whatever comes back. */
    method Commit() returns (ok: bool, ghost outcome: WriteOutcome)
      modifies this`orders, this`keys, this`newOrders, this`newKeys, this`held, this`open, env`faultsLeft
      ensures ok <==> outcome.Applied?
      ensures orders == if outcome.Rejected? then old(orders) else old(orders) + old(newOrders)
      ensures keys == if outcome.Rejected? then old(keys) else old(keys) + old(newKeys)
      ensures newOrders == map[] && newKeys == map[] && held == {} && !open
      ensures env.faultsLeft == old(env.faultsLeft) - if ok then 0 else 1
    {
      var fails := env.Fails();
      var applied: bool := *;
      ok, outcome := !fails, if fails then Rejected else Applied;
      if ok || applied {
        orders, keys := orders + newOrders, keys + newKeys;
        outcome := if ok then Applied else AppliedNoReply;
      }
      newOrders, newKeys, held, open := map[], map[], {}, false;
    }

    /** The deferred ROLLBACK: nothing happens after a commit. */
    method Rollback(ghost s: T.State, ghost t: nat, ghost tx: T.Tx, ghost used: set<string>)
      requires open ==> At(s, t, tx, used, newOrders, newKeys)
      requires !open ==> Valid()
      modifies this`newOrders, this`newKeys, this`held, this`open, this`m, this`run
      ensures Valid()
      ensures !old(open) ==> m == old(m) && run == old(run)
      ensures old(open) ==> m == During(s, t, T.Aborted(tx.req), map[], used) && run == old(run) + [T.Abort(t)]
    {
      hide T.Exec, T.Next, T.Keyed;
      if open {
        newOrders, newKeys, held, open := map[], map[], {}, false;
        AbortStep(hash, s, t, tx, m.locks, used);
        Did(T.Abort(t));
      }
    }

    /** A linked key: load its order and commit. */
    method Replay(id: string, ghost s: T.State, ghost t: nat, ghost req: T.Request) returns (order: Option<T.Order>, ghost tx: T.Tx)
      requires At(s, t, T.Found(req, id), s.used, map[], map[]) && id in s.orders
      modifies this, env`faultsLeft
      ensures orders == old(orders) && keys == old(keys)
      ensures env.faultsLeft == old(env.faultsLeft) - if order.Some? then 0 else 1
      ensures order.Some? ==> order.value == old(orders)[id] && !open
      ensures old(run) <= run && forall i :: |old(run)| <= i < |run| ==> !run[i].Begin? && !run[i].UpdateStatus?
      ensures if open then At(s, t, tx, s.used, map[], map[]) && order.None? && tx.req == req
              else Valid() && m == During(s, t, if order.Some? then T.Returned(req, order.value) else T.Aborted(req), map[], s.used)
    {
      hide T.Exec, T.Next, T.Keyed;
      tx := T.Found(req, id);
      order := None;
      var ok := Query();
      if !ok {
        return;
      }
      var o := orders[id];
      LoadStep(hash, s, t, req, id, LocksOf(hash, t, req));
      Did(T.Load(t));
      tx := T.Loaded(req, o);
      ghost var outcome;
      ok, outcome := Commit();
      assert orders == old(orders) && keys == old(keys);
      ReplayCommitStep(hash, s, t, req, o, outcome);
      Did(T.Commit(t, outcome));
      if ok {
        order := Some(o);
      }
    }

    lemma KeyIsNew(s: T.State, t: nat, req: T.Request, o: T.Order, used: set<string>)
      requires m == T.Exec(hash, T.Initial(), run) && m == During(s, t, T.Inserted(req, o), LocksOf(hash, t, req), used)
      ensures T.Fits(hash, m) && (T.Keyed(req) ==> req.key.value !in m.keys)
    {
      hide T.Exec, IsUuid;
      RunFits();
      assert T.TxFits(hash, m, t, m.txs[t]);
    }

    /** The insert of the key, if there is one. It is never found taken. */
    method InsertKey(o: T.Order, key: Option<string>, ghost s: T.State, ghost t: nat, ghost req: T.Request, ghost used: set<string>)
      returns (ok: bool)
      requires At(s, t, T.Inserted(req, o), used, newOrders, map[]) && key == req.key
      modifies this`newKeys, this`m, this`run, env`faultsLeft
      ensures env.faultsLeft == old(env.faultsLeft) - if ok then 0 else 1
      ensures run == old(run) + if ok then [T.InsertKey(t)] else []
      ensures At(s, t, if ok then T.Complete(req, o) else T.Inserted(req, o), used, newOrders, newKeys)
      ensures newKeys == if ok && T.Keyed(req) then map[req.key.value := o.id] else map[]
    {
      hide T.Exec, T.Next, T.Fits;
      KeyIsNew(s, t, req, o, used);
      ok := true;
      if key.Some? && key.value != "" {
        ok := Query();
        if !ok || key.value in keys {
          return false;
        }
        newKeys := newKeys[key.value := o.id];
      }
      InsertKeyStep(hash, s, t, req, o, LocksOf(hash, t, req), used);
      Did(T.InsertKey(t));
    }

    /** The two inserts. */
    method InsertRows(o: T.Order, key: Option<string>, ghost s: T.State, ghost t: nat, ghost req: T.Request)
      returns (ok: bool, ghost tx: T.Tx, ghost used: set<string>)
      requires At(s, t, T.Unlinked(req), s.used, map[], map[])
      requires o == T.NewOrder(req, o.id, o.createdAt) && key == req.key && IsUuid(o.id) && o.id !in s.used
      modifies this`newOrders, this`newKeys, this`m, this`run, env`faultsLeft
      ensures env.faultsLeft <= old(env.faultsLeft) && (!ok <==> req.amount <= 0 || env.faultsLeft < old(env.faultsLeft))
      ensures old(run) <= run && forall i :: |old(run)| <= i < |run| ==> !run[i].Begin? && !run[i].UpdateStatus?
      ensures (used == s.used || used == s.used + {o.id}) && At(s, t, tx, used, newOrders, newKeys) && tx.req == req
      ensures ok ==> used == s.used + {o.id} && tx == T.Complete(req, o) && newOrders == map[o.id := o] &&
                     newKeys == (if T.Keyed(req) then map[req.key.value := o.id] else map[])
    {
      hide T.Exec, T.Next, IsUuid, T.Keyed;
      tx, used := T.Unlinked(req), s.used;
      ok := Query();
      if !ok || o.amount <= 0 {
        return false, tx, used;
      }
      newOrders := newOrders[o.id := o];
      InsertOrderStep(hash, s, t, req, o.id, o.createdAt, LocksOf(hash, t, req));
      Did(T.InsertOrder(t, o.id, o.createdAt));
      used := s.used + {o.id};
      ok := InsertKey(o, key, s, t, req, used);
      tx := if ok then T.Complete(req, o) else T.Inserted(req, o);
    }

    lemma CommittedIsMerged(s: T.State, req: T.Request, o: T.Order)
      ensures T.Committed(s, req, o).orders == s.orders + map[o.id := o]
      ensures T.Committed(s, req, o).keys == s.keys + if T.Keyed(req) then map[req.key.value := o.id] else map[]
    {
    }

    /** The commit of the two inserts. */
    method CommitNew(o: T.Order, ghost s: T.State, ghost t: nat, ghost req: T.Request, ghost used: set<string>) returns (ok: bool)
      requires At(s, t, T.Complete(req, o), used, map[o.id := o], if T.Keyed(req) then map[req.key.value := o.id] else map[])
      modifies this, env`faultsLeft
      ensures Valid() && env.faultsLeft == old(env.faultsLeft) - if ok then 0 else 1
      ensures exists outcome :: run == old(run) + [T.Commit(t, outcome)]
      ensures m == During(T.Committed(s, req, o), t, if ok then T.Returned(req, o) else T.Aborted(req), map[], used) ||
              (!ok && m == During(s, t, T.Aborted(req), map[], used))
    {
      hide T.Exec, T.Next, T.Committed, T.Keyed, LocksOf;
      ghost var outcome;
      ok, outcome := Commit();
      CommittedIsMerged(s, req, o);
      NewCommitStep(hash, s, t, req, o, used, outcome);
      Did(T.Commit(t, outcome));
    }

    /** No link: insert the order and the key, and commit. */
    method Insert(o: T.Order, key: Option<string>, ghost s: T.State, ghost t: nat, ghost req: T.Request)
      returns (order: Option<T.Order>, ghost tx: T.Tx, ghost used: set<string>)
      requires At(s, t, T.Unlinked(req), s.used, map[], map[])
      requires o == T.NewOrder(req, o.id, o.createdAt) && key == req.key && IsUuid(o.id) && o.id !in s.used
      modifies this, env`faultsLeft
      ensures used == s.used || used == s.used + {o.id}
      ensures order.Some? ==> order.value == o && !open && req.amount > 0
      ensures env.faultsLeft <= old(env.faultsLeft) && (order.None? <==> req.amount <= 0 || env.faultsLeft < old(env.faultsLeft))
      ensures old(run) <= run && forall i :: |old(run)| <= i < |run| ==> !run[i].Begin? && !run[i].UpdateStatus?
      ensures if open then At(s, t, tx, used, newOrders, newKeys) && order.None? && tx.req == req
              else Valid() &&
                   (m == During(T.Committed(s, req, o), t, if order.Some? then T.Returned(req, o) else T.Aborted(req), map[], used) ||
                    (order.None? && m == During(s, t, T.Aborted(req), map[], used)))
    {
      hide T.Exec, T.Next, IsUuid, T.Committed, T.NewOrder, T.Keyed, LocksOf;
      order := None;
      var ok;
      ok, tx, used := InsertRows(o, key, s, t, req);
      if ok {
        ok := CommitNew(o, s, t, req, used);
        if ok {
          order := Some(o);
        }
      }
    }

    /** The tables are as before, or hold this new order and its link. */
    twostate predicate OnlyAdds(key: Option<string>, o: T.Order)
      reads this
    {
      (orders == old(orders) && keys == old(keys)) ||
      (orders == old(orders)[o.id := o] && keys == if key.Some? && key.value != "" then old(keys)[key.value := o.id] else old(keys))
    }

    /** CreatePendingWithIdempotency as transaction t; the id is what the generator returns. None is an error. A linked key
        returns its order and changes no table; otherwise the new order is stored, with its link if there is a key. */
    method CreatePendingWithIdempotency(key: Option<string>, customer: string, item: string, amount: int, id: string, at: int, ghost t: nat)
      returns (order: Option<T.Order>, existed: bool)
      requires Valid() && t !in m.txs && IsUuid(id) && id !in m.used
      modifies this, env`faultsLeft
      ensures Valid() && T.Grows(old(m), m) && old(m).used <= m.used <= old(m).used + {id}
      ensures var req := T.Request(key, customer, item, amount);
        old(run) + [T.Begin(t, req)] <= run &&
        (forall i :: |old(run)| < i < |run| ==> !run[i].Begin? && !run[i].UpdateStatus?) &&
        m.txs == old(m).txs[t := if order.Some? then T.Returned(req, order.value) else T.Aborted(req)] &&
        OnlyAdds(key, T.Order(id, customer, item, amount, T.Pending, at)) && (existed ==> order.Some?) &&
        (order.Some? ==>
           if key.Some? && key.value != "" && key.value in old(keys) then
             existed && orders == old(orders) && old(keys)[key.value] in orders && order.value == orders[old(keys)[key.value]]
           else !existed && order.value == T.Order(id, customer, item, amount, T.Pending, at) &&
                id !in old(orders) && id in orders && orders[id] == order.value &&
                (key.Some? && key.value != "" ==> key.value in keys && keys[key.value] == id))
      ensures env.faultsLeft <= old(env.faultsLeft)
      ensures order.None? <==> env.faultsLeft < old(env.faultsLeft) ||
                               (amount <= 0 && !(key.Some? && key.value != "" && key.value in old(keys)))
    {
      ghost var req := T.Request(key, customer, item, amount);
      NewOrderTables(m, req, id, at);
      hide T.Exec, T.Next, IsUuid, T.Grows, T.Committed, T.NewOrder;
      LinksExist();
      order, existed := BeginToEnd(key, customer, item, amount, id, at, m, t, req);
      T.LinksAreFinal(hash, old(run), run[|old(run)|..]);
      assert old(run) + run[|old(run)|..] == run;
    }

    /** The transaction with its deferred rollback. */
    method BeginToEnd(key: Option<string>, customer: string, item: string, amount: int, id: string, at: int,
                      ghost s: T.State, ghost t: nat, ghost req: T.Request)
      returns (order: Option<T.Order>, existed: bool)
      requires Valid() && m == s && t !in s.txs && req == T.Request(key, customer, item, amount) && IsUuid(id) && id !in s.used
      modifies this, env`faultsLeft
      ensures Valid() && old(run) + [T.Begin(t, req)] <= run
      ensures forall i :: |old(run)| < i < |run| ==> !run[i].Begin? && !run[i].UpdateStatus?
      ensures env.faultsLeft <= old(env.faultsLeft)
      ensures order.None? <==> env.faultsLeft < old(env.faultsLeft) || (amount <= 0 && !(T.Keyed(req) && key.value in s.keys))
      ensures existed <==> order.Some? && T.Keyed(req) && key.value in s.keys
      ensures existed ==> s.keys[key.value] in s.orders && order.value == s.orders[s.keys[key.value]]
      ensures order.Some? && !existed ==> order.value == T.NewOrder(req, id, at)
      ensures m.used == s.used || m.used == s.used + {id}
      ensures var tx := if order.Some? then T.Returned(req, order.value) else T.Aborted(req);
        (m == During(s, t, tx, map[], m.used) && (order.Some? ==> existed)) ||
        (m == During(T.Committed(s, req, T.NewOrder(req, id, at)), t, tx, map[], m.used) && !existed)
    {
      hide T.Exec, T.Next, IsUuid, T.Committed, T.NewOrder, T.Keyed;
      ghost var used := s.used;
      ghost var tx := T.Opened(req);
      order, existed := None, false;
      BeginStep(hash, s, t, req);
      Did(T.Begin(t, req));
      open := true;
      var ok := Query();
      if ok {
        order, existed, tx, used := Transact(key, customer, item, amount, id, at, s, t, req);
      }
      Rollback(s, t, tx, used);
    }

    /** The advisory lock and the look-up of a key that was given. */
    method LookUp(key: string, ghost s: T.State, ghost t: nat, ghost req: T.Request) returns (ok: bool, linked: Option<string>, ghost tx: T.Tx)
      requires At(s, t, T.Opened(req), s.used, map[], map[]) && T.Keyed(req) && req.key.value == key
      modifies this`held, this`m, this`run, env`faultsLeft
      ensures env.faultsLeft == old(env.faultsLeft) - if ok then 0 else 1
      ensures old(run) <= run && forall i :: |old(run)| <= i < |run| ==> !run[i].Begin? && !run[i].UpdateStatus?
      ensures At(s, t, tx, s.used, map[], map[]) && tx.req == req
      ensures ok ==> linked == (if key in s.keys then Some(s.keys[key]) else None) &&
                     tx == if linked.Some? then T.Found(req, linked.value) else T.Unlinked(req)
    {
      hide T.Exec, T.Next;
      linked, tx := None, T.Opened(req);
      ok := Query();
      if !ok {
        return;
      }
      held := held + {hash(key)};
      LockStep(hash, s, t, req);
      Did(T.Lock(t));
      tx := T.Locked(req);
      ok := Query();
      if !ok {
        return;
      }
      if key in keys {
        linked := Some(keys[key]);
      }
      LookUpStep(hash, s, t, req, LocksOf(hash, t, req));
      Did(T.LookUp(t));
      tx := if linked.Some? then T.Found(req, linked.value) else T.Unlinked(req);
    }

    /** The body of the transaction. */
    method Transact(key: Option<string>, customer: string, item: string, amount: int, id: string, at: int,
                    ghost s: T.State, ghost t: nat, ghost req: T.Request)
      returns (order: Option<T.Order>, existed: bool, ghost tx: T.Tx, ghost used: set<string>)
      requires At(s, t, T.Opened(req), s.used, map[], map[]) && req == T.Request(key, customer, item, amount)
      requires IsUuid(id) && id !in s.used
      modifies this, env`faultsLeft
      ensures old(run) <= run && forall i :: |old(run)| <= i < |run| ==> !run[i].Begin? && !run[i].UpdateStatus?
      ensures used == s.used || used == s.used + {id}
      ensures env.faultsLeft <= old(env.faultsLeft)
      ensures order.None? <==> env.faultsLeft < old(env.faultsLeft) || (amount <= 0 && !(T.Keyed(req) && key.value in s.keys))
      ensures existed <==> order.Some? && T.Keyed(req) && key.value in s.keys
      ensures existed ==> s.keys[key.value] in s.orders && order.value == s.orders[s.keys[key.value]]
      ensures order.Some? && !existed ==> order.value == T.NewOrder(req, id, at)
      ensures var o := T.NewOrder(req, id, at);
        if open then At(s, t, tx, used, newOrders, newKeys) && order.None? && tx.req == req
        else Valid() &&
             ((m == During(s, t, if existed then T.Returned(req, order.value) else T.Aborted(req), map[], used) && (order.Some? ==> existed)) ||
              (!existed && m == During(T.Committed(s, req, o), t, if order.Some? then T.Returned(req, o) else T.Aborted(req), map[], used)))
    {
      hide T.Exec, T.Next, IsUuid, T.Committed, T.Keyed;
      order, existed, tx, used := None, false, T.Opened(req), s.used;
      LinksExist();
      KeyedMeans(req, t);
      if key.Some? && key.value != "" {
        var ok, linked;
        ok, linked, tx := LookUp(key.value, s, t, req);
        if !ok {
          return;
        }
        if linked.Some? {
          order, tx := Replay(linked.value, s, t, req);
          existed := order.Some?;
          return;
        }
      } else {
        LockStep(hash, s, t, req);
        Did(T.Lock(t));
        tx := T.Unlinked(req);
      }
      order, tx, used := Insert(T.Order(id, customer, item, amount, T.Pending, at), key, s, t, req);
    }

    lemma NewOrderTables(s: T.State, req: T.Request, id: string, at: int)
      ensures var o := T.NewOrder(req, id, at);
        o == T.Order(id, req.customer, req.item, req.amount, T.Pending, at) &&
        T.Committed(s, req, o).txs == s.txs && T.Committed(s, req, o).orders == s.orders[id := o] &&
        T.Committed(s, req, o).keys == if req.key.Some? && req.key.value != "" then s.keys[req.key.value := id] else s.keys
    {
    }

    lemma KeyedMeans(req: T.Request, t: nat)
      ensures T.Keyed(req) <==> req.key.Some? && req.key.value != ""
      ensures !T.Keyed(req) ==> LocksOf(hash, t, req) == map[]
    {
    }
  }
}
