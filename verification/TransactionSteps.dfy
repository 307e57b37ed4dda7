/** The steps of one transaction, one equation each. */
module TransactionSteps {
  import opened Text
  import opened Writes
  import T = OrderTransactions

  /** The tables are those of s, while transaction t holds these locks. */
  function During(s: T.State, t: nat, tx: T.Tx, locks: map<int, nat>, used: set<string>): T.State {
    s.(txs := s.txs[t := tx], locks := locks, used := used)
  }

  function LocksOf(hash: string -> int, t: nat, req: T.Request): map<int, nat> {
    if T.Keyed(req) then map[hash(req.key.value) := t] else map[]
  }

  lemma BeginStep(hash: string -> int, s: T.State, t: nat, req: T.Request)
    requires t !in s.txs && s.locks == map[]
    ensures T.Next(hash, s, T.Begin(t, req)) == During(s, t, T.Opened(req), map[], s.used)
  {
  }

  lemma LockStep(hash: string -> int, s: T.State, t: nat, req: T.Request)
    ensures T.Next(hash, During(s, t, T.Opened(req), map[], s.used), T.Lock(t)) ==
            During(s, t, if T.Keyed(req) then T.Locked(req) else T.Unlinked(req), LocksOf(hash, t, req), s.used)
  {
    hide T.Keyed;
    assert T.OnLock(hash, During(s, t, T.Opened(req), map[], s.used), t, req) ==
           During(s, t, if T.Keyed(req) then T.Locked(req) else T.Unlinked(req), LocksOf(hash, t, req), s.used);
  }

  lemma LookUpStep(hash: string -> int, s: T.State, t: nat, req: T.Request, locks: map<int, nat>)
    requires T.Keyed(req)
    ensures T.Next(hash, During(s, t, T.Locked(req), locks, s.used), T.LookUp(t)) ==
            During(s, t, if req.key.value in s.keys then T.Found(req, s.keys[req.key.value]) else T.Unlinked(req), locks, s.used)
  {
  }

  lemma LoadStep(hash: string -> int, s: T.State, t: nat, req: T.Request, id: string, locks: map<int, nat>)
    requires id in s.orders
    ensures T.Next(hash, During(s, t, T.Found(req, id), locks, s.used), T.Load(t)) ==
            During(s, t, T.Loaded(req, s.orders[id]), locks, s.used)
  {
  }

  lemma InsertOrderStep(hash: string -> int, s: T.State, t: nat, req: T.Request, id: string, at: int, locks: map<int, nat>)
    requires req.amount > 0 && IsUuid(id) && id !in s.used
    ensures T.Next(hash, During(s, t, T.Unlinked(req), locks, s.used), T.InsertOrder(t, id, at)) ==
            During(s, t, T.Inserted(req, T.NewOrder(req, id, at)), locks, s.used + {id})
  {
    hide IsUuid;
  }

  lemma InsertKeyStep(hash: string -> int, s: T.State, t: nat, req: T.Request, order: T.Order, locks: map<int, nat>, used: set<string>)
    requires T.Fits(hash, During(s, t, T.Inserted(req, order), locks, used))
    ensures T.Next(hash, During(s, t, T.Inserted(req, order), locks, used), T.InsertKey(t)) ==
            During(s, t, T.Complete(req, order), locks, used)
  {
    hide T.Fits, T.OnInsertKey;
    T.InsertKeySucceeds(hash, During(s, t, T.Inserted(req, order), locks, used), t);
  }

  lemma AllReleased(s: T.State, t: nat, tx: T.Tx)
    requires forall h :: h in s.locks ==> s.locks[h] == t
    ensures T.Finish(s, t, tx) == T.Go(s.(locks := map[]), t, tx)
  {
    var left := T.Finish(s, t, tx).locks;
    assert forall h :: h !in left;
    assert left.Keys == {};
    assert left == map[];
  }

  lemma ReplayCommitStep(hash: string -> int, s: T.State, t: nat, req: T.Request, order: T.Order, outcome: WriteOutcome)
    ensures T.Next(hash, During(s, t, T.Loaded(req, order), LocksOf(hash, t, req), s.used), T.Commit(t, outcome)) ==
            During(s, t, if outcome.Applied? then T.Returned(req, order) else T.Aborted(req), map[], s.used)
  {
    hide T.Finish;
    AllReleased(During(s, t, T.Loaded(req, order), LocksOf(hash, t, req), s.used), t,
                if outcome.Applied? then T.Returned(req, order) else T.Aborted(req));
  }

  lemma NewCommitStep(hash: string -> int, s: T.State, t: nat, req: T.Request, order: T.Order, used: set<string>, outcome: WriteOutcome)
    ensures T.Next(hash, During(s, t, T.Complete(req, order), LocksOf(hash, t, req), used), T.Commit(t, outcome)) ==
            if outcome.Rejected? then During(s, t, T.Aborted(req), map[], used)
            else During(T.Committed(s, req, order), t, if outcome.Applied? then T.Returned(req, order) else T.Aborted(req), map[], used)
  {
    hide T.Finish, T.Keyed;
    var u := During(s, t, T.Complete(req, order), LocksOf(hash, t, req), used);
    AllReleased(u, t, T.Aborted(req));
    AllReleased(T.Committed(u, req, order), t, if outcome.Applied? then T.Returned(req, order) else T.Aborted(req));
  }

  lemma AbortStep(hash: string -> int, s: T.State, t: nat, tx: T.Tx, locks: map<int, nat>, used: set<string>)
    requires !T.Over(tx) && forall h :: h in locks ==> locks[h] == t
    ensures T.Next(hash, During(s, t, tx, locks, used), T.Abort(t)) == During(s, t, T.Aborted(tx.req), map[], used)
  {
    hide T.Finish;
    AllReleased(During(s, t, tx, locks, used), t, T.Aborted(tx.req));
  }
}
