/** The order service's use cases as they are written: CreateOrder with its reconcile path, CancelOrder, and GetOrder with
    the cache. The service carries its own run of the checkout saga as ghost history, so each state it reaches is a state
    of the saga; use cases here run one at a time, which adds what interleavings would break. */
module OrderService {
  import opened Text
  import opened Writes
  import opened Outside
  import opened OrderStore
  import A = PaymentAdapter
  import opened PaymentService
  import S = CheckoutSaga
  import Steps = SagaSteps
  import G = SagaGuarantees
  import R = SagaRetry
  import T = OrderTransactions
  import P = PaymentProtocol

  datatype Cached = Cached(order: T.Order, until: int)

  /** rediscache.Store: order values that expire. */
  class OrderCache {
    var entries: map<string, Cached>
    const env: Environment

    constructor (env: Environment)
      ensures entries == map[] && this.env == env
    {
      entries, this.env := map[], env;
    }

    ghost predicate IsLive(id: string)
      reads this, env
    {
      id in entries && env.now < entries[id].until
    }

    method Get(id: string) returns (ok: bool, row: Option<T.Order>)
      modifies env`cacheFaultsLeft
      ensures ok ==> row == if IsLive(id) then Some(entries[id].order) else None
      ensures !ok ==> row == None
      ensures env.cacheFaultsLeft == old(env.cacheFaultsLeft) - if ok then 0 else 1
    {
      var fails := env.CacheFails();
      ok, row := !fails, None;
      if ok && id in entries && env.now < entries[id].until {
        row := Some(entries[id].order);
      }
    }

    method Set(o: T.Order, ttl: int) returns (ok: bool, ghost outcome: WriteOutcome)
      modifies this`entries, env`cacheFaultsLeft
      ensures ok <==> outcome.Applied?
      ensures entries == if outcome.Rejected? then old(entries) else old(entries)[o.id := Cached(o, env.now + ttl)]
      ensures env.cacheFaultsLeft == old(env.cacheFaultsLeft) - if ok then 0 else 1
    {
      var fails := env.CacheFails();
      var applied: bool := *;
      ok, outcome := !fails, if fails then Rejected else Applied;
      if ok || applied {
        entries := entries[o.id := Cached(o, env.now + ttl)];
        outcome := if ok then Applied else AppliedNoReply;
      }
    }

    method Delete(id: string) returns (ok: bool, ghost outcome: WriteOutcome)
      modifies this`entries, env`cacheFaultsLeft
      ensures ok <==> outcome.Applied?
      ensures entries == if outcome.Rejected? || id == "" then old(entries) else old(entries) - {id}
      ensures env.cacheFaultsLeft == old(env.cacheFaultsLeft) - if ok then 0 else 1
    {
      if id == "" {
        return true, Applied;
      }
      var fails := env.CacheFails();
      var applied: bool := *;
      ok, outcome := !fails, if fails then Rejected else Applied;
      if ok || applied {
        entries := entries - {id};
        outcome := if ok then Applied else AppliedNoReply;
      }
    }
  }

  /** The client of the payment service, behind either adapter. A request may be lost, or served and its reply lost. */
  class PaymentClient {
    const adapter: A.Adapter
    const faults: set<A.Reply>
    const service: AuthorizePayment
    const env: Environment

    constructor (adapter: A.Adapter, faults: set<A.Reply>, publisher: bool, env: Environment)
      ensures this.adapter == adapter && this.faults == faults && this.env == env && fresh(service)
      ensures service.Valid() && service.m == P.Initial() && service.publisher == publisher && service.env == env
      ensures fresh(service.repo) && fresh(service.pub)
    {
      this.adapter, this.faults, this.env := adapter, faults, env;
      service := new AuthorizePayment(publisher, env);
    }

    /** The reply that arrives instead of the service's own, if one does, out of these. */
    method Interference(noise: set<A.Reply>) returns (fault: Option<A.Reply>)
      modifies env`faultsLeft
      ensures fault.Some? ==> fault.value in noise
      ensures env.faultsLeft == old(env.faultsLeft) - if fault.Some? then 1 else 0
    {
      fault := None;
      if noise != {} {
        var fails := env.Fails();
        if fails {
          var r :| r in noise;
          fault := Some(r);
        }
      }
    }

    method Authorize(orderId: string, amount: int, email: string, id: string, transactionId: string, ghost c: nat)
      returns (answer: A.Answer, ghost call: Option<nat>, ghost fault: Option<A.Reply>, ghost reply: A.Reply, ghost steps: seq<P.Label>)
      requires service.Valid() && service.env == env && c !in service.m.calls && IsUuid(id) && id !in service.m.used
      modifies service`m, service`run, service.repo`rows, service.pub`events, env`faultsLeft
      ensures service.Valid() && P.Grows(old(service.m), service.m) && old(service.m).used <= service.m.used <= old(service.m).used + {id}
      ensures answer == A.Authorize(reply) && (fault.Some? ==> reply == fault.value && reply in faults && A.NoiseOnAuthorize(adapter, reply))
      ensures env.faultsLeft <= old(env.faultsLeft) - if fault.Some? then 1 else 0
      ensures var input := P.Input(orderId, amount, email);
        var p := P.NewPayment(input, id, transactionId);
        match call
        case None => fault.Some? && service.m == old(service.m) && service.run == old(service.run) && steps == []
        case Some(k) =>
          k == c && service.run == old(service.run) + [P.Begin(c, input)] + steps && (forall l :: l in steps ==> !l.Begin?) &&
          c in service.m.calls && service.m.calls[c].input == input && service.m.calls[c].stage.Finished? &&
          var outcome := service.m.calls[c].stage.outcome;
          (fault.None? ==> reply == A.Served(adapter, outcome)) &&
          Effects(service.publisher, old(service.repo.rows), old(service.pub.events), service.repo.rows, service.pub.events, input, p, outcome) &&
          (outcome == P.Refused(P.Internal) || outcome == Undisturbed(service.publisher, old(service.repo.rows), input, id, transactionId)) &&
          (fault.None? && env.faultsLeft == old(env.faultsLeft) ==>
             outcome == Undisturbed(service.publisher, old(service.repo.rows), input, id, transactionId))
    {
      hide P.Exec, P.Grows, Effects, Undisturbed, IsUuid;
      var interference := Interference(set r | r in faults && A.NoiseOnAuthorize(adapter, r));
      fault := interference;
      var delivered := true;
      if interference.Some? {
        delivered := *;
      }
      call, steps := None, [];
      P.StoredIsFinal(service.publisher, service.run, []);
      assert service.run + [] == service.run;
      var outcome := P.Refused(P.Internal);
      if delivered {
        outcome, steps := service.Execute(P.Input(orderId, amount, email), id, transactionId, c);
        call := Some(c);
      }
      var received := if interference.Some? then interference.value else A.Served(adapter, outcome);
      reply := received;
      answer := A.Authorize(received);
    }

    method GetStatus(orderId: string) returns (answer: A.Answer, ghost fault: Option<A.Reply>, ghost reply: A.Reply)
      modifies env`faultsLeft
      ensures answer == A.GetStatus(reply)
      ensures fault.Some? ==> reply == fault.value && reply in faults && A.NoiseOnGetStatus(adapter, reply)
      ensures fault.None? ==> reply == A.Http(A.HttpGet(P.FindRow(service.repo.rows, orderId)))
      ensures env.faultsLeft == old(env.faultsLeft) - if fault.Some? then 1 else 0
    {
      var interference := Interference(set r | r in faults && A.NoiseOnGetStatus(adapter, r));
      fault := interference;
      var received;
      if interference.Some? {
        received := interference.value;
      } else {
        var row := service.repo.Newest(orderId);
        received := A.Http(A.HttpGet(row));
      }
      reply := received;
      answer := A.GetStatus(received);
    }
  }

  /** The three use cases over one repository, one payment client and one cache. */
  class UseCases {
    const cfg: S.Config
    const orders: OrderRepository
    const payments: PaymentClient
    const cache: OrderCache
    const cacheTtl: int
    const env: Environment
    ghost var m: S.State
    ghost var run: seq<S.Label>
    /** The orders written since their cache entry was last deleted or filled. */
    ghost var stale: set<string>

    constructor (cfg: S.Config, cacheTtl: int, faults: nat, cacheFaults: nat)
      requires !cfg.open
      ensures Valid() && m == S.Initial() && stale == {} && this.cfg == cfg && env.faultsLeft == faults && env.cacheFaultsLeft == cacheFaults
    {
      var e := new Environment(faults, cacheFaults);
      this.cfg, this.cacheTtl, env := cfg, cacheTtl, e;
      orders := new OrderRepository(cfg.hash, e);
      payments := new PaymentClient(cfg.adapter, cfg.faults, cfg.publisher, e);
      cache := new OrderCache(e);
      m, run, stale := S.Initial(), [], {};
    }

    /** The parts are wired up, hold what the run says, and the run is a run of the saga. */
    ghost predicate Linked()
      reads this, orders, payments.service, payments.service.repo, payments.service.pub
    {
      orders.env == env && payments.env == env && payments.service.env == env && cache.env == env &&
      orders.hash == cfg.hash && payments.adapter == cfg.adapter && payments.faults == cfg.faults &&
      payments.service.publisher == cfg.publisher && !cfg.open &&
      orders.Valid() && payments.service.Valid() &&
      m == S.Exec(cfg, S.Initial(), run) && m.db == orders.m && m.pay == payments.service.m
    }

    /** A cached order is the row, up to the status, and entirely unless it is known to be stale. */
    ghost predicate CacheFits()
      reads this`stale, orders`orders, cache`entries
    {
      forall id :: id in cache.entries ==>
        var o := cache.entries[id].order;
        id in orders.orders && T.SameOrder(o, orders.orders[id]) && (id !in stale ==> o == orders.orders[id])
    }

    ghost predicate Valid()
      reads this, orders, payments.service, payments.service.repo, payments.service.pub, cache
    {
      Linked() && CacheFits()
    }

    ghost method Did(l: S.Label)
      modifies this`m, this`run
      ensures m == S.Next(cfg, old(m), l) && run == old(run) + [l]
      ensures old(m) == S.Exec(cfg, S.Initial(), old(run)) ==> m == S.Exec(cfg, S.Initial(), run)
    {
      S.ExecStep(cfg, S.Initial(), run, l);
      m, run := S.Next(cfg, m, l), run + [l];
    }

    /** The saga takes the steps the repository has just taken in its transaction. */
    ghost method DidInTransaction(before: seq<T.Label>)
      requires m == S.Exec(cfg, S.Initial(), run) && orders.m == T.Exec(cfg.hash, T.Initial(), orders.run)
      requires m.db == T.Exec(cfg.hash, T.Initial(), before) && before <= orders.run
      requires forall i :: |before| <= i < |orders.run| ==> !orders.run[i].Begin? && !orders.run[i].UpdateStatus?
      modifies this`m, this`run
      ensures m == old(m).(db := orders.m) && m == S.Exec(cfg, S.Initial(), run)
    {
      hide S.Exec, T.Exec, S.Next;
      var steps := orders.run[|before|..];
      assert before + steps == orders.run;
      Steps.DbRun(cfg.hash, T.Initial(), before, steps);
      Steps.DbSteps(cfg, run, steps);
      m, run := m.(db := orders.m), run + Steps.DbLabels(steps);
    }

    ghost method DidInPayment(before: seq<P.Label>, steps: seq<P.Label>)
      requires m == S.Exec(cfg, S.Initial(), run) && payments.service.m == P.Exec(cfg.publisher, P.Initial(), payments.service.run)
      requires m.pay == P.Exec(cfg.publisher, P.Initial(), before) && payments.service.run == before + steps
      requires forall l :: l in steps ==> !l.Begin?
      modifies this`m, this`run
      ensures m == old(m).(pay := payments.service.m) && m == S.Exec(cfg, S.Initial(), run)
    {
      hide S.Exec, P.Exec, S.Next;
      Steps.PayRun(cfg.publisher, P.Initial(), before, steps);
      Steps.PaySteps(cfg, run, steps);
      m, run := m.(pay := payments.service.m), run + Steps.PayLabels(steps);
    }

    /** CreateOrder.invalidate */
    method Invalidate(orderId: string)
      requires Valid()
      modifies this`stale, cache`entries, env`cacheFaultsLeft
      ensures Valid() && stale <= old(stale) && env.cacheFaultsLeft <= old(env.cacheFaultsLeft)
      ensures cache.entries == old(cache.entries) || cache.entries == old(cache.entries) - {orderId}
      ensures env.cacheFaultsLeft == old(env.cacheFaultsLeft) && orderId != "" ==> stale == old(stale) - {orderId} && orderId !in cache.entries
    {
      hide S.Exec, T.SameOrder;
      ghost var outcome;
      var ok;
      ok, outcome := cache.Delete(orderId);
      if orderId != "" && !outcome.Rejected? {
        stale := stale - {orderId};
      }
    }

    /** Adding an order keeps the cache right. */
    twostate lemma CacheKept(o: T.Order)
      requires old(CacheFits()) && cache.entries == old(cache.entries) && stale == old(stale)
      requires orders.orders == old(orders.orders) || (orders.orders == old(orders.orders)[o.id := o] && o.id !in old(orders.orders))
      ensures CacheFits()
    {
      hide T.SameOrder;
    }

    function AfterPlacing(order: Option<T.Order>, email: string): S.Proc {
      match order
      case None => S.Finished(S.Failure(None, S.StoreError))
      case Some(o) => if o.status.Pending? then S.Calling(o, email) else S.Finished(S.Success(o))
    }

    /** The saga's side of CreatePendingWithIdempotency. */
    ghost method DidPlace(input: S.Input, p: nat, before: seq<T.Label>, order: Option<T.Order>)
      requires m == S.Exec(cfg, S.Initial(), run) && orders.m == T.Exec(cfg.hash, T.Initial(), orders.run)
      requires S.ValidInput(input) && p !in m.procs && p !in m.db.txs && m.db == T.Exec(cfg.hash, T.Initial(), before)
      requires before + [T.Begin(p, S.RequestOf(input))] <= orders.run
      requires forall i :: |before| < i < |orders.run| ==> !orders.run[i].Begin? && !orders.run[i].UpdateStatus?
      requires orders.m.txs == m.db.txs[p := if order.Some? then T.Returned(S.RequestOf(input), order.value) else T.Aborted(S.RequestOf(input))]
      modifies this`m, this`run
      ensures m == S.Exec(cfg, S.Initial(), run)
      ensures m == S.State(orders.m, old(m.pay), old(m.procs)[p := AfterPlacing(order, TrimSpace(input.email))])
    {
      hide S.Exec, S.Next, T.Exec, T.Next, TrimSpace, S.ValidInput;
      Steps.CreateStep(cfg, m, p, input);
      Did(S.Create(p, input));
      T.ExecStep(cfg.hash, T.Initial(), before, T.Begin(p, S.RequestOf(input)));
      DidInTransaction(before + [T.Begin(p, S.RequestOf(input))]);
      Steps.StoredStep(cfg, m, p, TrimSpace(input.email));
      Did(S.Stored(p));
    }

    /** The first part of CreateOrder: the order is stored, or found again by its key. */
    method Place(input: S.Input, id: string, at: int, ghost p: nat) returns (order: Option<T.Order>)
      requires Valid() && S.ValidInput(input) && p !in m.procs && p !in m.db.txs && IsUuid(id) && id !in m.db.used
      modifies this`m, this`run, orders, env`faultsLeft
      ensures Valid() && m.pay == old(m.pay) && T.Grows(old(m.db), m.db) && env.faultsLeft <= old(env.faultsLeft) &&
              (order.None? <==> env.faultsLeft < old(env.faultsLeft))
      ensures m.procs == old(m.procs)[p := AfterPlacing(order, TrimSpace(input.email))]
      ensures var new_ := T.NewOrder(S.RequestOf(input), id, at);
        id !in old(orders.orders) && orders.OnlyAdds(input.key, new_) &&
        (order.Some? ==>
           order.value.id in orders.orders && orders.orders[order.value.id] == order.value &&
           if T.Keyed(S.RequestOf(input)) && input.key.value in old(orders.keys) then
             order.value.id == old(orders.keys)[input.key.value] && orders.orders == old(orders.orders) && orders.keys == old(orders.keys)
           else order.value == new_ && (T.Keyed(S.RequestOf(input)) ==> input.key.value in orders.keys && orders.keys[input.key.value] == id))
      ensures order.Some? && !(input.key.Some? && input.key.value != "" && input.key.value in old(orders.keys)) ==>
                order.value == T.Order(id, TrimSpace(input.customer), TrimSpace(input.item), input.amount, T.Pending, at)
      ensures id in orders.orders ==>
                orders.orders[id] == T.Order(id, TrimSpace(input.customer), TrimSpace(input.item), input.amount, T.Pending, at)
    {
      hide S.Exec, S.Next, T.Exec, T.Next, P.Exec, T.Grows, TrimSpace, IsUuid, S.ValidInput, T.SameOrder, CacheFits, AfterPlacing;
      AmountIsPositive(input);
      var customer, item := TrimSpace(input.customer), TrimSpace(input.item);
      ghost var before := orders.run;
      orders.LinksExist();
      var existed;
      order, existed := orders.CreatePendingWithIdempotency(input.key, customer, item, input.amount, id, at, p);
      DidPlace(input, p, before, order);
      orders.LinksExist();
      CacheKept(T.NewOrder(S.RequestOf(input), id, at));
    }

    /** The saga's side of a call of the payment service. */
    ghost method DidAsk(p: nat, o: T.Order, email: string, c: nat, before: seq<P.Label>, call: Option<nat>, fault: Option<A.Reply>,
                        reply: A.Reply, steps: seq<P.Label>)
      requires m == S.Exec(cfg, S.Initial(), run) && payments.service.m == P.Exec(cfg.publisher, P.Initial(), payments.service.run)
      requires p in m.procs && m.procs[p] == S.Calling(o, email) && m.pay == P.Exec(cfg.publisher, P.Initial(), before) && c !in m.pay.calls
      requires match call
        case None => fault.Some? && payments.service.m == m.pay
        case Some(k) => k == c && payments.service.run == before + [P.Begin(c, P.Input(o.id, o.amount, email))] + steps &&
                        (forall l :: l in steps ==> !l.Begin?) && c in payments.service.m.calls && payments.service.m.calls[c].stage.Finished? &&
                        (fault.None? ==> reply == A.Served(cfg.adapter, payments.service.m.calls[c].stage.outcome))
      requires fault.Some? ==> reply == fault.value && S.DisturbsAuthorize(cfg, reply)
      modifies this`m, this`run
      ensures m == S.Exec(cfg, S.Initial(), run)
      ensures m == S.State(old(m.db), payments.service.m, old(m.procs)[p := S.AfterAuthorize(o, A.Authorize(reply))])
    {
      hide S.Exec, S.Next, P.Exec, P.Next, S.AfterAuthorize, S.DisturbsAuthorize;
      Steps.CallStep(cfg, m, p, o, email, call);
      Did(S.Call(p, call));
      if call.Some? {
        P.ExecStep(cfg.publisher, P.Initial(), before, P.Begin(c, P.Input(o.id, o.amount, email)));
        DidInPayment(before + [P.Begin(c, P.Input(o.id, o.amount, email))], steps);
      }
      Steps.AnsweredStep(cfg, m, p, o, call, fault, reply);
      Did(S.Answered(p, fault));
    }

    /** The call of the payment service, and what the process does with its answer. */
    method AskPayment(o: T.Order, email: string, id: string, transactionId: string, ghost p: nat, ghost c: nat)
      returns (answer: A.Answer, ghost reply: A.Reply)
      requires Valid() && p in m.procs && m.procs[p] == S.Calling(o, email)
      requires c !in m.pay.calls && IsUuid(id) && id !in m.pay.used
      requires o.amount > 0 && o.id != "" && TrimSpace(email) != ""
      requires forall row :: row in payments.service.repo.rows ==> row.transactionId != transactionId && row.id != id
      modifies this`m, this`run, payments.service, payments.service.repo, payments.service.pub, env`faultsLeft
      ensures Valid() && m.db == old(m.db) && P.Grows(old(m.pay), m.pay) && env.faultsLeft <= old(env.faultsLeft)
      ensures m.procs == old(m.procs)[p := S.AfterAuthorize(o, answer)] && answer == A.Authorize(reply)
      ensures env.faultsLeft == old(env.faultsLeft) ==>
                reply == OwnReply(cfg.adapter, exists row :: row in old(payments.service.repo.rows) && row.orderId == o.id, o.amount)
      ensures answer.Status? || answer.AlreadyRecorded? || answer.Unavailable? || answer.OtherError?
      ensures answer.AlreadyRecorded? ==> P.FindRow(payments.service.repo.rows, o.id).Some?
      ensures answer.Status? ==> Decides(cfg, S.StatusToWrite(answer.status), o.amount, env.faultsLeft < old(env.faultsLeft))
      ensures answer.AlreadyRecorded? ==> cfg.adapter.Rest?
      ensures var row := P.NewPayment(P.Input(o.id, o.amount, email), id, transactionId);
        (payments.service.repo.rows == old(payments.service.repo.rows) || payments.service.repo.rows == old(payments.service.repo.rows) + [row])
      ensures env.faultsLeft == old(env.faultsLeft) ==>
                if P.FindRow(old(payments.service.repo.rows), o.id).Some? then
                  if cfg.adapter.Rest? then answer.AlreadyRecorded? else answer.Unavailable?
                else answer.Status?
      ensures answer.OtherError? ==> GenericOccurs(cfg.faults)
    {
      hide S.Exec, S.Next, P.Exec, P.Next, T.Exec, P.Grows, TrimSpace, IsUuid, T.SameOrder, P.FindRow, P.Clashes, Effects, Undisturbed,
           S.AfterAuthorize, CacheFits, A.GenericOnPost, A.GenericOnQuery;
      ghost var input := P.Input(o.id, o.amount, email);
      ghost var call, fault, steps;
      ghost var paid := payments.service.run;
      ghost var rows := payments.service.repo.rows;
      answer, call, fault, reply, steps := payments.Authorize(o.id, o.amount, email, id, transactionId, c);
      DidAsk(p, o, email, c, paid, call, fault, reply, steps);
      if fault.Some? {
        A.RepliesReadAs(reply);
        NoiseDecides(cfg, reply, o.amount);
      }
      if call.Some? {
        ghost var outcome := m.pay.calls[c].stage.outcome;
        NoClash(rows, input, id, transactionId);
        GoodArguments(cfg.publisher, rows, input, id, transactionId);
        OwnReplyIs(cfg, rows, input, id, transactionId);
        EffectsOnRows(cfg.publisher, rows, old(payments.service.pub.events), payments.service.repo.rows, payments.service.pub.events,
                      input, P.NewPayment(input, id, transactionId), outcome);
      }
    }

    /** The unconditional UPDATE; from here on the cache may be stale. */
    method WriteRow(o: T.Order, status: T.OrderStatus) returns (ok: bool, ghost written: WriteOutcome)
      requires orders.Valid() && orders.env == env && CacheFits() && o.id in orders.orders && orders.orders[o.id] == o
      modifies this`stale, orders`orders, orders`m, orders`run, env`faultsLeft
      ensures orders.Valid() && CacheFits() && (ok <==> written.Applied?)
      ensures orders.m == if written.Rejected? then old(orders.m) else T.OnUpdateStatus(old(orders.m), o.id, status)
      ensures orders.orders == if written.Rejected? then old(orders.orders) else old(orders.orders)[o.id := o.(status := status)]
      ensures stale == if written.Rejected? then old(stale) else old(stale) + {o.id}
      ensures env.faultsLeft == old(env.faultsLeft) - if ok then 0 else 1
    {
      hide T.Exec, T.OnUpdateStatus;
      ok, written := orders.UpdateStatus(o.id, status);
      if !written.Rejected? {
        stale := stale + {o.id};
      }
    }

    /** Nothing has failed since, neither a store, nor the payment service, nor the cache. */
    twostate predicate Calm()
      reads env
    {
      env.faultsLeft == old(env.faultsLeft) && env.cacheFaultsLeft == old(env.cacheFaultsLeft)
    }

    /** UpdateStatus, told to the cache as the use cases do: only a write that came back without an error invalidates. */
    method SettleStatus(o: T.Order, status: T.OrderStatus, ghost p: nat) returns (outcome: S.Outcome)
      requires Valid() && p in m.procs && m.procs[p] == S.Writing(o, status)
      requires o.id in orders.orders && orders.orders[o.id] == o && o.id != ""
      modifies this, orders, cache, env`faultsLeft, env`cacheFaultsLeft
      ensures Valid() && m.pay == old(m.pay) && env.faultsLeft <= old(env.faultsLeft)
      ensures m.procs == old(m.procs)[p := S.Finished(outcome)]
      ensures outcome == if env.faultsLeft == old(env.faultsLeft) then S.Success(o.(status := status)) else S.Failure(None, S.StoreError)
      ensures orders.keys == old(orders.keys)
      ensures orders.orders == old(orders.orders)[o.id := o.(status := status)] || (outcome.Failure? && orders.orders == old(orders.orders))
      ensures Calm() ==> stale == old(stale) - {o.id}
      ensures stale <= old(stale) + {o.id}
    {
      hide S.Exec, S.Next, P.Exec, T.Exec, T.Next, CacheFits, T.SameOrder, T.OnUpdateStatus;
      var ok;
      ghost var written;
      ok, written := WriteRow(o, status);
      Steps.WriteStep(cfg, m, p, o, status, written);
      Did(S.Write(p, written));
      if !ok {
        return S.Failure(None, S.StoreError);
      }
      Invalidate(o.id);
      outcome := S.Success(o.(status := status));
    }

    /** The order to return with an error: the row if it can be read, the copy in hand otherwise. */
    method Refresh(o: T.Order, error: S.Error, ghost p: nat) returns (outcome: S.Outcome)
      requires Valid() && p in m.procs && m.procs[p] == S.Rereading(o, error)
      modifies this`m, this`run, env`faultsLeft
      ensures Valid() && m.pay == old(m.pay) && m.db == old(m.db) && env.faultsLeft <= old(env.faultsLeft)
      ensures m.procs == old(m.procs)[p := S.Finished(outcome)]
      ensures env.faultsLeft == old(env.faultsLeft) || env.faultsLeft == old(env.faultsLeft) - 1
      ensures outcome == S.Failure(Some(if env.faultsLeft == old(env.faultsLeft) && o.id in orders.orders then orders.orders[o.id] else o), error)
    {
      hide S.Exec, S.Next, P.Exec, T.Exec, T.Next;
      var ok, row := orders.GetByID(o.id);
      Steps.RereadStep(cfg, m, p, o, error, ok);
      Did(S.Reread(p, ok));
      outcome := S.Failure(Some(if ok && row.Some? then row.value else o), error);
    }

    /** After a generic error: Failed is written, whatever comes of it. */
    method GiveUp(o: T.Order, ghost p: nat) returns (outcome: S.Outcome)
      requires Valid() && p in m.procs && m.procs[p] == S.Failing(o)
      requires o.id in orders.orders && orders.orders[o.id] == o && o.id != ""
      modifies this, orders, cache, env`faultsLeft, env`cacheFaultsLeft
      ensures Valid() && m.pay == old(m.pay) && env.faultsLeft <= old(env.faultsLeft)
      ensures m.procs == old(m.procs)[p := S.Finished(outcome)]
      ensures orders.keys == old(orders.keys)
      ensures orders.orders == old(orders.orders)[o.id := o.(status := T.Failed)] || orders.orders == old(orders.orders)
      ensures env.faultsLeft == old(env.faultsLeft) ==> orders.orders == old(orders.orders)[o.id := o.(status := T.Failed)]
      ensures Calm() ==> stale == old(stale) - {o.id}
      ensures o.id in orders.orders
      ensures outcome == S.Failure(Some(if orders.orders == old(orders.orders) && env.faultsLeft == old(env.faultsLeft) - 1 then o
                                        else o.(status := T.Failed)), S.PaymentError)
      ensures stale <= old(stale) + {o.id}
    {
      hide S.Exec, S.Next, P.Exec, T.Exec, T.Next, CacheFits, T.SameOrder, T.OnUpdateStatus;
      var ok;
      ghost var written;
      ok, written := WriteRow(o, T.Failed);
      Steps.WriteFailedStep(cfg, m, p, o, written);
      Did(S.WriteFailed(p, written));
      Invalidate(o.id);
      outcome := Refresh(o.(status := T.Failed), S.PaymentError, p);
    }

    /** The status query, and what the process does with its answer. */
    method AskStatus(o: T.Order, ghost p: nat) returns (answer: A.Answer, ghost reply: A.Reply)
      requires Valid() && p in m.procs && m.procs[p] == S.Querying(o)
      requires o.id in orders.orders && orders.orders[o.id] == o
      requires P.FindRow(payments.service.repo.rows, o.id).Some?
      modifies this`m, this`run, env`faultsLeft
      ensures Valid() && m.pay == old(m.pay) && m.db == old(m.db) && env.faultsLeft <= old(env.faultsLeft)
      ensures m.procs == old(m.procs)[p := S.AfterGetStatus(o, answer)] && answer == A.GetStatus(reply) && reply.Http?
      ensures answer.Status? || answer.Unavailable? || answer.OtherError?
      ensures answer.Status? ==> Decides(cfg, S.StatusToWrite(answer.status), o.amount, env.faultsLeft < old(env.faultsLeft))
      ensures env.faultsLeft == old(env.faultsLeft) ==> answer.Status? && A.Carries(reply, if o.amount <= 100000 then "Authorized" else "Declined")
      ensures answer.OtherError? ==> GenericOccurs(cfg.faults)
    {
      hide S.Exec, S.Next, P.Exec, T.Exec, T.Next, P.FindRow, CacheFits, A.HttpGet, A.Carries, A.GetStatus, A.GenericOnQuery, S.AfterGetStatus;
      ghost var fault;
      QueryingIsRest(p);
      OwnAnswer(o);
      answer, fault, reply := payments.GetStatus(o.id);
      A.RepliesReadAs(reply);
      if fault.Some? {
        NoiseOnQueryDecides(cfg, reply, o.amount);
      }
      Steps.QueriedStep(cfg, m, p, o, fault, reply);
      Did(S.Queried(p, fault));
    }

    /** reconcileFromPaymentService: the payment was found recorded, so its status decides. */
    method Reconcile(o: T.Order, ghost p: nat) returns (outcome: S.Outcome, ghost reply: A.Reply)
      requires Valid() && p in m.procs && m.procs[p] == S.Querying(o)
      requires o.id in orders.orders && orders.orders[o.id] == o && o.id != ""
      requires P.FindRow(payments.service.repo.rows, o.id).Some?
      modifies this, orders, cache, env`faultsLeft, env`cacheFaultsLeft
      ensures Valid() && m.pay == old(m.pay) && env.faultsLeft <= old(env.faultsLeft)
      ensures m.procs == old(m.procs)[p := S.Finished(outcome)]
      ensures orders.keys == old(orders.keys)
      ensures orders.orders == old(orders.orders) ||
              (Settling(old(orders.orders), orders.orders, o) && o.id in orders.orders &&
               Decides(cfg, orders.orders[o.id].status, o.amount, env.faultsLeft < old(env.faultsLeft)))
      ensures outcome.Success? ==>
                outcome.order == o.(status := outcome.order.status) && o.id in orders.orders && orders.orders[o.id] == outcome.order &&
                Decides(cfg, outcome.order.status, o.amount, env.faultsLeft < old(env.faultsLeft))
      ensures outcome.Failure? ==> env.faultsLeft < old(env.faultsLeft) &&
                                   (outcome.error.StoreError? || outcome.error.PaymentUnavailable? || outcome.error.PaymentError?)
      ensures Calm() ==> stale == old(stale) - {o.id}
      ensures stale <= old(stale) + {o.id}
      ensures reply.Http? && (env.faultsLeft == old(env.faultsLeft) ==> A.Carries(reply, if o.amount <= 100000 then "Authorized" else "Declined"))
      ensures Reconciled(old(orders.orders), orders.orders, o, reply, outcome)
      ensures outcome.Failure? && outcome.error.PaymentError? ==> GenericOccurs(cfg.faults)
    {
      hide S.Exec, S.Next, P.Exec, T.Exec, T.Next, P.FindRow, R.Outcome, CacheFits, Reconciled, A.Carries, A.GetStatus, GenericOccurs;
      OutcomeSettles(o.amount);
      ghost var before := orders.orders;
      var answer;
      answer, reply := AskStatus(o, p);
      match answer {
        case Status(text) =>
          outcome := SettleStatus(o, S.StatusToWrite(text), p);
        case NotFound =>
          outcome := S.Failure(None, S.RecordMissing);
        case Unavailable =>
          outcome := Refresh(o, S.PaymentUnavailable, p);
        case _ =>
          outcome := S.Failure(None, S.PaymentError);
      }
      ReconciledBy(before, orders.orders, o, reply, outcome);
    }

    /** The service's own reply to the status query, for a recorded payment. */
    lemma OwnAnswer(o: T.Order)
      requires Linked() && o.id in orders.orders && orders.orders[o.id] == o && P.FindRow(payments.service.repo.rows, o.id).Some?
      ensures var reply := A.Http(A.HttpGet(P.FindRow(payments.service.repo.rows, o.id)));
        A.Carries(reply, if o.amount <= 100000 then "Authorized" else "Declined") && !A.GetStatus(reply).NotFound?
    {
      hide S.Exec, T.Exec, P.Exec, P.FindRow;
      OrderFacts(o);
      A.OwnReplies(P.Refused(P.Internal), P.FindRow(payments.service.repo.rows, o.id));
    }

    lemma QueryingIsRest(p: nat)
      requires Linked() && p in m.procs && m.procs[p].Querying?
      ensures cfg.adapter.Rest?
    {
      hide S.Exec, T.Exec, P.Exec, G.PartsFit, G.CallsMatch, G.HistoriesFit, G.Known, G.Recorded;
      G.AlwaysFits(cfg, run);
      assert G.ProcFits(cfg, m, m.procs[p]);
    }

    lemma OrderFacts(o: T.Order)
      requires Linked() && o.id in orders.orders && orders.orders[o.id] == o
      ensures o.amount > 0 && o.id != ""
      ensures P.FindRow(payments.service.repo.rows, o.id).Some? ==>
                var row := P.FindRow(payments.service.repo.rows, o.id).value;
                (if row.status.Authorized? then T.Paid else T.Failed) == R.Outcome(o.amount)
    {
      hide S.Exec, T.Exec, P.Exec, P.FindRow, G.Fits, R.Outcome;
      G.AlwaysFits(cfg, run);
      R.OrderFacts(cfg, m, o.id);
      if P.FindRow(m.pay.rows, o.id).Some? {
        R.StoredAmountDecides(cfg, m, o.id, P.FindRow(m.pay.rows, o.id).value);
      }
    }

    /** What CreateOrder does with the answer to its call. */
    method ActOn(answer: A.Answer, o: T.Order, ghost reply: A.Reply, ghost p: nat) returns (outcome: S.Outcome, ghost query: Option<A.Reply>)
      requires Valid() && p in m.procs && m.procs[p] == S.AfterAuthorize(o, answer) && answer == A.Authorize(reply)
      requires o.id in orders.orders && orders.orders[o.id] == o && o.id != ""
      requires answer.Status? || answer.AlreadyRecorded? || answer.Unavailable? || answer.OtherError?
      requires answer.AlreadyRecorded? ==> P.FindRow(payments.service.repo.rows, o.id).Some?
      modifies this, orders, cache, env`faultsLeft, env`cacheFaultsLeft
      ensures Valid() && m.pay == old(m.pay) && env.faultsLeft <= old(env.faultsLeft)
      ensures m.procs == old(m.procs)[p := S.Finished(outcome)]
      ensures orders.keys == old(orders.keys) && Settling(old(orders.orders), orders.orders, o)
      ensures PaidAsTold(old(orders.orders), orders.orders, o, reply, query, outcome)
      ensures outcome.Success? ==>
                outcome.order == o.(status := outcome.order.status) && o.id in orders.orders && orders.orders[o.id] == outcome.order &&
                (if answer.Status? then outcome.order.status == S.StatusToWrite(answer.status)
                 else Decides(cfg, outcome.order.status, o.amount, env.faultsLeft < old(env.faultsLeft)))
      ensures outcome.Failure? ==> outcome.error.StoreError? || outcome.error.PaymentUnavailable? || outcome.error.PaymentError?
      ensures env.faultsLeft == old(env.faultsLeft) ==>
                if answer.Status? || answer.AlreadyRecorded? then outcome.Success?
                else answer.Unavailable? ==> outcome == S.Failure(Some(o), S.PaymentUnavailable)
      ensures Calm() ==> stale <= old(stale)
      ensures outcome.Failure? && outcome.error.PaymentError? ==> answer.OtherError? || GenericOccurs(cfg.faults)
      ensures outcome.Failure? ==> if outcome.error.PaymentUnavailable? then outcome.attached == Some(o)
                                   else outcome.error.StoreError? ==> outcome.attached.None?
    {
      hide S.Exec, S.Next, P.Exec, T.Exec, T.Next, P.FindRow, CacheFits, PaidAsTold, Reconciled, A.Authorize, A.Carries, R.Outcome, GenericOccurs,
           G.MisreadingsOccur;
      query := None;
      ghost var before := orders.orders;
      OutcomeSettles(o.amount);
      if answer.AlreadyRecorded? {
        ghost var asked;
        outcome, asked := Reconcile(o, p);
        query := Some(asked);
      } else if answer.Unavailable? {
        outcome := Refresh(o, S.PaymentUnavailable, p);
      } else if answer.Status? {
        outcome := SettleStatus(o, S.StatusToWrite(answer.status), p);
      } else {
        outcome := GiveUp(o, p);
      }
      PaidBy(before, orders.orders, o, reply, query, outcome);
      if outcome.Failure? {
        ErrorsCarry(before, orders.orders, o, reply, query, outcome);
      }
    }

    /** The payment part of CreateOrder, for an order that was Pending. */
    method Pay(o: T.Order, email: string, id: string, transactionId: string, ghost p: nat, ghost c: nat)
      returns (outcome: S.Outcome, ghost reply: A.Reply, ghost query: Option<A.Reply>)
      requires Valid() && p in m.procs && m.procs[p] == S.Calling(o, email)
      requires o.id in orders.orders && orders.orders[o.id] == o
      requires c !in m.pay.calls && IsUuid(id) && id !in m.pay.used && TrimSpace(email) != ""
      requires forall row :: row in payments.service.repo.rows ==> row.transactionId != transactionId && row.id != id
      modifies this, orders, cache, payments.service, payments.service.repo, payments.service.pub, env`faultsLeft, env`cacheFaultsLeft
      ensures Valid() && env.faultsLeft <= old(env.faultsLeft)
      ensures m.procs == old(m.procs)[p := S.Finished(outcome)]
      ensures orders.keys == old(orders.keys) && Settling(old(orders.orders), orders.orders, o)
      ensures var row := P.NewPayment(P.Input(o.id, o.amount, email), id, transactionId);
        payments.service.repo.rows == old(payments.service.repo.rows) || payments.service.repo.rows == old(payments.service.repo.rows) + [row]
      ensures outcome.Success? ==>
                outcome.order == o.(status := outcome.order.status) && o.id in orders.orders && orders.orders[o.id] == outcome.order &&
                Decides(cfg, outcome.order.status, o.amount, env.faultsLeft < old(env.faultsLeft))
      ensures outcome.Failure? ==> outcome.error.StoreError? || outcome.error.PaymentUnavailable? || outcome.error.PaymentError?
      ensures PaidAsTold(old(orders.orders), orders.orders, o, reply, query, outcome)
      ensures env.faultsLeft == old(env.faultsLeft) ==>
                var recorded := exists row :: row in old(payments.service.repo.rows) && row.orderId == o.id;
                reply == OwnReply(cfg.adapter, recorded, o.amount) &&
                (outcome.Success? || (cfg.adapter.Grpc? && recorded && outcome == S.Failure(Some(o), S.PaymentUnavailable)))
      ensures Calm() ==> stale <= old(stale)
      ensures outcome.Failure? && outcome.error.PaymentError? ==>
                GenericOccurs(cfg.faults)
      ensures outcome.Failure? ==> if outcome.error.PaymentUnavailable? then outcome.attached == Some(o)
                                   else outcome.error.StoreError? ==> outcome.attached.None?
    {
      hide S.Exec, S.Next, P.Exec, T.Exec, T.Next, P.FindRow, IsUuid, TrimSpace, CacheFits, PaidAsTold, A.Authorize, OwnReply, P.NewPayment, R.Outcome,
           P.Grows, GenericOccurs, G.MisreadingsOccur, S.AfterAuthorize, Settling;
      OrderFacts(o);
      var answer;
      answer, reply := AskPayment(o, email, id, transactionId, p, c);
      if answer.InvalidArgument? {
        return S.Failure(None, S.InvalidInput), reply, None;
      }
      outcome, query := ActOn(answer, o, reply, p);
    }

    lemma UnusedIsNoOrder(id: string)
      requires Linked() && id !in m.db.used
      ensures id !in orders.orders
    {
      hide S.Exec, T.Exec, P.Exec;
      orders.LinksExist();
    }

    lemma Placed(order: Option<T.Order>, email: string)
      ensures AfterPlacing(order, email) ==
              if order.None? then S.Finished(S.Failure(None, S.StoreError))
              else if order.value.status.Pending? then S.Calling(order.value, email)
              else S.Finished(S.Success(order.value))
    {
    }

    /** The payment part, for the order just placed or found again as Pending; `before` are the orders of the time before. */
    method PayPlaced(o: T.Order, input: S.Input, id: string, at: int, paymentId: string, transactionId: string, ghost p: nat, ghost c: nat,
                     ghost before: map<string, T.Order>, ghost made: T.Order)
      returns (outcome: S.Outcome)
      requires Valid() && p in m.procs && m.procs[p] == S.Calling(o, TrimSpace(input.email)) && TrimSpace(TrimSpace(input.email)) != ""
      requires o.id in orders.orders && orders.orders[o.id] == o && o.status.Pending? && c !in m.pay.calls
      requires IsUuid(paymentId) && paymentId !in m.pay.used
      requires forall row :: row in payments.service.repo.rows ==> row.transactionId != transactionId && row.id != paymentId
      requires Placing(before, orders.orders, made) && made.status.Pending? && (id in orders.orders ==> AskedFor(input, id, at, orders.orders[id]))
      requires T.Keyed(S.RequestOf(input)) ==> S.RequestOf(input).key.value in orders.keys && orders.keys[S.RequestOf(input).key.value] == o.id
      modifies this, orders, cache, payments.service, payments.service.repo, payments.service.pub, env`faultsLeft, env`cacheFaultsLeft
      ensures Valid() && env.faultsLeft <= old(env.faultsLeft)
      ensures m.procs == old(m.procs)[p := S.Finished(outcome)] && orders.keys == old(orders.keys)
      ensures outcome.Failure? ==> outcome.error.StoreError? || outcome.error.PaymentUnavailable? || outcome.error.PaymentError?
      ensures OnlyPendingMoves(before, orders.orders) && (id in orders.orders ==> AskedFor(input, id, at, orders.orders[id]))
      ensures outcome.Success? ==> outcome.order.id == o.id &&
                                   Returned(cfg, before, orders.orders, orders.keys, S.RequestOf(input), outcome.order, env.faultsLeft < old(env.faultsLeft))
      ensures |payments.service.repo.rows| <= |old(payments.service.repo.rows)| + 1
      ensures env.faultsLeft == old(env.faultsLeft) ==>
                outcome.Success? ||
                (cfg.adapter.Grpc? && outcome == S.Failure(Some(o), S.PaymentUnavailable) &&
                 exists row :: row in old(payments.service.repo.rows) && row.orderId == o.id)
      ensures outcome.Failure? && outcome.error.PaymentError? ==> GenericOccurs(cfg.faults)
      ensures outcome.Failure? ==> if outcome.error.PaymentUnavailable? then outcome.attached == Some(o)
                                   else outcome.error.StoreError? ==> outcome.attached.None?
      ensures Calm() ==> stale <= old(stale)
    {
      hide S.Exec, S.Next, P.Exec, T.Exec, T.Next, P.FindRow, IsUuid, TrimSpace, R.Outcome, S.ValidInput, T.Grows, T.Keyed, CacheFits,
           OnlyPendingMoves, Settling, AskedFor, Returned, Decides, GenericOccurs, PaidAsTold, OwnReply, S.RequestOf, P.NewPayment, Placing, Linked;
      OutcomeSettles(o.amount);
      ghost var middle := orders.orders;
      ghost var reply, query;
      outcome, reply, query := Pay(o, TrimSpace(input.email), paymentId, transactionId, p, c);
      MovesInTwoParts(before, middle, orders.orders, made, o);
      AskedStays(middle, orders.orders, o, input, id, at);
      if outcome.Success? {
        ReturnedPaid(cfg, orders.orders, orders.keys, S.RequestOf(input), o, outcome.order, before, env.faultsLeft < old(env.faultsLeft));
      }
    }

    /** CreateOrder after the input check. */
    method PlaceAndPay(input: S.Input, id: string, at: int, paymentId: string, transactionId: string, ghost p: nat, ghost c: nat)
      returns (outcome: S.Outcome)
      requires Valid() && S.ValidInput(input) && p !in m.procs && p !in m.db.txs && c !in m.pay.calls
      requires IsUuid(id) && id !in m.db.used && IsUuid(paymentId) && paymentId !in m.pay.used
      requires forall row :: row in payments.service.repo.rows ==> row.transactionId != transactionId && row.id != paymentId
      modifies this, orders, cache, payments.service, payments.service.repo, payments.service.pub, env`faultsLeft, env`cacheFaultsLeft
      ensures Valid() && env.faultsLeft <= old(env.faultsLeft)
      ensures m.procs == old(m.procs)[p := S.Finished(outcome)]
      ensures outcome.Failure? ==> outcome.error.StoreError? || outcome.error.PaymentUnavailable? || outcome.error.PaymentError?
      ensures OnlyPendingMoves(old(orders.orders), orders.orders) &&
              (outcome.Success? ==> Returned(cfg, old(orders.orders), orders.orders, orders.keys, S.RequestOf(input), outcome.order,
                                              env.faultsLeft < old(env.faultsLeft)))
      ensures |payments.service.repo.rows| <= |old(payments.service.repo.rows)| + 1
      ensures id in orders.orders ==> AskedFor(input, id, at, orders.orders[id])
      ensures outcome.Success? ==>
                if input.key.Some? && input.key.value != "" && input.key.value in old(orders.keys) then
                  outcome.order.id == old(orders.keys)[input.key.value]
                else outcome.order.id == id && AskedFor(input, id, at, outcome.order)
      ensures env.faultsLeft == old(env.faultsLeft) ==>
                outcome.Success? ||
                (cfg.adapter.Grpc? && outcome.error.PaymentUnavailable? && outcome.attached.Some? &&
                 exists row :: row in old(payments.service.repo.rows) && row.orderId == outcome.attached.value.id)
      ensures outcome.Failure? && outcome.error.PaymentError? ==>
                GenericOccurs(cfg.faults)
      ensures outcome.Failure? && outcome.error.PaymentUnavailable? ==> outcome.attached.Some?
      ensures outcome.Failure? && outcome.error.StoreError? ==> outcome.attached.None?
      ensures Calm() ==> stale <= old(stale)
    {
      hide S.Exec, S.Next, P.Exec, T.Exec, T.Next, P.FindRow, IsUuid, TrimSpace, R.Outcome, AfterPlacing, S.ValidInput, T.Grows, T.Keyed, T.NewOrder, CacheFits,
           OnlyPendingMoves, Settling, AskedFor, Returned, Decides, GenericOccurs, S.RequestOf, Linked;
      EmailIsGood(input);
      ghost var before := orders.orders;
      ghost var req, made := S.RequestOf(input), T.NewOrder(S.RequestOf(input), id, at);
      NewIsPending(req, id, at);
      KeyedMeans(input);
      var order := Place(input, id, at, p);
      Placed(order, TrimSpace(input.email));
      AskedAtFirst(input, id, at);
      if order.None? || !order.value.status.Pending? {
        MovesAtMostByPlacing(before, orders.orders, made);
        if order.None? {
          return S.Failure(None, S.StoreError);
        }
        ReturnedAtOnce(cfg, before, orders.orders, orders.keys, req, order.value, env.faultsLeft < old(env.faultsLeft));
        return S.Success(order.value);
      }
      ghost var left := env.faultsLeft;
      outcome := PayPlaced(order.value, input, id, at, paymentId, transactionId, p, c, before, made);
      if outcome.Success? {
        ReturnedAnyway(cfg, before, orders.orders, orders.keys, req, outcome.order, env.faultsLeft < left, env.faultsLeft < old(env.faultsLeft));
      }
    }

    /** CreateOrder.Execute as process p. Without a fault the only ending but success is a retry behind gRPC that meets
        a payment already recorded. */
    method CreateOrder(input: S.Input, id: string, at: int, paymentId: string, transactionId: string, ghost p: nat, ghost c: nat)
      returns (outcome: S.Outcome)
      requires Valid() && p !in m.procs && p !in m.db.txs && c !in m.pay.calls
      requires IsUuid(id) && id !in m.db.used && IsUuid(paymentId) && paymentId !in m.pay.used
      requires forall row :: row in payments.service.repo.rows ==> row.transactionId != transactionId && row.id != paymentId
      modifies this, orders, cache, payments.service, payments.service.repo, payments.service.pub, env`faultsLeft, env`cacheFaultsLeft
      ensures Valid() && env.faultsLeft <= old(env.faultsLeft)
      ensures m.procs == old(m.procs)[p := S.Finished(outcome)]
      ensures outcome == S.Failure(None, S.InvalidInput) <==> Invalid(input)
      ensures Invalid(input) ==> orders.orders == old(orders.orders) && payments.service.repo.rows == old(payments.service.repo.rows)
      ensures !Invalid(input) && outcome.Failure? ==>
                outcome.error.StoreError? || outcome.error.PaymentUnavailable? || outcome.error.PaymentError?
      ensures OnlyPendingMoves(old(orders.orders), orders.orders) &&
              (outcome.Success? ==> Returned(cfg, old(orders.orders), orders.orders, orders.keys, S.RequestOf(input), outcome.order,
                                              env.faultsLeft < old(env.faultsLeft)))
      ensures |payments.service.repo.rows| <= |old(payments.service.repo.rows)| + 1
      ensures id in orders.orders ==> AskedFor(input, id, at, orders.orders[id])
      ensures outcome.Success? ==>
                if input.key.Some? && input.key.value != "" && input.key.value in old(orders.keys) then
                  outcome.order.id == old(orders.keys)[input.key.value]
                else outcome.order.id == id && AskedFor(input, id, at, outcome.order)
      ensures !Invalid(input) && env.faultsLeft == old(env.faultsLeft) ==>
                outcome.Success? ||
                (cfg.adapter.Grpc? && outcome.error.PaymentUnavailable? && outcome.attached.Some? &&
                 exists row :: row in old(payments.service.repo.rows) && row.orderId == outcome.attached.value.id)
      ensures env.faultsLeft == old(env.faultsLeft) && outcome.Success? &&
              (outcome.order.id in old(orders.orders) ==> old(orders.orders)[outcome.order.id].status.Pending?) ==>
                outcome.order.status == if outcome.order.amount <= 100000 then T.Paid else T.Failed
      ensures outcome.Failure? && outcome.error.PaymentError? ==>
                GenericOccurs(cfg.faults)
      ensures outcome.Failure? && outcome.error.PaymentUnavailable? ==> outcome.attached.Some?
      ensures outcome.Failure? && outcome.error.StoreError? ==> outcome.attached.None?
      ensures Calm() ==> stale <= old(stale)
    {
      hide S.Exec, S.Next, P.Exec, T.Exec, T.Next, P.FindRow, IsUuid, TrimSpace;
      if input.amount <= 0 || TrimSpace(input.customer) == "" || TrimSpace(input.item) == "" || TrimSpace(input.email) == "" {
        UnusedIsNoOrder(id);
        Steps.CreateStep(cfg, m, p, input);
        Did(S.Create(p, input));
        return S.Failure(None, S.InvalidInput);
      }
      outcome := PlaceAndPay(input, id, at, paymentId, transactionId, p, c);
    }

    /** The write of CancelOrder and what follows it. */
    method WriteCancelled(o: T.Order, ghost p: nat) returns (outcome: S.Outcome)
      requires Valid() && p in m.procs && m.procs[p] == S.CancelWriting(o)
      requires o.id in orders.orders && orders.orders[o.id] == o && o.id != ""
      modifies this, orders, cache, env`faultsLeft, env`cacheFaultsLeft
      ensures Valid() && m.pay == old(m.pay) && env.faultsLeft <= old(env.faultsLeft)
      ensures m.procs == old(m.procs)[p := S.Finished(outcome)]
      ensures orders.keys == old(orders.keys)
      ensures outcome == if env.faultsLeft == old(env.faultsLeft) then S.Success(o.(status := T.Cancelled)) else S.Failure(None, S.StoreError)
      ensures orders.orders == old(orders.orders)[o.id := o.(status := T.Cancelled)] || (outcome.Failure? && orders.orders == old(orders.orders))
      ensures Calm() ==> stale == old(stale) - {o.id}
    {
      hide S.Exec, S.Next, P.Exec, T.Exec, T.Next, CacheFits, T.SameOrder, T.OnUpdateStatus;
      var ok;
      ghost var written;
      ok, written := WriteRow(o, T.Cancelled);
      Steps.CancelWriteStep(cfg, m, p, o, written);
      Did(S.CancelWrite(p, written));
      if !ok {
        return S.Failure(None, S.StoreError);
      }
      Invalidate(o.id);
      outcome := S.Success(o.(status := T.Cancelled));
    }

    /** The saga's side of the read of CancelOrder. */
    ghost method DidCancelRead(p: nat, id: string, ok: bool)
      requires m == S.Exec(cfg, S.Initial(), run) && p !in m.procs && p !in m.db.txs
      modifies this`m, this`run
      ensures m == S.Exec(cfg, S.Initial(), run) && m.db == old(m.db) && m.pay == old(m.pay)
      ensures m.procs == old(m.procs)[p := if !ok then S.Finished(S.Failure(None, S.StoreError))
                                           else if id !in m.db.orders then S.Finished(S.Failure(None, S.OrderNotFound))
                                           else if !m.db.orders[id].status.Pending? then S.Finished(S.Failure(None, S.CancelNotAllowed))
                                           else S.CancelWriting(m.db.orders[id])]
    {
      hide S.Exec, S.Next;
      Steps.CancelStep(cfg, m, p, id);
      Did(S.Cancel(p, id));
      Steps.CancelReadStep(cfg, m, p, id, ok);
      Did(S.CancelRead(p, ok));
    }

    /** CancelOrder.Execute as process p. Run on its own it cancels Pending orders and no others; it is the interleaved run
        that can overwrite Paid. */
    method CancelOrder(id: string, ghost p: nat) returns (outcome: S.Outcome)
      requires Valid() && p !in m.procs && p !in m.db.txs
      modifies this, orders, cache, env`faultsLeft, env`cacheFaultsLeft
      ensures Valid() && m.pay == old(m.pay) && env.faultsLeft <= old(env.faultsLeft)
      ensures m.procs == old(m.procs)[p := S.Finished(outcome)]
      ensures orders.keys == old(orders.keys)
      ensures (orders.orders == old(orders.orders) && !outcome.Success?) ||
              (id in old(orders.orders) && old(orders.orders)[id].status.Pending? &&
               orders.orders == old(orders.orders)[id := old(orders.orders)[id].(status := T.Cancelled)] &&
               (outcome == S.Success(orders.orders[id]) || outcome == S.Failure(None, S.StoreError)))
      ensures outcome.Failure? ==> (outcome.error.StoreError? <==> env.faultsLeft < old(env.faultsLeft))
      ensures outcome.Failure? && !outcome.error.StoreError? ==>
                outcome.error == if id !in old(orders.orders) then S.OrderNotFound else S.CancelNotAllowed
      ensures outcome.Failure? && outcome.error.CancelNotAllowed? ==> !old(orders.orders)[id].status.Pending?
      ensures env.faultsLeft == old(env.faultsLeft) ==>
                (outcome.Success? <==> id in old(orders.orders) && old(orders.orders)[id].status.Pending?)
      ensures Calm() ==> stale <= old(stale)
    {
      hide S.Exec, S.Next, P.Exec, T.Exec, T.Next, IsUuid, CacheFits, T.SameOrder;
      assert id in orders.orders ==> orders.orders[id].id == id && id != "" by {
        orders.LinksExist();
        if id in orders.orders {
          OrderFacts(orders.orders[id]);
        }
      }
      var ok, row := orders.GetByID(id);
      DidCancelRead(p, id, ok);
      if !ok {
        return S.Failure(None, S.StoreError);
      }
      if row.None? {
        return S.Failure(None, S.OrderNotFound);
      }
      var o := row.value;
      if !o.status.Pending? {
        return S.Failure(None, S.CancelNotAllowed);
      }
      outcome := WriteCancelled(o, p);
    }

    /** The row just read goes into the cache, if there is a positive ttl; a failure is ignored. */
    method FillCache(o: T.Order)
      requires Valid() && o.id in orders.orders && orders.orders[o.id] == o
      modifies this`stale, cache`entries, env`cacheFaultsLeft
      ensures Valid() && old(stale) - {o.id} <= stale <= old(stale) && env.cacheFaultsLeft <= old(env.cacheFaultsLeft)
      ensures cache.entries == old(cache.entries) || (cacheTtl > 0 && cache.entries == old(cache.entries)[o.id := Cached(o, env.now + cacheTtl)])
      ensures env.cacheFaultsLeft == old(env.cacheFaultsLeft) && cacheTtl > 0 ==>
                cache.entries == old(cache.entries)[o.id := Cached(o, env.now + cacheTtl)]
    {
      hide S.Exec, P.Exec, T.Exec, IsUuid, T.SameOrder;
      SameIsReflexive();
      if cacheTtl > 0 {
        ghost var filled;
        var ok;
        ok, filled := cache.Set(o, cacheTtl);
        if !filled.Rejected? {
          stale := stale - {o.id};
        }
      }
    }

    /** GetOrder.Execute. Whatever the cache does, an order that is not stale is answered as its row, and only a failed read of the
        database is an error. */
    method GetOrder(rawId: string) returns (answer: Answer)
      requires Valid()
      modifies this`stale, cache`entries, env`faultsLeft, env`cacheFaultsLeft
      ensures Valid() && stale <= old(stale) && env.faultsLeft <= old(env.faultsLeft) && env.cacheFaultsLeft <= old(env.cacheFaultsLeft)
      ensures answer.ReadError? <==> env.faultsLeft < old(env.faultsLeft)
      ensures answer == ReadError || Answers(orders.orders, TrimSpace(rawId), TrimSpace(rawId) in old(stale), answer)
      ensures forall x :: x != TrimSpace(rawId) ==> (x in cache.entries <==> x in old(cache.entries)) &&
                                                    (x in cache.entries ==> cache.entries[x] == old(cache.entries)[x])
      ensures env.cacheFaultsLeft == old(env.cacheFaultsLeft) && old(cache.IsLive(TrimSpace(rawId))) && TrimSpace(rawId) != "" ==>
                answer == Found(old(cache.entries)[TrimSpace(rawId)].order) && cache.entries == old(cache.entries)
      ensures answer.Found? && !(env.cacheFaultsLeft == old(env.cacheFaultsLeft) && old(cache.IsLive(TrimSpace(rawId)))) ==>
                TrimSpace(rawId) in orders.orders && answer.order == orders.orders[TrimSpace(rawId)]
      ensures env.cacheFaultsLeft == old(env.cacheFaultsLeft) && cacheTtl > 0 && answer.Found? ==>
                cache.IsLive(TrimSpace(rawId)) && cache.entries[TrimSpace(rawId)].order == answer.order
      ensures cacheTtl <= 0 ==> cache.entries == old(cache.entries)
    {
      hide S.Exec, S.Next, P.Exec, T.Exec, T.Next, IsUuid, TrimSpace, T.SameOrder;
      var id := TrimSpace(rawId);
      SameIsReflexive();
      if id == "" {
        orders.LinksExist();
        BlankIsNoOrder();
        return NotFound;
      }
      var ok, row := cache.Get(id);
      if ok && row.Some? {
        return Found(row.value);
      }
      ok, row := orders.GetByID(id);
      if !ok {
        return ReadError;
      }
      if row.None? {
        return NotFound;
      }
      orders.LinksExist();
      FillCache(row.value);
      answer := Found(row.value);
    }

    lemma BlankIsNoOrder()
      requires Linked()
      ensures "" !in orders.orders
    {
      hide S.Exec, T.Exec, P.Exec;
      if "" in orders.orders {
        orders.LinksExist();
        OrderFacts(orders.orders[""]);
      }
    }
  }

  /** What GetOrder answers: an order, its not-found error, or the error of the database read. */
  datatype Answer = Found(order: T.Order) | NotFound | ReadError

  /** The row, or a value that differs from the row in its status at most. */
  predicate Answers(orders: map<string, T.Order>, id: string, stale: bool, answer: Answer) {
    if id !in orders then answer == NotFound
    else answer.Found? && T.SameOrder(answer.order, orders[id]) && (!stale ==> answer.order == orders[id])
  }

  lemma SameIsReflexive()
    ensures forall o :: T.SameOrder(o, o)
  {
  }

  /** Settled orders stay as they are; a Pending one may become Paid or Failed, and nothing else about it changes. */
  predicate OnlyPendingMoves(before: map<string, T.Order>, after: map<string, T.Order>) {
    forall x :: x in before ==>
      x in after &&
      (after[x] == before[x] ||
       (before[x].status.Pending? && (after[x].status.Paid? || after[x].status.Failed?) && after[x] == before[x].(status := after[x].status)))
  }

  /** The order is written with this status and returned, or an error is and the write may have been applied. */
  predicate SettledAs(before: map<string, T.Order>, after: map<string, T.Order>, o: T.Order, status: T.OrderStatus, outcome: S.Outcome) {
    (outcome == S.Success(o.(status := status)) && after == before[o.id := o.(status := status)]) ||
    (outcome == S.Failure(None, S.StoreError) && (after == before || after == before[o.id := o.(status := status)]))
  }

  /** Some reply that can occur has no meaning to the client that gets it. */
  ghost predicate GenericOccurs(faults: set<A.Reply>) {
    exists r :: r in faults && (A.GenericOnPost(r) || A.GenericOnQuery(r))
  }

  /** An amount that is not positive, or a blank customer, item or address. */
  predicate Invalid(input: S.Input) {
    input.amount <= 0 || TrimSpace(input.customer) == "" || TrimSpace(input.item) == "" || TrimSpace(input.email) == ""
  }

  /** The order is the one this input asks for, whatever has become of it. */
  predicate AskedFor(input: S.Input, id: string, at: int, o: T.Order) {
    o.id == id && o.customer == TrimSpace(input.customer) && o.item == TrimSpace(input.item) && o.amount == input.amount && o.createdAt == at
  }

  /** What the reply to the status query comes to: while the service cannot be reached the order is returned as it is with that error; a
      status settles it; any other reply is an error without an order. */
  ghost predicate Reconciled(before: map<string, T.Order>, after: map<string, T.Order>, o: T.Order, reply: A.Reply, outcome: S.Outcome) {
    if A.QueryUnavailable(reply) then outcome == S.Failure(Some(o), S.PaymentUnavailable) && after == before
    else if A.Carries(reply, "Authorized") then SettledAs(before, after, o, T.Paid, outcome)
    else if exists text :: A.Carries(reply, text) then SettledAs(before, after, o, T.Failed, outcome)
    else outcome == S.Failure(None, S.PaymentError) && after == before
  }

  lemma ReconciledBy(before: map<string, T.Order>, after: map<string, T.Order>, o: T.Order, reply: A.Reply, outcome: S.Outcome)
    requires match A.GetStatus(reply)
      case Status(text) => SettledAs(before, after, o, S.StatusToWrite(text), outcome)
      case Unavailable => outcome == S.Failure(Some(o), S.PaymentUnavailable) && after == before
      case OtherError => outcome == S.Failure(None, S.PaymentError) && after == before
      case _ => false
    ensures Reconciled(before, after, o, reply, outcome)
  {
    hide SettledAs, A.GetStatus, A.QueryUnavailable, A.Carries;
    A.RepliesReadAs(reply);
    if A.GetStatus(reply).Status? {
      assert A.Carries(reply, A.GetStatus(reply).status);
    }
  }

  lemma ErrorsCarry(before: map<string, T.Order>, after: map<string, T.Order>, o: T.Order, reply: A.Reply, query: Option<A.Reply>, outcome: S.Outcome)
    requires PaidAsTold(before, after, o, reply, query, outcome) && outcome.Failure?
    ensures outcome.error.PaymentUnavailable? ==> outcome.attached == Some(o)
    ensures outcome.error.StoreError? ==> outcome.attached.None?
  {
    hide A.PostUnavailable, A.PostRecorded, A.Carries, A.QueryUnavailable;
  }

  lemma PaidBy(before: map<string, T.Order>, after: map<string, T.Order>, o: T.Order, reply: A.Reply, query: Option<A.Reply>, outcome: S.Outcome)
    requires match A.Authorize(reply)
      case Status(text) => SettledAs(before, after, o, S.StatusToWrite(text), outcome)
      case Unavailable => outcome == S.Failure(Some(o), S.PaymentUnavailable) && after == before
      case AlreadyRecorded => query.Some? && Reconciled(before, after, o, query.value, outcome)
      case OtherError =>
        (after == before || after == before[o.id := o.(status := T.Failed)]) &&
        (outcome == S.Failure(Some(o.(status := T.Failed)), S.PaymentError) || (after == before && outcome == S.Failure(Some(o), S.PaymentError)))
      case _ => false
    ensures PaidAsTold(before, after, o, reply, query, outcome)
  {
    hide SettledAs, Reconciled, A.Authorize, A.PostUnavailable, A.PostRecorded, A.PostInvalid, A.Carries;
    A.RepliesReadAs(reply);
    if A.Authorize(reply).Status? {
      assert A.Carries(reply, A.Authorize(reply).status);
    }
  }

  /** What the reply to the POST comes to, with the reply to the status query when the payment is already recorded. Any reply but these marks
      the order Failed and returns it with an error; whether the write was applied is not known when a store has failed. */
  ghost predicate PaidAsTold(before: map<string, T.Order>, after: map<string, T.Order>, o: T.Order, reply: A.Reply, query: Option<A.Reply>,
                             outcome: S.Outcome) {
    if A.PostUnavailable(reply) then outcome == S.Failure(Some(o), S.PaymentUnavailable) && after == before
    else if A.PostRecorded(reply) then query.Some? && Reconciled(before, after, o, query.value, outcome)
    else if A.Carries(reply, "Authorized") then SettledAs(before, after, o, T.Paid, outcome)
    else if exists text :: A.Carries(reply, text) then SettledAs(before, after, o, T.Failed, outcome)
    else
      (after == before || after == before[o.id := o.(status := T.Failed)]) &&
      (outcome == S.Failure(Some(o.(status := T.Failed)), S.PaymentError) || (after == before && outcome == S.Failure(Some(o), S.PaymentError)))
  }

  /** The status is the one the amount decides, or Failed because a reply that claims nothing was read that way. */
  ghost predicate Decides(cfg: S.Config, status: T.OrderStatus, amount: int, faulted: bool) {
    status == R.Outcome(amount) || (status.Failed? && faulted && G.MisreadingsOccur(cfg))
  }

  lemma NoiseDecides(cfg: S.Config, r: A.Reply, amount: int)
    requires S.DisturbsAuthorize(cfg, r)
    ensures A.Authorize(r).Unavailable? || A.Authorize(r).OtherError? || A.Authorize(r).Status?
    ensures A.Authorize(r).Status? ==> Decides(cfg, S.StatusToWrite(A.Authorize(r).status), amount, true)
  {
    hide A.Authorize, R.Outcome;
    if A.Authorize(r).Status? {
      assert G.FailsOnAuthorize(cfg, r);
    }
  }

  lemma NoiseOnQueryDecides(cfg: S.Config, r: A.Reply, amount: int)
    requires S.DisturbsGetStatus(cfg, r) && cfg.adapter.Rest?
    ensures A.GetStatus(r).Unavailable? || A.GetStatus(r).OtherError? || A.GetStatus(r).Status?
    ensures A.GetStatus(r).Status? ==> Decides(cfg, S.StatusToWrite(A.GetStatus(r).status), amount, true)
  {
    hide A.GetStatus, R.Outcome;
    if A.GetStatus(r).Status? {
      assert G.FailsOnGetStatus(cfg, r);
    }
  }

  /** A returned order is the stored, settled one its key names; one this call has settled went as its own amount decides,
      unless a reply was misread. */
  ghost predicate Returned(cfg: S.Config, before: map<string, T.Order>, after: map<string, T.Order>, keys: map<string, string>,
                           req: T.Request, o: T.Order, faulted: bool) {
    o.id in after && after[o.id] == o && !o.status.Pending? &&
    (T.Keyed(req) ==> req.key.value in keys && keys[req.key.value] == o.id) &&
    (o.id !in before || before[o.id].status.Pending? ==> Decides(cfg, o.status, o.amount, faulted))
  }

  predicate Placing(before: map<string, T.Order>, middle: map<string, T.Order>, o: T.Order) {
    middle == before || (o.id !in before && middle == before[o.id := o])
  }

  predicate Settling(middle: map<string, T.Order>, after: map<string, T.Order>, o: T.Order) {
    after == middle || after == middle[o.id := o.(status := T.Paid)] || after == middle[o.id := o.(status := T.Failed)]
  }

  lemma KeyedMeans(input: S.Input)
    ensures S.RequestOf(input).key == input.key
    ensures T.Keyed(S.RequestOf(input)) <==> input.key.Some? && input.key.value != ""
  {
    hide TrimSpace;
  }

  lemma AskedAtFirst(input: S.Input, id: string, at: int)
    ensures AskedFor(input, id, at, T.Order(id, TrimSpace(input.customer), TrimSpace(input.item), input.amount, T.Pending, at))
  {
    hide TrimSpace;
  }

  /** Settling an order changes nothing about any order but a status. */
  lemma AskedStays(middle: map<string, T.Order>, after: map<string, T.Order>, o: T.Order, input: S.Input, id: string, at: int)
    requires Settling(middle, after, o) && o.id in middle && middle[o.id] == o
    requires id in middle ==> AskedFor(input, id, at, middle[id])
    ensures id in after ==> AskedFor(input, id, at, after[id])
  {
    hide TrimSpace;
  }

  lemma ReturnedAtOnce(cfg: S.Config, before: map<string, T.Order>, after: map<string, T.Order>, keys: map<string, string>,
                       req: T.Request, o: T.Order, faulted: bool)
    requires o.id in after && after[o.id] == o && !o.status.Pending? && o.id in before && before[o.id] == o
    requires T.Keyed(req) ==> req.key.value in keys && keys[req.key.value] == o.id
    ensures Returned(cfg, before, after, keys, req, o, faulted)
  {
    hide Decides;
  }

  lemma ReturnedAnyway(cfg: S.Config, before: map<string, T.Order>, after: map<string, T.Order>, keys: map<string, string>,
                       req: T.Request, o: T.Order, faulted: bool, more: bool)
    requires Returned(cfg, before, after, keys, req, o, faulted) && (faulted ==> more)
    ensures Returned(cfg, before, after, keys, req, o, more)
    ensures o.id in after && after[o.id] == o
  {
    hide G.MisreadingsOccur, R.Outcome;
  }

  lemma ReturnedPaid(cfg: S.Config, after: map<string, T.Order>, keys: map<string, string>, req: T.Request, o: T.Order, paid: T.Order,
                     before: map<string, T.Order>, faulted: bool)
    requires paid == o.(status := paid.status) && paid.id in after && after[paid.id] == paid && Decides(cfg, paid.status, o.amount, faulted)
    requires T.Keyed(req) ==> req.key.value in keys && keys[req.key.value] == o.id
    ensures Returned(cfg, before, after, keys, req, paid, faulted)
  {
    hide G.MisreadingsOccur;
  }

  lemma MovesInTwoParts(before: map<string, T.Order>, middle: map<string, T.Order>, after: map<string, T.Order>, made: T.Order, o: T.Order)
    requires Placing(before, middle, made) && made.status.Pending?
    requires Settling(middle, after, o) && o.id in middle && middle[o.id] == o && o.status.Pending?
    ensures OnlyPendingMoves(before, after)
  {
  }

  lemma MovesAtMostByPlacing(before: map<string, T.Order>, middle: map<string, T.Order>, o: T.Order)
    requires Placing(before, middle, o)
    ensures OnlyPendingMoves(before, middle)
  {
  }

  lemma NewIsPending(req: T.Request, id: string, at: int)
    ensures T.NewOrder(req, id, at).id == id && T.NewOrder(req, id, at).status.Pending?
  {
  }

  lemma EmailIsGood(input: S.Input)
    requires S.ValidInput(input)
    ensures TrimSpace(TrimSpace(input.email)) != ""
  {
    TrimFixes(input.email);
    hide TrimSpace;
  }

  lemma OutcomeSettles(amount: int)
    ensures R.Outcome(amount).Paid? || R.Outcome(amount).Failed?
  {
  }

  lemma AmountIsPositive(input: S.Input)
    requires S.ValidInput(input)
    ensures input.amount > 0
  {
    hide TrimSpace;
  }

  lemma NoClash(rows: seq<P.Payment>, input: P.Input, id: string, transactionId: string)
    requires forall row :: row in rows ==> row.transactionId != transactionId && row.id != id
    ensures P.FindRow(rows, input.orderId).None? ==> !P.Clashes(rows, P.NewPayment(input, id, transactionId))
  {
    hide P.FindRow, P.StatusFor;
  }

  /** The payment service's reply when nothing interferes, code by code. */
  function OwnReply(adapter: A.Adapter, recorded: bool, amount: int): A.Reply {
    if recorded then if adapter.Rest? then A.Http(A.Response(409, None)) else A.Rpc(A.RpcError(A.InternalCode))
    else
      var text := if amount <= 100000 then "Authorized" else "Declined";
      if adapter.Rest? then A.Http(A.Response(200, Some(text))) else A.Rpc(A.RpcOk(text))
  }

  lemma OwnReplyIs(cfg: S.Config, rows: seq<P.Payment>, input: P.Input, id: string, transactionId: string)
    requires input.amount > 0 && input.orderId != "" && TrimSpace(input.email) != ""
    requires P.FindRow(rows, input.orderId).None? ==> !P.Clashes(rows, P.NewPayment(input, id, transactionId))
    ensures A.Served(cfg.adapter, Undisturbed(cfg.publisher, rows, input, id, transactionId)) ==
            OwnReply(cfg.adapter, exists row :: row in rows && row.orderId == input.orderId, input.amount)
  {
    GoodArguments(cfg.publisher, rows, input, id, transactionId);
    hide P.FindRow, P.Clashes, TrimSpace, Undisturbed;
    assert P.FindRow(rows, input.orderId).Some? <==> exists row :: row in rows && row.orderId == input.orderId;
  }

  lemma GoodArguments(publisher: bool, rows: seq<P.Payment>, input: P.Input, id: string, transactionId: string)
    requires input.amount > 0 && input.orderId != "" && TrimSpace(input.email) != ""
    ensures Undisturbed(publisher, rows, input, id, transactionId) ==
            if P.FindRow(rows, input.orderId).Some? then P.Refused(P.AlreadyExists)
            else if P.Clashes(rows, P.NewPayment(input, id, transactionId)) then P.Refused(P.Internal)
            else P.Success(P.NewPayment(input, id, transactionId))
  {
    hide P.FindRow, P.Clashes, TrimSpace;
  }

  lemma EffectsOnRows(publisher: bool, rows: seq<P.Payment>, events: seq<P.Event>, rows': seq<P.Payment>, events': seq<P.Event>,
                      input: P.Input, p: P.Payment, outcome: P.Outcome)
    requires Effects(publisher, rows, events, rows', events', input, p, outcome)
    ensures rows' == rows || rows' == rows + [p]
    ensures outcome == P.Refused(P.AlreadyExists) ==> rows' == rows
  {
    hide P.EventOf;
  }
}