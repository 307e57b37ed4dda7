/** The payment service as it is written: check, decide, save, publish. The service carries its own run of the payment
    protocol as ghost history; calls of other clients may be under way in it. */
module PaymentService {
  import opened Text
  import opened Writes
  import opened Outside
  import P = PaymentProtocol

  /** PaymentRepository over the payments table. */
  class PaymentRepository {
    var rows: seq<P.Payment>
    const env: Environment

    constructor (env: Environment)
      ensures rows == [] && this.env == env
    {
      rows, this.env := [], env;
    }

    /** The newest row of the order, looking from the end. */
    method Newest(orderId: string) returns (row: Option<P.Payment>)
      ensures row == P.FindRow(rows, orderId)
    {
      var i := |rows|;
      assert rows[..i] == rows;
      while i > 0
        invariant 0 <= i <= |rows|
        invariant P.FindRow(rows, orderId) == P.FindRow(rows[..i], orderId)
      {
        assert rows[..i][..i - 1] == rows[..i - 1];
        if rows[i - 1].orderId == orderId {
          return Some(rows[i - 1]);
        }
        i := i - 1;
      }
      row := None;
    }

    /** SELECT ... WHERE order_id ORDER BY created_at DESC LIMIT 1 */
    method GetByOrderID(orderId: string) returns (ok: bool, row: Option<P.Payment>)
      modifies env`faultsLeft
      ensures ok ==> row == P.FindRow(rows, orderId)
      ensures env.faultsLeft == old(env.faultsLeft) - if ok then 0 else 1
    {
      var fails := env.Fails();
      ok, row := !fails, None;
      if ok {
        row := Newest(orderId);
      }
    }

    /** INSERT; a unique violation is an error, and a failed call may have been applied. */
    method Save(p: P.Payment) returns (ok: bool, ghost outcome: WriteOutcome)
      modifies this`rows, env`faultsLeft
      ensures ok <==> outcome.Applied?
      ensures P.Clashes(old(rows), p) ==> outcome.Rejected?
      ensures rows == if outcome.Rejected? then old(rows) else old(rows) + [p]
      ensures env.faultsLeft == old(env.faultsLeft) - if ok || P.Clashes(old(rows), p) then 0 else 1
    {
      if exists q :: q in rows && (q.id == p.id || q.orderId == p.orderId || q.transactionId == p.transactionId) {
        return false, Rejected;
      }
      var fails := env.Fails();
      ok, outcome := !fails, if fails then Rejected else Applied;
      var applied: bool := *;
      if ok || applied {
        rows := rows + [p];
        outcome := if ok then Applied else AppliedNoReply;
      }
    }
  }

  /** PaymentCompletedPublisher: the broker may take the event whether or not the call succeeds. */
  class Publisher {
    var events: seq<P.Event>
    const env: Environment

    constructor (env: Environment)
      ensures events == [] && this.env == env
    {
      events, this.env := [], env;
    }

    method PublishPaymentCompleted(e: P.Event) returns (ok: bool, ghost accepted: bool)
      modifies this`events, env`faultsLeft
      ensures events == if accepted then old(events) + [e] else old(events)
      ensures env.faultsLeft == old(env.faultsLeft) - if ok then 0 else 1
    {
      var fails := env.Fails();
      var taken: bool := *;
      ok, accepted := !fails, taken;
      if taken {
        events := events + [e];
      }
    }
  }

  /** What a call returns when nothing fails under way. */
  function Undisturbed(publisher: bool, rows: seq<P.Payment>, input: P.Input, id: string, transactionId: string): P.Outcome {
    var p := P.NewPayment(input, id, transactionId);
    if input.amount <= 0 then P.Refused(P.AmountNotPositive)
    else if input.orderId == "" then P.Refused(P.OrderIdRequired)
    else if P.FindRow(rows, input.orderId).Some? then P.Refused(P.AlreadyExists)
    else if P.Clashes(rows, p) then P.Refused(P.Internal)
    else if publisher && p.status.Authorized? && TrimSpace(input.email) == "" then P.Refused(P.EmailRequired)
    else P.Success(p)
  }

  /** At most this row is new, at most this event; neither on an early refusal, the row on success. */
  predicate Effects(publisher: bool, rows: seq<P.Payment>, events: seq<P.Event>, rows': seq<P.Payment>, events': seq<P.Event>,
                    input: P.Input, p: P.Payment, outcome: P.Outcome) {
    (rows' == rows || rows' == rows + [p]) &&
    (events' == events || (events' == events + [P.EventOf(p, input.email)] && rows' == rows + [p] && p.status.Authorized? && publisher)) &&
    (outcome.Success? ==> outcome.payment == p && rows' == rows + [p]) &&
    (outcome.Refused? && outcome.why.EmailRequired? ==> rows' == rows + [p] && events' == events) &&
    (outcome.Refused? && !outcome.why.EmailRequired? && !outcome.why.Internal? ==> rows' == rows && events' == events)
  }

  /** The answer and what it leaves behind when nothing fails under way, written out: the arguments, then the order's payment, then the unique
      ids decide; up to 1000.00 is authorized and published with the trimmed address, which must not be blank. */
  predicate DecidedOn(publisher: bool, rows: seq<P.Payment>, events: seq<P.Event>, rows': seq<P.Payment>, events': seq<P.Event>,
                      input: P.Input, id: string, transactionId: string, outcome: P.Outcome) {
    if input.amount <= 0 then outcome == P.Refused(P.AmountNotPositive) && rows' == rows && events' == events
    else if input.orderId == "" then outcome == P.Refused(P.OrderIdRequired) && rows' == rows && events' == events
    else if exists q :: q in rows && q.orderId == input.orderId then
      outcome == P.Refused(P.AlreadyExists) && rows' == rows && events' == events
    else if exists q :: q in rows && (q.id == id || q.transactionId == transactionId) then
      outcome == P.Refused(P.Internal) && rows' == rows && events' == events
    else
      var authorized := input.amount <= 100000;
      var p := P.Payment(id, input.orderId, transactionId, input.amount, if authorized then P.Authorized else P.Declined);
      var email := TrimSpace(input.email);
      rows' == rows + [p] &&
      if publisher && authorized && email == "" then outcome == P.Refused(P.EmailRequired) && events' == events
      else
        outcome == P.Success(p) &&
        (events' == events ||
         (publisher && authorized && events' == events + [P.Event(id, id, input.orderId, input.amount, email, P.Authorized)]))
  }

  lemma DecisionIs(publisher: bool, rows: seq<P.Payment>, events: seq<P.Event>, rows': seq<P.Payment>, events': seq<P.Event>,
                   input: P.Input, id: string, transactionId: string, outcome: P.Outcome)
    requires Effects(publisher, rows, events, rows', events', input, P.NewPayment(input, id, transactionId), outcome)
    requires outcome == Undisturbed(publisher, rows, input, id, transactionId)
    requires P.Clashes(rows, P.NewPayment(input, id, transactionId)) ==> rows' == rows && events' == events
    ensures DecidedOn(publisher, rows, events, rows', events', input, id, transactionId, outcome)
  {
    hide TrimSpace, P.FindRow;
    var p := P.NewPayment(input, id, transactionId);
    EventIsBuilt(p, input.email);
    hide P.EventOf;
    assert P.FindRow(rows, input.orderId).Some? <==> exists q :: q in rows && q.orderId == input.orderId;
  }

  /** The use case; `publisher` says whether a publisher is configured. */
  class AuthorizePayment {
    const publisher: bool
    const repo: PaymentRepository
    const pub: Publisher
    const env: Environment
    ghost var m: P.State
    ghost var run: seq<P.Label>

    constructor (publisher: bool, env: Environment)
      ensures Valid() && m == P.Initial() && fresh(repo) && fresh(pub) && this.publisher == publisher && this.env == env
    {
      this.publisher, this.env := publisher, env;
      repo := new PaymentRepository(env);
      pub := new Publisher(env);
      m, run := P.Initial(), [];
    }

    ghost predicate Valid()
      reads this, repo, pub
    {
      repo.env == env && pub.env == env && m == P.Exec(publisher, P.Initial(), run) && repo.rows == m.rows && pub.events == m.events
    }

    ghost method Did(l: P.Label)
      modifies this`m, this`run
      ensures m == P.Next(publisher, old(m), l) && run == old(run) + [l]
      ensures old(m) == P.Exec(publisher, P.Initial(), old(run)) ==> m == P.Exec(publisher, P.Initial(), run)
    {
      P.ExecStep(publisher, P.Initial(), run, l);
      m, run := P.Next(publisher, m, l), run + [l];
    }

    /** The rest of Execute, once no payment was found: decide, save, and publish if the payment is authorized. */
    method SaveAndPublish(input: P.Input, id: string, transactionId: string, ghost c: nat, ghost s: P.State, ghost before: seq<P.Label>)
      returns (outcome: P.Outcome, ghost steps: seq<P.Label>)
      requires Valid() && m == P.Asked(s, c, input, P.Saving) && IsUuid(id) && id !in s.used
      requires input.amount > 0 && input.orderId != "" && P.FindRow(s.rows, input.orderId).None?
      modifies this`m, this`run, repo`rows, pub`events, env`faultsLeft
      ensures Valid() && before <= steps && run == old(run) + steps[|before|..]
      ensures forall i :: |before| <= i < |steps| ==> !steps[i].Begin?
      ensures m.calls == s.calls[c := P.Call(input, P.Finished(outcome))] && m.used == s.used + {id}
      ensures Effects(publisher, old(repo.rows), old(pub.events), repo.rows, pub.events, input, P.NewPayment(input, id, transactionId), outcome)
      ensures P.Clashes(old(repo.rows), P.NewPayment(input, id, transactionId)) ==> repo.rows == old(repo.rows) && pub.events == old(pub.events)
      ensures env.faultsLeft <= old(env.faultsLeft)
      ensures outcome == if env.faultsLeft < old(env.faultsLeft) then P.Refused(P.Internal)
                         else Undisturbed(publisher, old(repo.rows), input, id, transactionId)
    {
      hide P.Exec, P.Next, P.FindRow, P.Clashes, IsUuid, TrimSpace, P.EventOf;
      steps := before;
      outcome := P.Refused(P.Internal);
      var p := P.Payment(id, input.orderId, transactionId, input.amount,
                         if input.amount > P.MAX_AUTHORIZED_AMOUNT_CENTS then P.Declined else P.Authorized);
      assert p == P.NewPayment(input, id, transactionId);
      var ok;
      ghost var saved;
      ok, saved := repo.Save(p);
      P.SaveStep(publisher, s, c, input, id, transactionId, saved);
      Did(P.Save(c, id, transactionId, saved));
      steps := steps + [P.Save(c, id, transactionId, saved)];
      if ok && p.status.Authorized? && publisher {
        var email := TrimSpace(input.email);
        if email == "" {
          return P.Refused(P.EmailRequired), steps;
        }
        ghost var accepted;
        ok, accepted := pub.PublishPaymentCompleted(P.Event(p.id, p.id, p.orderId, p.amount, email, p.status));
        EventIsBuilt(p, input.email);
        P.PublishStep(publisher, P.Stored(s, p), c, input, p, accepted, ok);
        Did(P.Publish(c, accepted, ok));
        steps := steps + [P.Publish(c, accepted, ok)];
      }
      if ok {
        outcome := P.Success(p);
      }
    }

    /** AuthorizePayment.Execute, as call number c. The ids are what the generator returns: canonical and never used before. */
    method Execute(input: P.Input, id: string, transactionId: string, ghost c: nat) returns (outcome: P.Outcome, ghost steps: seq<P.Label>)
      requires Valid() && c !in m.calls && IsUuid(id) && id !in m.used
      modifies this`m, this`run, repo`rows, pub`events, env`faultsLeft
      ensures Valid() && P.Grows(old(m), m)
      ensures m.calls == old(m).calls[c := P.Call(input, P.Finished(outcome))]
      ensures run == old(run) + [P.Begin(c, input)] + steps && forall l :: l in steps ==> !l.Begin?
      ensures old(m).used <= m.used <= old(m).used + {id}
      ensures Effects(publisher, old(repo.rows), old(pub.events), repo.rows, pub.events, input, P.NewPayment(input, id, transactionId), outcome)
      ensures P.Clashes(old(repo.rows), P.NewPayment(input, id, transactionId)) ==> repo.rows == old(repo.rows) && pub.events == old(pub.events)
      ensures env.faultsLeft <= old(env.faultsLeft)
      ensures outcome == if env.faultsLeft < old(env.faultsLeft) then P.Refused(P.Internal)
                         else Undisturbed(publisher, old(repo.rows), input, id, transactionId)
      ensures env.faultsLeft == old(env.faultsLeft) ==>
                DecidedOn(publisher, old(repo.rows), old(pub.events), repo.rows, pub.events, input, id, transactionId, outcome)
    {
      hide P.Exec, P.Next, P.FindRow, P.Clashes, P.Grows, IsUuid, TrimSpace, P.EventOf, DecidedOn;
      steps := [];
      outcome := P.Refused(P.Internal);
      ghost var s := m;
      P.BeginStep(publisher, s, c, input);
      Did(P.Begin(c, input));
      if input.amount <= 0 {
        outcome := P.Refused(P.AmountNotPositive);
      } else if input.orderId == "" {
        outcome := P.Refused(P.OrderIdRequired);
      } else {
        P.CheckStep(publisher, s, c, input, true);
        P.CheckStep(publisher, s, c, input, false);
        var ok, existing := repo.GetByOrderID(input.orderId);
        Did(P.Check(c, ok));
        steps := [P.Check(c, ok)];
        if ok && existing.Some? {
          outcome := P.Refused(P.AlreadyExists);
        } else if ok {
          outcome, steps := SaveAndPublish(input, id, transactionId, c, s, steps);
        }
      }
      P.StoredIsFinal(publisher, old(run), [P.Begin(c, input)] + steps);
      assert old(run) + ([P.Begin(c, input)] + steps) == run;
      if env.faultsLeft == old(env.faultsLeft) {
        DecisionIs(publisher, old(repo.rows), old(pub.events), repo.rows, pub.events, input, id, transactionId, outcome);
      }
    }
  }

  lemma EventIsBuilt(p: P.Payment, email: string)
    ensures P.EventOf(p, email) == P.Event(p.id, p.id, p.orderId, p.amount, TrimSpace(email), p.status)
  {
    hide TrimSpace;
  }
}
