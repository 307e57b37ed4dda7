/** The payment service as a step system: any number of AuthorizePayment calls, each of them an existence check, a save
    and a publish that are separate steps. The payments table has unique order ids (a migration adds the index), ids and
    transaction ids. A label that does not fit the state changes nothing. */
module PaymentProtocol {
  import opened Text
  import opened Writes

  /** Amounts strictly greater than this many cents are declined. */
  const MAX_AUTHORIZED_AMOUNT_CENTS: int := 100000

  datatype PaymentStatus = Authorized | Declined

  datatype Payment = Payment(id: string, orderId: string, transactionId: string, amount: int, status: PaymentStatus)

  datatype Input = Input(orderId: string, amount: int, email: string)

  /** The payload handed to the publisher. */
  datatype Event = Event(eventId: string, paymentId: string, orderId: string, amount: int, email: string, status: PaymentStatus)

  /** The errors a caller can tell apart. */
  datatype Failure = AmountNotPositive | OrderIdRequired | AlreadyExists | EmailRequired | Internal

  datatype Outcome = Success(payment: Payment) | Refused(why: Failure)

  datatype Stage = Checking | Saving | Publishing(payment: Payment) | Finished(outcome: Outcome) | Dead

  datatype Call = Call(input: Input, stage: Stage)

  /** `publishes` lists the orders for which a publish was started; `events` what the broker took. */
  datatype State = State(rows: seq<Payment>, events: seq<Event>, publishes: seq<string>, calls: map<nat, Call>, used: set<string>)

  datatype Label =
    | Begin(call: nat, input: Input)
    | Check(call: nat, ok: bool)
    | Save(call: nat, id: string, transactionId: string, outcome: WriteOutcome)
    | Publish(call: nat, accepted: bool, confirmed: bool)
    | Die(call: nat)

  function Initial(): State {
    State([], [], [], map[], {})
  }

  function StatusFor(amount: int): PaymentStatus {
    if amount > MAX_AUTHORIZED_AMOUNT_CENTS then Declined else Authorized
  }

  /** The newest row of the order. */
  function FindRow(rows: seq<Payment>, orderId: string): (r: Option<Payment>)
    ensures r.Some? ==> r.value in rows && r.value.orderId == orderId
    ensures r.None? ==> forall p :: p in rows ==> p.orderId != orderId
  {
    if rows == [] then None
    else if rows[|rows| - 1].orderId == orderId then Some(rows[|rows| - 1])
    else FindRow(rows[..|rows| - 1], orderId)
  }

  /** The unique indexes refuse the row. */
  predicate Clashes(rows: seq<Payment>, p: Payment) {
    exists q :: q in rows && (q.id == p.id || q.orderId == p.orderId || q.transactionId == p.transactionId)
  }

  function EventOf(p: Payment, email: string): Event {
    Event(p.id, p.id, p.orderId, p.amount, TrimSpace(email), p.status)
  }

  function Go(s: State, c: nat, stage: Stage): State
    requires c in s.calls
  {
    s.(calls := s.calls[c := s.calls[c].(stage := stage)])
  }

  function OnBegin(s: State, c: nat, input: Input): State {
    if c in s.calls then s
    else
      var stage := if input.amount <= 0 then Finished(Refused(AmountNotPositive))
                   else if input.orderId == "" then Finished(Refused(OrderIdRequired))
                   else Checking;
      s.(calls := s.calls[c := Call(input, stage)])
  }

  function OnCheck(s: State, c: nat, ok: bool): State
    requires c in s.calls && s.calls[c].stage.Checking?
  {
    if !ok then Go(s, c, Finished(Refused(Internal)))
    else if FindRow(s.rows, s.calls[c].input.orderId).Some? then Go(s, c, Finished(Refused(AlreadyExists)))
    else Go(s, c, Saving)
  }

  function StageAfterSave(publisher: bool, input: Input, p: Payment): Stage {
    if p.status.Authorized? && publisher then
      if TrimSpace(input.email) == "" then Finished(Refused(EmailRequired)) else Publishing(p)
    else Finished(Success(p))
  }

  function NewPayment(input: Input, id: string, transactionId: string): Payment {
    Payment(id, input.orderId, transactionId, input.amount, StatusFor(input.amount))
  }

  function OnSave(publisher: bool, s: State, c: nat, id: string, transactionId: string, outcome: WriteOutcome): State
    requires c in s.calls && s.calls[c].stage.Saving?
  {
    var p := NewPayment(s.calls[c].input, id, transactionId);
    var s1 := s.(used := s.used + {id});
    if outcome.Rejected? || Clashes(s.rows, p) then Go(s1, c, Finished(Refused(Internal)))
    else
      var s2 := s1.(rows := s.rows + [p]);
      Go(s2, c, if outcome.Applied? then StageAfterSave(publisher, s.calls[c].input, p) else Finished(Refused(Internal)))
  }

  /** The broker may take the message or not, and either way the publisher may report success or failure. */
  function OnPublish(s: State, c: nat, accepted: bool, confirmed: bool): State
    requires c in s.calls && s.calls[c].stage.Publishing?
  {
    var p := s.calls[c].stage.payment;
    var s1 := s.(publishes := s.publishes + [p.orderId],
                 events := if accepted then s.events + [EventOf(p, s.calls[c].input.email)] else s.events);
    Go(s1, c, Finished(if confirmed then Success(p) else Refused(Internal)))
  }

  function Next(publisher: bool, s: State, l: Label): State {
    if l.Begin? then OnBegin(s, l.call, l.input)
    else if l.call !in s.calls then s
    else
      match (l, s.calls[l.call].stage)
      case (Check(c, ok), Checking) => OnCheck(s, c, ok)
      case (Save(c, id, txn, outcome), Saving) =>
        if IsUuid(id) && id !in s.used then OnSave(publisher, s, c, id, txn, outcome) else s
      case (Publish(c, accepted, confirmed), Publishing(_)) => OnPublish(s, c, accepted, confirmed)
      case (Die(c), Finished(_)) => s
      case (Die(c), _) => Go(s, c, Dead)
      case _ => s
  }

  function Exec(publisher: bool, s: State, trace: seq<Label>): State {
    if trace == [] then s
    else Next(publisher, Exec(publisher, s, trace[..|trace| - 1]), trace[|trace| - 1])
  }

  lemma ExecStep(publisher: bool, s: State, trace: seq<Label>, l: Label)
    ensures Exec(publisher, s, trace + [l]) == Next(publisher, Exec(publisher, s, trace), l)
  {
    assert (trace + [l])[..|trace|] == trace;
  }

  // ----- The steps of one call, one equation each -----------------------------------------------

  /** The state with call c at this stage. */
  function Asked(s: State, c: nat, input: Input, stage: Stage): State {
    s.(calls := s.calls[c := Call(input, stage)])
  }

  function Stored(s: State, p: Payment): State {
    s.(rows := s.rows + [p], used := s.used + {p.id})
  }

  function Sent(s: State, p: Payment, email: string, accepted: bool): State {
    s.(publishes := s.publishes + [p.orderId], events := if accepted then s.events + [EventOf(p, email)] else s.events)
  }

  lemma BeginStep(publisher: bool, s: State, c: nat, input: Input)
    requires c !in s.calls
    ensures Next(publisher, s, Begin(c, input)) ==
            Asked(s, c, input, if input.amount <= 0 then Finished(Refused(AmountNotPositive))
                               else if input.orderId == "" then Finished(Refused(OrderIdRequired))
                               else Checking)
  {
  }

  lemma CheckStep(publisher: bool, s: State, c: nat, input: Input, ok: bool)
    ensures Next(publisher, Asked(s, c, input, Checking), Check(c, ok)) ==
            Asked(s, c, input, if !ok then Finished(Refused(Internal))
                               else if FindRow(s.rows, input.orderId).Some? then Finished(Refused(AlreadyExists))
                               else Saving)
  {
    hide FindRow, IsUuid, TrimSpace;
  }

  lemma SaveStep(publisher: bool, s: State, c: nat, input: Input, id: string, transactionId: string, outcome: WriteOutcome)
    requires IsUuid(id) && id !in s.used
    requires Clashes(s.rows, NewPayment(input, id, transactionId)) ==> outcome.Rejected?
    ensures var p := NewPayment(input, id, transactionId);
      Next(publisher, Asked(s, c, input, Saving), Save(c, id, transactionId, outcome)) ==
        match outcome
        case Rejected => Asked(s.(used := s.used + {id}), c, input, Finished(Refused(Internal)))
        case AppliedNoReply => Asked(Stored(s, p), c, input, Finished(Refused(Internal)))
        case Applied => Asked(Stored(s, p), c, input, StageAfterSave(publisher, input, p))
  {
    hide Clashes, IsUuid, TrimSpace, StageAfterSave;
  }

  lemma PublishStep(publisher: bool, s: State, c: nat, input: Input, p: Payment, accepted: bool, confirmed: bool)
    ensures Next(publisher, Asked(s, c, input, Publishing(p)), Publish(c, accepted, confirmed)) ==
            Asked(Sent(s, p, input.email, accepted), c, input, Finished(if confirmed then Success(p) else Refused(Internal)))
  {
    hide EventOf;
  }

  // ----- The invariant --------------------------------------------------------------------------

  /** Some call asked for this order and this amount. */
  predicate AskedFor(s: State, orderId: string, amount: int) {
    exists c :: c in s.calls && s.calls[c].input.orderId == orderId && s.calls[c].input.amount == amount
  }

  predicate HasRow(s: State, orderId: string, status: PaymentStatus) {
    exists p :: p in s.rows && p.orderId == orderId && p.status == status
  }

  predicate RowsFit(s: State) {
    (forall i, j :: 0 <= i < j < |s.rows| ==> s.rows[i].orderId != s.rows[j].orderId && s.rows[i].id != s.rows[j].id) &&
    (forall p :: p in s.rows ==>
       p.amount > 0 && p.orderId != "" && p.status == StatusFor(p.amount) && IsUuid(p.id) && p.id in s.used &&
       AskedFor(s, p.orderId, p.amount))
  }

  predicate EventFits(s: State, e: Event) {
    exists p :: p in s.rows && p.status.Authorized? && e.eventId == e.paymentId == p.id && e.orderId == p.orderId &&
      e.amount == p.amount && e.status.Authorized? && e.email != "" && e.email == TrimSpace(e.email) && AskedWith(s, e)
  }

  /** Some call asked for this order and this amount, and gave this address. */
  predicate AskedWith(s: State, e: Event) {
    exists c :: c in s.calls && s.calls[c].input.orderId == e.orderId && s.calls[c].input.amount == e.amount &&
      TrimSpace(s.calls[c].input.email) == e.email
  }

  predicate PublishedOnce(s: State) {
    (forall i, j :: 0 <= i < j < |s.events| ==> s.events[i].orderId != s.events[j].orderId) &&
    (forall i, j :: 0 <= i < j < |s.publishes| ==> s.publishes[i] != s.publishes[j]) &&
    (forall e :: e in s.events ==> e.orderId in s.publishes)
  }

  predicate PublishedRightly(s: State) {
    (forall e :: e in s.events ==> EventFits(s, e)) &&
    (forall o :: o in s.publishes ==> HasRow(s, o, Authorized))
  }

  predicate EventsFit(s: State) {
    PublishedOnce(s) && PublishedRightly(s)
  }

  predicate CallFits(s: State, call: Call) {
    match call.stage
    case Checking => call.input.amount > 0 && call.input.orderId != ""
    case Saving => call.input.amount > 0 && call.input.orderId != ""
    case Publishing(p) =>
      p in s.rows && p.status.Authorized? && p.orderId == call.input.orderId && p.amount == call.input.amount &&
      p.orderId !in s.publishes &&
      TrimSpace(call.input.email) != ""
    case Finished(Success(p)) => p in s.rows && p.orderId == call.input.orderId && p.amount == call.input.amount
    case Finished(Refused(AmountNotPositive)) => call.input.amount <= 0
    case Finished(Refused(OrderIdRequired)) => call.input.orderId == ""
    case Finished(Refused(AlreadyExists)) => HasRow(s, call.input.orderId, Authorized) || HasRow(s, call.input.orderId, Declined)
    case Finished(Refused(EmailRequired)) => TrimSpace(call.input.email) == ""
    case _ => true
  }

  predicate CallsFit(s: State) {
    (forall c :: c in s.calls ==> CallFits(s, s.calls[c])) &&
    (forall c, d :: c in s.calls && d in s.calls && c != d && s.calls[c].stage.Publishing? && s.calls[d].stage.Publishing? ==>
       s.calls[c].stage.payment.orderId != s.calls[d].stage.payment.orderId)
  }

  predicate Fits(s: State) {
    RowsFit(s) && EventsFit(s) && CallsFit(s)
  }

  /** Rows, events and finished calls are never changed or removed. */
  predicate Grows(s: State, t: State) {
    s.rows <= t.rows && s.events <= t.events && s.publishes <= t.publishes && s.used <= t.used &&
    (forall c :: c in s.calls ==> c in t.calls && t.calls[c].input == s.calls[c].input &&
                                  (s.calls[c].stage.Finished? ==> t.calls[c] == s.calls[c]))
  }

  lemma AskedWithLasts(s: State, t: State, e: Event)
    requires Grows(s, t) && AskedWith(s, e)
    ensures AskedWith(t, e)
  {
    hide TrimSpace;
    var c :| c in s.calls && s.calls[c].input.orderId == e.orderId && s.calls[c].input.amount == e.amount &&
      TrimSpace(s.calls[c].input.email) == e.email;
    assert t.calls[c].input == s.calls[c].input;
  }

  lemma EvidenceLasts(s: State, t: State)
    requires Grows(s, t)
    ensures forall o, a :: AskedFor(s, o, a) ==> AskedFor(t, o, a)
    ensures forall o, st :: HasRow(s, o, st) ==> HasRow(t, o, st)
    ensures forall e :: EventFits(s, e) ==> EventFits(t, e)
    ensures forall p :: p in s.rows ==> p in t.rows
  {
    forall p | p in s.rows ensures p in t.rows {
      var i :| 0 <= i < |s.rows| && s.rows[i] == p;
      assert t.rows[i] == p;
    }
    forall o, a | AskedFor(s, o, a) ensures AskedFor(t, o, a) {
      var c :| c in s.calls && s.calls[c].input.orderId == o && s.calls[c].input.amount == a;
      assert t.calls[c].input == s.calls[c].input;
    }
    forall o, st | HasRow(s, o, st) ensures HasRow(t, o, st) {
      var p :| p in s.rows && p.orderId == o && p.status == st;
      assert p in t.rows;
    }
    forall e | EventFits(s, e) ensures EventFits(t, e) {
      var p :| p in s.rows && p.status.Authorized? && e.eventId == e.paymentId == p.id && e.orderId == p.orderId &&
        e.amount == p.amount && e.status.Authorized? && e.email != "" && e.email == TrimSpace(e.email);
      assert p in t.rows;
      AskedWithLasts(s, t, e);
    }
  }

  lemma RowsStay(s: State, t: State)
    requires RowsFit(s) && Grows(s, t) && t.rows == s.rows
    ensures RowsFit(t)
  {
    hide IsUuid, StatusFor;
    EvidenceLasts(s, t);
    hide AskedFor, HasRow, EventFits;
  }

  /** A step that only moves a call. */
  lemma TablesStay(s: State, t: State)
    requires RowsFit(s) && EventsFit(s) && Grows(s, t) && t.rows == s.rows && t.events == s.events && t.publishes == s.publishes
    ensures RowsFit(t) && EventsFit(t)
  {
    hide RowsFit;
    RowsStay(s, t);
    EvidenceLasts(s, t);
    hide Grows, HasRow, EventFits, AskedFor;
  }

  lemma BeginFits(s: State, c: nat, input: Input)
    requires Fits(s)
    ensures Fits(OnBegin(s, c, input)) && Grows(s, OnBegin(s, c, input))
  {
    hide TrimSpace, IsUuid;
    var t := OnBegin(s, c, input);
    EvidenceLasts(s, t);
    hide AskedFor, HasRow, EventFits;
  }

  lemma FoundMeansRow(s: State, orderId: string)
    requires FindRow(s.rows, orderId).Some?
    ensures HasRow(s, orderId, Authorized) || HasRow(s, orderId, Declined)
  {
    hide FindRow;
    var p := FindRow(s.rows, orderId).value;
    assert HasRow(s, orderId, p.status);
  }

  lemma CheckFits(s: State, c: nat, ok: bool)
    requires Fits(s) && c in s.calls && s.calls[c].stage.Checking?
    ensures Fits(OnCheck(s, c, ok)) && Grows(s, OnCheck(s, c, ok))
  {
    hide TrimSpace, FindRow, RowsFit, EventsFit;
    var t := OnCheck(s, c, ok);
    TablesStay(s, t);
    EvidenceLasts(s, t);
    var orderId := s.calls[c].input.orderId;
    if ok && FindRow(s.rows, orderId).Some? {
      FoundMeansRow(t, orderId);
    }
    hide AskedFor, HasRow, EventFits;
  }

  lemma SaveRows(publisher: bool, s: State, c: nat, id: string, transactionId: string, outcome: WriteOutcome)
    requires RowsFit(s) && CallsFit(s) && c in s.calls && s.calls[c].stage.Saving? && IsUuid(id) && id !in s.used
    ensures var t := OnSave(publisher, s, c, id, transactionId, outcome); Grows(s, t) && RowsFit(t)
  {
    hide TrimSpace, IsUuid, StageAfterSave;
    var t := OnSave(publisher, s, c, id, transactionId, outcome);
    EvidenceLasts(s, t);
    assert t.calls[c].input == s.calls[c].input;
    assert AskedFor(t, s.calls[c].input.orderId, s.calls[c].input.amount);
    if t.rows != s.rows {
      assert t.rows[|s.rows|] == NewPayment(s.calls[c].input, id, transactionId);
    }
    hide AskedFor, HasRow, EventFits;
  }

  lemma SaveEvents(s: State, t: State)
    requires EventsFit(s) && Grows(s, t) && t.events == s.events && t.publishes == s.publishes
    ensures EventsFit(t)
  {
    EvidenceLasts(s, t);
    hide Grows, HasRow, EventFits;
  }

  /** The order of a new row has never been published for. */
  lemma NewOrderUnpublished(s: State, t: State, c: nat, id: string, transactionId: string)
    requires EventsFit(s) && RowsFit(t) && c in s.calls
    requires t.rows == s.rows + [NewPayment(s.calls[c].input, id, transactionId)]
    ensures s.calls[c].input.orderId !in s.publishes
  {
    hide TrimSpace, IsUuid, AskedFor, EventFits;
    var p := NewPayment(s.calls[c].input, id, transactionId);
    assert t.rows[|s.rows|] == p;
    forall k | 0 <= k < |s.rows| ensures s.rows[k].orderId != p.orderId {
      assert t.rows[k] == s.rows[k];
    }
    assert !HasRow(s, p.orderId, Authorized);
  }

  lemma SaveCalls(publisher: bool, s: State, c: nat, id: string, transactionId: string, outcome: WriteOutcome)
    requires Fits(s) && c in s.calls && s.calls[c].stage.Saving?
    requires var t := OnSave(publisher, s, c, id, transactionId, outcome);
      Grows(s, t) && RowsFit(t) && (t.rows != s.rows ==> s.calls[c].input.orderId !in s.publishes)
    ensures CallsFit(OnSave(publisher, s, c, id, transactionId, outcome))
  {
    hide TrimSpace, IsUuid;
    EvidenceLasts(s, OnSave(publisher, s, c, id, transactionId, outcome));
    hide AskedFor, HasRow, EventFits, RowsFit, EventsFit;
  }

  lemma SaveFits(publisher: bool, s: State, c: nat, id: string, transactionId: string, outcome: WriteOutcome)
    requires Fits(s) && c in s.calls && s.calls[c].stage.Saving? && IsUuid(id) && id !in s.used
    ensures var t := OnSave(publisher, s, c, id, transactionId, outcome); Fits(t) && Grows(s, t)
  {
    var t := OnSave(publisher, s, c, id, transactionId, outcome);
    SaveRows(publisher, s, c, id, transactionId, outcome);
    assert t.events == s.events && t.publishes == s.publishes;
    assert t.rows != s.rows ==> t.rows == s.rows + [NewPayment(s.calls[c].input, id, transactionId)];
    hide OnSave, IsUuid, RowsFit, EventsFit, CallsFit, Grows;
    SaveEvents(s, t);
    if t.rows != s.rows {
      NewOrderUnpublished(s, t, c, id, transactionId);
    }
    SaveCalls(publisher, s, c, id, transactionId, outcome);
  }

  lemma PublishGrows(s: State, c: nat, accepted: bool, confirmed: bool)
    requires c in s.calls && s.calls[c].stage.Publishing?
    ensures Grows(s, OnPublish(s, c, accepted, confirmed))
  {
    hide EventOf;
  }

  lemma NewEventFits(t: State, p: Payment, email: string, c: nat)
    requires p in t.rows && p.status.Authorized? && TrimSpace(email) != ""
    requires c in t.calls && t.calls[c].input == Input(p.orderId, p.amount, email)
    ensures HasRow(t, p.orderId, Authorized) && EventFits(t, EventOf(p, email))
  {
    TrimFixes(email);
    hide TrimSpace;
    assert AskedWith(t, EventOf(p, email));
  }

  /** The first publish for the order: its id is new to `publishes`, hence to the events. */
  lemma PublishOnce(s: State, t: State, e: Event)
    requires PublishedOnce(s) && e.orderId !in s.publishes
    requires t.publishes == s.publishes + [e.orderId] && (t.events == s.events + [e] || t.events == s.events)
    ensures PublishedOnce(t)
  {
    forall i | 0 <= i < |s.events| ensures s.events[i].orderId != e.orderId {
      assert s.events[i] in s.events;
    }
    forall x | x in t.events ensures x.orderId in t.publishes {
      assert x in s.events || x == e;
    }
  }

  lemma PublishRightly(s: State, t: State, p: Payment, email: string, c: nat)
    requires PublishedRightly(s) && Grows(s, t) && t.rows == s.rows
    requires t.publishes == s.publishes + [p.orderId] && (t.events == s.events + [EventOf(p, email)] || t.events == s.events)
    requires p in s.rows && p.status.Authorized? && TrimSpace(email) != ""
    requires c in t.calls && t.calls[c].input == Input(p.orderId, p.amount, email)
    ensures PublishedRightly(t)
  {
    hide AskedWith;
    EvidenceLasts(s, t);
    NewEventFits(t, p, email, c);
    hide HasRow, EventFits, Grows, EventOf, AskedFor, TrimSpace;
    assert forall x :: EventFits(s, x) ==> EventFits(t, x);
    forall x | x in t.events ensures EventFits(t, x) {
      assert x in s.events || x == EventOf(p, email);
    }
  }

  lemma EventIsOf(p: Payment, email: string)
    ensures EventOf(p, email).orderId == p.orderId
  {
    hide TrimSpace;
  }

  lemma PublishFits(s: State, c: nat, accepted: bool, confirmed: bool)
    requires Fits(s) && c in s.calls && s.calls[c].stage.Publishing?
    ensures var t := OnPublish(s, c, accepted, confirmed); Fits(t) && Grows(s, t)
  {
    hide TrimSpace, IsUuid, StatusFor, RowsFit, PublishedOnce, PublishedRightly, EventOf;
    var t := OnPublish(s, c, accepted, confirmed);
    PublishGrows(s, c, accepted, confirmed);
    assert CallFits(s, s.calls[c]);
    RowsStay(s, t);
    var p, email := s.calls[c].stage.payment, s.calls[c].input.email;
    EventIsOf(p, email);
    PublishOnce(s, t, EventOf(p, email));
    PublishRightly(s, t, p, email, c);
    EvidenceLasts(s, t);
    hide AskedFor, HasRow, EventFits;
    assert forall o :: o in t.publishes ==> o in s.publishes || o == p.orderId;
  }

  lemma DieFits(s: State, c: nat)
    requires Fits(s) && c in s.calls && !s.calls[c].stage.Finished?
    ensures Fits(Go(s, c, Dead)) && Grows(s, Go(s, c, Dead))
  {
    hide TrimSpace, IsUuid;
    var t := Go(s, c, Dead);
    EvidenceLasts(s, t);
    hide AskedFor, HasRow, EventFits;
  }

  lemma FitsStep(publisher: bool, s: State, l: Label)
    requires Fits(s)
    ensures Fits(Next(publisher, s, l)) && Grows(s, Next(publisher, s, l))
  {
    hide Fits, OnBegin, OnCheck, OnSave, OnPublish, Go;
    if l.Begin? {
      BeginFits(s, l.call, l.input);
    } else if l.call in s.calls {
      match (l, s.calls[l.call].stage)
      case (Check(c, ok), Checking) => CheckFits(s, c, ok);
      case (Save(c, id, txn, outcome), Saving) =>
        if IsUuid(id) && id !in s.used {
          SaveFits(publisher, s, c, id, txn, outcome);
        }
      case (Publish(c, accepted, confirmed), Publishing(_)) => PublishFits(s, c, accepted, confirmed);
      case (Die(c), Finished(_)) =>
      case (Die(c), _) => DieFits(s, c);
      case _ =>
    }
  }

  lemma {:induction false} AlwaysFits(publisher: bool, trace: seq<Label>)
    ensures Fits(Exec(publisher, Initial(), trace))
  {
    hide Next;
    if trace != [] {
      AlwaysFits(publisher, trace[..|trace| - 1]);
      FitsStep(publisher, Exec(publisher, Initial(), trace[..|trace| - 1]), trace[|trace| - 1]);
    }
  }

  // ----- What every run of concurrent authorizations keeps --------------------------------------

  /** At most one payment per order, Authorized exactly up to 1000.00, at most one publish started per order,
      and every event the broker holds carries the data of its stored, Authorized payment. */
  lemma OnePaymentPerOrder(publisher: bool, trace: seq<Label>)
    ensures var s := Exec(publisher, Initial(), trace);
      (forall p, q :: p in s.rows && q in s.rows && p.orderId == q.orderId ==> p == q) &&
      (forall p :: p in s.rows ==> p.amount > 0 && (p.status.Authorized? <==> p.amount <= 100000)) &&
      (forall o :: multiset(s.publishes)[o] <= 1) &&
      (forall e :: e in s.events ==> EventFits(s, e)) &&
      (forall i, j :: 0 <= i < j < |s.events| ==> s.events[i].orderId != s.events[j].orderId)
  {
    hide Exec, CallsFit, AskedFor, TrimSpace, IsUuid;
    AlwaysFits(publisher, trace);
    var s := Exec(publisher, Initial(), trace);
    forall o ensures multiset(s.publishes)[o] <= 1 {
      DistinctCount(s.publishes, o);
    }
  }

  lemma {:induction false} DistinctCount(xs: seq<string>, x: string)
    requires forall i, j :: 0 <= i < j < |xs| ==> xs[i] != xs[j]
    ensures multiset(xs)[x] <= 1
  {
    if xs != [] {
      var rest, last := xs[..|xs| - 1], xs[|xs| - 1];
      assert xs == rest + [last];
      DistinctCount(rest, x);
      if x == last {
        assert x !in rest;
      }
    }
  }

  /** Between any two moments of a run, stored rows and accepted events keep their place and value,
      and a finished call keeps its answer. */
  lemma {:induction false} StoredIsFinal(publisher: bool, before: seq<Label>, later: seq<Label>)
    ensures Grows(Exec(publisher, Initial(), before), Exec(publisher, Initial(), before + later))
    decreases |later|
  {
    hide Next;
    if later == [] {
      assert before + later == before;
    } else {
      var middle := later[..|later| - 1];
      StoredIsFinal(publisher, before, middle);
      AlwaysFits(publisher, before + middle);
      FitsStep(publisher, Exec(publisher, Initial(), before + middle), later[|later| - 1]);
      assert before + later == (before + middle) + [later[|later| - 1]];
      ExecStep(publisher, Initial(), before + middle, later[|later| - 1]);
    }
  }

  /** What a caller may conclude from each answer. */
  lemma AnswersAreTrue(publisher: bool, trace: seq<Label>, c: nat)
    ensures var s := Exec(publisher, Initial(), trace);
      c in s.calls && s.calls[c].stage.Finished? ==>
        var input := s.calls[c].input;
        match s.calls[c].stage.outcome
        case Success(p) => p in s.rows && p.orderId == input.orderId && p.amount == input.amount
        case Refused(AlreadyExists) => exists p :: p in s.rows && p.orderId == input.orderId
        case Refused(AmountNotPositive) => input.amount <= 0
        case Refused(OrderIdRequired) => input.orderId == ""
        case Refused(EmailRequired) => TrimSpace(input.email) == ""
        case Refused(Internal) => true
  {
    hide Exec, RowsFit, EventsFit, TrimSpace, IsUuid;
    AlwaysFits(publisher, trace);
  }
}
