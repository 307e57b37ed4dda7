/** The whole system: checkout and payments on one side, the notification consumer on the other, and the broker's queue between
    them. Every event the broker takes from the payment service becomes a message; nothing else publishes. */
module EndToEnd {
  import opened Text
  import PaymentAdapter
  import P = PaymentProtocol
  import S = CheckoutSaga
  import N = NotificationProtocol
  import SG = SagaGuarantees
  import ST = SagaTheorems
  import NG = NotificationGuarantees
  import NT = NotificationTheorems
  import L = DeliveryLedger
  import O = SagaOrders

  datatype Config = Config(shop: S.Config, mail: N.Config)

  datatype State = State(shop: S.State, mail: N.State)

  datatype Label = Shop(s: S.Label) | Mail(n: N.Label)

  function Initial(): State {
    State(S.Initial(), N.Initial())
  }

  /** The JSON body of an event. */
  function BodyOf(e: P.Event): N.Body {
    N.Json(N.Payload(e.eventId, e.paymentId, e.orderId, e.amount, e.email, PaymentAdapter.StatusText(e.status)))
  }

  function Delivered(mail: N.State, before: seq<P.Event>, after: seq<P.Event>): N.State {
    if |after| > |before| then N.OnPublish(mail, BodyOf(after[|after| - 1])) else mail
  }

  function Next(cfg: Config, s: State, l: Label): State {
    match l
    case Shop(sl) =>
      var shop := S.Next(cfg.shop, s.shop, sl);
      State(shop, Delivered(s.mail, s.shop.pay.events, shop.pay.events))
    case Mail(nl) => if nl.Publish? then s else s.(mail := N.Next(cfg.mail, s.mail, nl))
  }

  function Exec(cfg: Config, trace: seq<Label>): State {
    if trace == [] then Initial()
    else Next(cfg, Exec(cfg, trace[..|trace| - 1]), trace[|trace| - 1])
  }

  // ----- The parts of a run are runs of the parts -----------------------------------------------

  lemma {:induction false} Project(cfg: Config, trace: seq<Label>) returns (shop: seq<S.Label>, mail: seq<N.Label>)
    ensures Exec(cfg, trace).shop == S.Exec(cfg.shop, S.Initial(), shop)
    ensures Exec(cfg, trace).mail == N.Exec(cfg.mail, N.Initial(), mail)
    ensures forall sl :: sl in shop ==> Shop(sl) in trace
  {
    hide S.Next, S.Exec, N.Next, N.Exec, BodyOf;
    if trace == [] {
      shop, mail := [], [];
      ShopRestsAtFirst(cfg.shop);
      MailRestsAtFirst(cfg.mail);
    } else {
      var before, l := trace[..|trace| - 1], trace[|trace| - 1];
      shop, mail := Project(cfg, before);
      var s, t := Exec(cfg, before), Exec(cfg, trace);
      match l
      case Shop(sl) =>
        S.ExecStep(cfg.shop, S.Initial(), shop, sl);
        assert Shop(sl) == trace[|trace| - 1];
        shop := shop + [sl];
        if |t.shop.pay.events| > |s.shop.pay.events| {
          var body := BodyOf(t.shop.pay.events[|t.shop.pay.events| - 1]);
          N.ExecStep(cfg.mail, N.Initial(), mail, N.Publish(body));
          PublishIsAStep(cfg.mail, s.mail, body);
          mail := mail + [N.Publish(body)];
        }
      case Mail(nl) =>
        if !nl.Publish? {
          N.ExecStep(cfg.mail, N.Initial(), mail, nl);
          mail := mail + [nl];
        }
    }
  }

  lemma PublishIsAStep(cfg: N.Config, s: N.State, b: N.Body)
    ensures N.Next(cfg, s, N.Publish(b)) == N.OnPublish(s, b)
  {
  }

  lemma ShopRestsAtFirst(cfg: S.Config)
    ensures S.Exec(cfg, S.Initial(), []) == S.Initial()
  {
  }

  lemma MailRestsAtFirst(cfg: N.Config)
    ensures N.Exec(cfg, N.Initial(), []) == N.Initial()
  {
  }

  // ----- The queue carries the events -----------------------------------------------------------

  predicate Carries(bodies: seq<N.Body>, events: seq<P.Event>) {
    |bodies| == |events| && forall i :: 0 <= i < |events| ==> bodies[i] == BodyOf(events[i])
  }

  lemma PaymentAddsAtMostOne(publisher: bool, pay: P.State, l: P.Label)
    ensures var t := P.Next(publisher, pay, l);
      t.events == pay.events || (|t.events| == |pay.events| + 1 && t.events[..|pay.events|] == pay.events)
  {
    hide P.FindRow, IsUuid, TrimSpace, P.Clashes, P.EventOf, P.NewPayment, P.StageAfterSave;
  }

  lemma ShopAddsAtMostOne(cfg: S.Config, s: S.State, l: S.Label)
    ensures var t := S.Next(cfg, s, l);
      t.pay.events == s.pay.events || (|t.pay.events| == |s.pay.events| + 1 && t.pay.events[..|s.pay.events|] == s.pay.events)
  {
    hide P.Next, S.T.Next, S.T.OnUpdateStatus, S.OnStored, S.OnAnswered, S.OnQueried, S.OnCancelRead, S.OnReread;
    if l.Pay? {
      PaymentAddsAtMostOne(cfg.publisher, s.pay, l.payLabel);
    } else if l.Call? {
      if l.call.Some? && l.proc in s.procs && s.procs[l.proc].Calling? {
        var o, email := s.procs[l.proc].order, s.procs[l.proc].email;
        PaymentAddsAtMostOne(cfg.publisher, s.pay, P.Begin(l.call.value, P.Input(o.id, o.amount, email)));
      }
    } else if !l.Create? && !l.Cancel? && !l.Db? && !l.Crash? && l.proc in s.procs {
      QuietOnPayments(cfg, s, l.proc, l);
    }
  }

  lemma QuietOnPayments(cfg: S.Config, s: S.State, p: nat, l: S.Label)
    requires p in s.procs && !l.Call?
    ensures S.ProcStep(cfg, s, p, s.procs[p], l).pay == s.pay
  {
    hide S.T.OnUpdateStatus, S.AfterAuthorize, S.AfterGetStatus, PaymentAdapter.Authorize, PaymentAdapter.GetStatus, P.FindRow;
  }

  lemma MailKeepsBodies(cfg: N.Config, s: N.State, l: N.Label)
    requires !l.Publish?
    ensures N.Next(cfg, s, l).bodies == s.bodies
  {
    hide N.InHandStep, N.OnSettle, N.OnCrash, N.OnDeliver;
    NG.DeliverKeeps(s);
  }

  lemma {:induction false} QueueCarriesEvents(cfg: Config, trace: seq<Label>)
    ensures Carries(Exec(cfg, trace).mail.bodies, Exec(cfg, trace).shop.pay.events)
  {
    hide S.Next, N.Next, BodyOf;
    if trace != [] {
      var before, l := trace[..|trace| - 1], trace[|trace| - 1];
      QueueCarriesEvents(cfg, before);
      var s := Exec(cfg, before);
      match l
      case Shop(sl) => ShopAddsAtMostOne(cfg.shop, s.shop, sl);
      case Mail(nl) =>
        if !nl.Publish? {
          MailKeepsBodies(cfg.mail, s.mail, nl);
        }
    }
  }

  // ----- The theorems ---------------------------------------------------------------------------

  /** The payment a receipt is for. */
  predicate Receipts(s: State, r: N.Receipt, row: P.Payment) {
    row in s.shop.pay.rows && row.status.Authorized? && 1 <= row.amount <= 100000 &&
    r.paymentId == row.id && r.orderId == TrimSpace(row.orderId) && r.amount == row.amount && r.status == "Authorized" &&
    r.to != ""
  }

  /** Some CreateOrder of the run gave this address and was returned the order, with the amount paid. */
  ghost predicate AddressGiven(trace: seq<Label>, shop: S.State, to: string, row: P.Payment) {
    exists p, input :: Shop(S.Create(p, input)) in trace && TrimSpace(input.email) == to &&
      O.WasReturned(shop.db, p, row.orderId, row.amount)
  }

  lemma EventAddress(cfg: Config, trace: seq<Label>, shop: seq<S.Label>, e: P.Event, row: P.Payment)
    requires !cfg.shop.open && forall sl :: sl in shop ==> Shop(sl) in trace
    requires var s := S.Exec(cfg.shop, S.Initial(), shop); e in s.pay.events
    requires e.orderId == row.orderId && e.amount == row.amount
    ensures AddressGiven(trace, S.Exec(cfg.shop, S.Initial(), shop), e.email, row)
  {
    hide S.Exec, S.T.Fits, SG.ProcsFit, SG.HistoriesFit, P.CallsFit, IsUuid, TrimSpace, P.RowsFit, O.ProcAsked;
    var s := S.Exec(cfg.shop, S.Initial(), shop);
    SG.AlwaysFits(cfg.shop, shop);
    O.CallsAreAsked(cfg.shop, shop);
    assert P.EventFits(s.pay, e);
    var c :| c in s.pay.calls && s.pay.calls[c].input.orderId == e.orderId && s.pay.calls[c].input.amount == e.amount &&
      TrimSpace(s.pay.calls[c].input.email) == e.email;
    assert SG.CallMatches(s, c);
    assert O.CallAsked(cfg.shop, shop, s.db, s.pay.calls[c].input);
    var p :| O.Gave(cfg.shop, shop, p, e.email) && O.WasReturned(s.db, p, e.orderId, e.amount);
    var i :| O.GivesAt(cfg.shop, shop, i, p, e.email);
    assert shop[i] == S.Create(p, shop[i].input) && shop[i] in shop;
  }

  lemma EventIsBacked(cfg: Config, shop: S.State, e: P.Event) returns (row: P.Payment)
    requires SG.Fits(cfg.shop, shop) && e in shop.pay.events
    ensures row in shop.pay.rows && row.status.Authorized? && 1 <= row.amount <= 100000 && IsUuid(row.id)
    ensures e.eventId == e.paymentId == row.id && e.orderId == row.orderId && e.amount == row.amount
    ensures e.status.Authorized? && e.email != "" && TrimSpace(e.email) == e.email
  {
    hide S.T.Fits, SG.CallsMatch, SG.ProcsFit, SG.HistoriesFit, P.CallsFit, IsUuid, TrimSpace, P.AskedFor;
    assert P.EventFits(shop.pay, e);
    row :| row in shop.pay.rows && row.status.Authorized? && e.eventId == e.paymentId == row.id && e.orderId == row.orderId &&
        e.amount == row.amount && e.status.Authorized? && e.email != "" && e.email == TrimSpace(e.email);
  }

  lemma EventReceipt(e: P.Event, row: P.Payment)
    requires IsUuid(row.id) && e.eventId == e.paymentId == row.id && e.orderId == row.orderId && e.amount == row.amount
    requires e.status.Authorized? && e.email != "" && TrimSpace(e.email) == e.email
    ensures N.PaymentKey(BodyOf(e).payload) == row.id
    ensures N.ReceiptOf(BodyOf(e).payload) == N.Receipt(e.email, TrimSpace(row.orderId), row.id, row.amount, "Authorized")
    ensures !N.IsPoison(BodyOf(e)) && NT.WellBuilt(BodyOf(e))
  {
    hide TrimSpace, IsUuid;
    UuidIsTrimmed(row.id);
    TrimFixes("Authorized");
  }

  /** In every interleaved run, with faults and crashes anywhere: each receipt the email provider accepts is for one stored
      Authorized payment, whose id, (trimmed) order id and amount it carries, and for the only event ever published for
      that order. When payments come only from checkout, that order is stored with the same amount, and the receipt goes to an
      address that a CreateOrder which was returned that order gave. */
  lemma ReceiptsAreForPayments(cfg: Config, trace: seq<Label>, i: nat)
    ensures var s := Exec(cfg, trace);
      i < |s.mail.log| && s.mail.log[i].Mailed? ==>
        exists row :: Receipts(s, s.mail.log[i].receipt, row) && s.mail.log[i].event == row.id &&
          (exists k :: 0 <= k < |s.shop.pay.events| && s.shop.pay.events[k].orderId == row.orderId &&
                       forall j :: 0 <= j < |s.shop.pay.events| && s.shop.pay.events[j].orderId == row.orderId ==> j == k) &&
          (!cfg.shop.open ==> row.orderId in s.shop.db.orders && s.shop.db.orders[row.orderId].amount == row.amount &&
                              AddressGiven(trace, s.shop, s.mail.log[i].receipt.to, row))
  {
    hide AddressGiven, Exec, S.Exec, N.Exec, SG.Fits, IsUuid, TrimSpace, BodyOf, NG.JobFits, NG.StoresFit, NG.SettledFit;
    var s := Exec(cfg, trace);
    var shop, mail := Project(cfg, trace);
    SG.AlwaysFits(cfg.shop, shop);
    NG.AlwaysFits(cfg.mail, mail);
    QueueCarriesEvents(cfg, trace);
    if i < |s.mail.log| && s.mail.log[i].Mailed? {
      var x := s.mail.log[i];
      var e := s.shop.pay.events[x.tag];
      assert s.mail.bodies[x.tag] == BodyOf(e);
      var row := EventIsBacked(cfg, s.shop, e);
      EventReceipt(e, row);
      EventIdOf(e);
      OneEventPerOrder(cfg, s.shop);
      if !cfg.shop.open {
        ST.RowCarriesOrderAmount(cfg.shop, s.shop, row);
        EventAddress(cfg, trace, shop, e, row);
      }
      assert Receipts(s, x.receipt, row);
      assert s.shop.pay.events[x.tag].orderId == row.orderId;
    }
  }

  lemma EventIdOf(e: P.Event)
    ensures BodyOf(e).Json? && BodyOf(e).payload.eventId == e.eventId
  {
  }

  lemma OneEventPerOrder(cfg: Config, shop: S.State)
    requires SG.Fits(cfg.shop, shop)
    ensures forall j, k :: 0 <= j < |shop.pay.events| && 0 <= k < |shop.pay.events| ==>
              (shop.pay.events[j].orderId == shop.pay.events[k].orderId ==> j == k)
  {
    hide S.T.Fits, SG.CallsMatch, SG.ProcsFit, SG.HistoriesFit, P.CallsFit, P.RowsFit, P.EventFits;
  }

  /** What the payment service publishes is never dead-lettered, but for the demo order; an acknowledged message's payment
      is permanently recorded as notified and its receipt was sent; and the receipts that the provider has accepted for a payment
      exceed one only by those that were sent and not recorded, or accepted and not reported, each at the price of a
      fault. */
  lemma PublishedIsNotified(cfg: Config, trace: seq<Label>, tag: nat)
    requires cfg.mail.maxAttempts >= 1
    ensures var s := Exec(cfg, trace);
      (tag in s.mail.dead ==> tag < |s.shop.pay.events| && cfg.mail.demoOrder != "" &&
                              TrimSpace(s.shop.pay.events[tag].orderId) == cfg.mail.demoOrder) &&
      (tag in s.mail.acked ==> tag < |s.shop.pay.events| && s.shop.pay.events[tag].eventId in s.mail.processed &&
                               NG.MailedMessage(s.mail.log, BodyOf(s.shop.pay.events[tag]).payload)) &&
      (tag < |s.shop.pay.events| ==>
         var id := s.shop.pay.events[tag].eventId;
         L.Count(s.mail.log, L.SentFor(id)) <= 1 + L.Count(s.mail.log, L.LostFor(id)) &&
         L.Count(s.mail.log, L.AcceptedFor(id)) <=
         1 + L.Count(s.mail.log, L.LostFor(id)) + L.Count(s.mail.log, L.UnreportedFor(id)) <= 1 + L.Count(s.mail.log, L.Faults))
  {
    hide Exec, S.Exec, N.Exec, SG.Fits, IsUuid, TrimSpace, BodyOf, NG.Fits, NG.MailedMessage, L.Count;
    var s := Exec(cfg, trace);
    var shop, mail := Project(cfg, trace);
    SG.AlwaysFits(cfg.shop, shop);
    QueueCarriesEvents(cfg, trace);
    EventsAreWellBuilt(cfg, s);
    hide NT.WellBuilt;
    NT.StoresAgree(cfg.mail, mail);
    NT.AcknowledgedWasSent(cfg.mail, mail);
    NT.DeadLettersAreDeserved(cfg.mail, mail, tag);
    if tag < |s.shop.pay.events| {
      var e := s.shop.pay.events[tag];
      EventIdOf(e);
      L.DuplicatesArePaidFor(cfg.mail, mail, e.eventId);
      L.ReceiptsArePaidFor(cfg.mail, mail, e.eventId);
      if tag in s.mail.dead {
        DemoOrderOf(cfg.mail, e);
      }
    }
  }

  lemma DemoOrderOf(cfg: N.Config, e: P.Event)
    ensures N.IsDemo(cfg, BodyOf(e)) <==> cfg.demoOrder != "" && TrimSpace(e.orderId) == cfg.demoOrder
  {
  }

  lemma EventsAreWellBuilt(cfg: Config, s: State)
    requires SG.Fits(cfg.shop, s.shop) && Carries(s.mail.bodies, s.shop.pay.events)
    ensures NT.AllWellBuilt(s.mail)
    ensures forall i :: 0 <= i < |s.mail.bodies| ==> !N.IsPoison(s.mail.bodies[i])
  {
    hide SG.Fits, IsUuid, TrimSpace, BodyOf, NT.WellBuilt, N.IsPoison;
    forall i | 0 <= i < |s.mail.bodies| ensures NT.WellBuilt(s.mail.bodies[i]) && !N.IsPoison(s.mail.bodies[i]) {
      var e := s.shop.pay.events[i];
      var row := EventIsBacked(cfg, s.shop, e);
      EventReceipt(e, row);
    }
  }
}
