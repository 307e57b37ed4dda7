/** Counting over every run: duplicates, redeliveries and the faults that pay for them. */
module DeliveryLedger {
  import opened Text
  import opened Writes
  import opened NotificationProtocol
  import G = NotificationGuarantees

  /** `Charges` are what a fault must pay for: a receipt accepted but not reported, or sent but not recorded. */
  datatype Kind =
    | SentFor(event: string) | KeptFor(event: string) | LostFor(event: string) | AcceptedFor(event: string) | UnreportedFor(event: string)
    | Deliveries | Requeues | Faults | Charges

  predicate Matches(x: Entry, k: Kind) {
    match k
    case SentFor(e) => x.Mailed? && x.reported && x.event == e
    case KeptFor(e) => x == Recorded(e)
    case LostFor(e) => x == Unrecorded(e)
    case AcceptedFor(e) => x.Mailed? && x.event == e
    case UnreportedFor(e) => x.Mailed? && !x.reported && x.event == e
    case Charges => (x.Mailed? && !x.reported) || x.Unrecorded?
    case Deliveries => x.Delivered?
    case Requeues => x.Requeued?
    case Faults => x.Fault?
  }

  function Count(log: seq<Entry>, k: Kind): nat {
    if log == [] then 0
    else Count(log[..|log| - 1], k) + if Matches(log[|log| - 1], k) then 1 else 0
  }

  lemma CountOneMore(log: seq<Entry>, x: Entry, k: Kind)
    ensures Count(log + [x], k) == Count(log, k) + if Matches(x, k) then 1 else 0
  {
    assert (log + [x])[..|log|] == log;
  }

  lemma {:induction false} CountUnmoved(log: seq<Entry>, more: seq<Entry>, k: Kind)
    requires log <= more && forall i :: |log| <= i < |more| ==> !Matches(more[i], k)
    ensures Count(more, k) == Count(log, k)
  {
    if |log| < |more| {
      CountUnmoved(log, more[..|more| - 1], k);
    } else {
      assert log == more;
    }
  }

  // ----- Duplicates -----------------------------------------------------------------------------

  /** A delivery of this event that has sent the email and has not recorded it yet. */
  function Pending(s: State, event: string): nat {
    if s.job.Some? && s.job.value.stage.Recording? && s.job.value.stage.p.eventId == event then 1 else 0
  }

  predicate Balanced(s: State, event: string) {
    Count(s.log, SentFor(event)) == Count(s.log, KeptFor(event)) + Count(s.log, LostFor(event)) + Pending(s, event) &&
    Count(s.log, KeptFor(event)) <= (if event in s.processed then 1 else 0)
  }

  /** A step that writes none of the three kinds of entry, and neither enters nor leaves Recording. */
  predicate Neutral(s: State, t: State) {
    Grows(s, t) && (forall i :: |s.log| <= i < |t.log| ==> t.log[i].Fault? || t.log[i].Requeued? || t.log[i].Delivered? ||
                                                           (t.log[i].Mailed? && !t.log[i].reported)) &&
    !(s.job.Some? && s.job.value.stage.Recording?) && !(t.job.Some? && t.job.value.stage.Recording?)
  }

  lemma NeutralBalances(s: State, t: State, event: string)
    requires Balanced(s, event) && Neutral(s, t)
    ensures Balanced(t, event)
  {
    CountUnmoved(s.log, t.log, SentFor(event));
    CountUnmoved(s.log, t.log, KeptFor(event));
    CountUnmoved(s.log, t.log, LostFor(event));
  }

  lemma AttemptBalances(cfg: Config, s: State, p: Payload, k: nat, accepted: bool, reported: bool, event: string)
    requires s.job.Some? && s.job.value.stage == Sending(p, k)
    requires Balanced(s, event)
    ensures Balanced(OnAttempt(cfg, s, p, k, accepted, reported), event)
  {
    hide ReceiptOf, TimerReady;
    var t := OnAttempt(cfg, s, p, k, accepted, reported);
    if accepted && reported {
      var x := Mailed(s.job.value.tag, p.eventId, ReceiptOf(p), true);
      assert t.log == s.log + [x];
      CountOneMore(s.log, x, SentFor(event));
      CountOneMore(s.log, x, KeptFor(event));
      CountOneMore(s.log, x, LostFor(event));
    } else {
      NeutralBalances(s, t, event);
    }
  }

  /** One entry about the event, then possibly a fault and a requeue. */
  lemma OneEntry(log: seq<Entry>, more: seq<Entry>, x: Entry, k: Kind)
    requires k.SentFor? || k.KeptFor? || k.LostFor?
    requires log + [x] <= more
    requires forall i :: |log| < i < |more| ==> more[i].Fault? || more[i].Requeued?
    ensures Count(more, k) == Count(log, k) + if Matches(x, k) then 1 else 0
  {
    CountOneMore(log, x, k);
    CountUnmoved(log + [x], more, k);
  }

  lemma RecordBalances(s: State, p: Payload, outcome: WriteOutcome, event: string)
    requires s.job.Some? && s.job.value.stage == Recording(p) && p.eventId !in s.processed
    requires Balanced(s, event)
    ensures Balanced(OnRecord(s, p, outcome), event)
  {
    hide Count, PaymentKey;
    var t := OnRecord(s, p, outcome);
    var x := if outcome == Applied then Recorded(p.eventId) else Unrecorded(p.eventId);
    assert t.log == s.log + [x] || t.log == s.log + [x] + [Fault];
    OneEntry(s.log, t.log, x, SentFor(event));
    OneEntry(s.log, t.log, x, KeptFor(event));
    OneEntry(s.log, t.log, x, LostFor(event));
  }

  lemma CrashBalances(s: State, at: nat, event: string)
    requires s.job.Some? && Balanced(s, event)
    ensures Balanced(OnCrash(s, at), event)
  {
    hide PutAt, Count;
    var t := OnCrash(s, at);
    if s.job.value.stage.Recording? {
      var x := Unrecorded(s.job.value.stage.p.eventId);
      assert t.log == s.log + [x] + [Fault] + [Requeued];
      OneEntry(s.log, t.log, x, SentFor(event));
      OneEntry(s.log, t.log, x, KeptFor(event));
      OneEntry(s.log, t.log, x, LostFor(event));
    } else {
      NeutralBalances(s, t, event);
    }
  }

  /** The remaining stages: their steps are neutral. */
  lemma PlainStageIsNeutral(cfg: Config, s: State, l: Label)
    requires cfg.maxAttempts >= 1 && s.job.Some?
    requires !s.job.value.stage.Sending? && !s.job.value.stage.Recording?
    ensures Neutral(s, InHandStep(cfg, s, s.job.value.stage, l))
  {
    hide PaymentKey, TrimSpace, IsDemo, OnAttempt, OnRecord;
  }

  lemma OtherStepIsNeutral(cfg: Config, s: State, l: Label)
    requires l.Publish? || l.Tick? || l.Deliver? || l.Settle?
    requires s.job.Some? ==> !s.job.value.stage.Recording?
    ensures Neutral(s, Next(cfg, s, l))
  {
    hide PutAt, TrimSpace, InHandStep, OnCrash;
  }

  lemma BalancedStep(cfg: Config, s: State, l: Label, event: string)
    requires cfg.maxAttempts >= 1 && G.Fits(cfg, s)
    requires Balanced(s, event)
    ensures Balanced(Next(cfg, s, l), event)
  {
    hide G.Fits, OnSettle, OnCrash, OnDeliver, OnAttempt, OnRecord, OnMark, OnCheckProcessed, OnCheckSent, OnTimer, OnDeadline;
    var recording := s.job.Some? && s.job.value.stage.Recording?;
    if l.Crash? {
      if s.job.Some? {
        CrashBalances(s, l.at, event);
      }
    } else if l.Publish? || l.Tick? || l.Deliver? || l.Settle? {
      if recording {
        RecordingIsLeftAlone(cfg, s, l);
      } else {
        OtherStepIsNeutral(cfg, s, l);
        NeutralBalances(s, Next(cfg, s, l), event);
      }
    } else if s.job.Some? {
      match s.job.value.stage
      case Sending(p, k) =>
        if l.Attempt? {
          AttemptBalances(cfg, s, p, k, l.accepted, l.reported, event);
        }
      case Recording(p) =>
        if l.Record? {
          NotYetRecorded(cfg, s, p);
          RecordBalances(s, p, l.outcome, event);
        }
      case _ =>
        PlainStageIsNeutral(cfg, s, l);
        NeutralBalances(s, InHandStep(cfg, s, s.job.value.stage, l), event);
    }
  }

  lemma RecordingIsLeftAlone(cfg: Config, s: State, l: Label)
    requires s.job.Some? && s.job.value.stage.Recording?
    requires l.Publish? || l.Tick? || l.Deliver? || l.Settle?
    ensures Next(cfg, s, l).log == s.log && Next(cfg, s, l).job == s.job && Next(cfg, s, l).processed == s.processed
  {
  }

  /** The insert into processed_events never meets its own primary key. */
  lemma NotYetRecorded(cfg: Config, s: State, p: Payload)
    requires G.Fits(cfg, s) && s.job.Some? && s.job.value.stage == Recording(p)
    ensures p.eventId !in s.processed
  {
    hide G.LogFits, G.StoresFit, G.SettledFit;
  }

  lemma {:induction false} AlwaysBalanced(cfg: Config, trace: seq<Label>, event: string)
    requires cfg.maxAttempts >= 1
    ensures Balanced(Exec(cfg, Initial(), trace), event)
  {
    hide Next, G.Fits;
    if trace != [] {
      var before := trace[..|trace| - 1];
      AlwaysBalanced(cfg, before, event);
      G.AlwaysFits(cfg, before);
      BalancedStep(cfg, Exec(cfg, Initial(), before), trace[|trace| - 1], event);
    }
  }

  /** Over any redeliveries, store failures, crashes and expiries: successful sends of an event are exactly the ones
      recorded (at most one, ever), the ones whose delivery then failed to record them, and the one in hand. */
  lemma DuplicatesArePaidFor(cfg: Config, trace: seq<Label>, event: string)
    requires cfg.maxAttempts >= 1
    ensures var s := Exec(cfg, Initial(), trace);
      Count(s.log, SentFor(event)) == Count(s.log, KeptFor(event)) + Count(s.log, LostFor(event)) + Pending(s, event)
    ensures var s := Exec(cfg, Initial(), trace); Count(s.log, SentFor(event)) <= 1 + Count(s.log, LostFor(event))
  {
    var s := Exec(cfg, Initial(), trace);
    AlwaysBalanced(cfg, trace, event);
    G.AlwaysFits(cfg, trace);
    if Pending(s, event) == 1 {
      NotYetRecorded(cfg, s, s.job.value.stage.p);
    }
  }

  // ----- Redeliveries ---------------------------------------------------------------------------

  /** The stages that only a fault earlier in the same delivery leads to. */
  predicate Tainted(stage: Stage) {
    match stage
    case Sending(_, k) => k >= 1
    case Waiting(_, _, _) => true
    case Settling(v) => v.Transient? || v.Interrupted?
    case _ => false
  }

  predicate TaintedJob(s: State) {
    s.job.Some? && Tainted(s.job.value.stage)
  }

  predicate Accounted(s: State) {
    Count(s.log, Deliveries) == Count(s.log, Requeues) + |s.acked| + |s.dead| + (if s.job.Some? then 1 else 0) &&
    Count(s.log, Requeues) + (if TaintedJob(s) then 1 else 0) <= Count(s.log, Faults)
  }

  /** How a step may move the accounts. */
  predicate Moves(s: State, t: State, delivered: nat, requeued: nat, faults: nat) {
    Count(t.log, Deliveries) == Count(s.log, Deliveries) + delivered &&
    Count(t.log, Requeues) == Count(s.log, Requeues) + requeued &&
    Count(t.log, Faults) == Count(s.log, Faults) + faults
  }

  lemma MovesOne(s: State, t: State, x: Entry)
    requires t.log == s.log + [x]
    ensures Moves(s, t, if x.Delivered? then 1 else 0, if x.Requeued? then 1 else 0, if x.Fault? then 1 else 0)
  {
    CountOneMore(s.log, x, Deliveries);
    CountOneMore(s.log, x, Requeues);
    CountOneMore(s.log, x, Faults);
  }

  lemma MovesTwo(s: State, t: State, x: Entry, y: Entry)
    requires t.log == s.log + [x] + [y]
    ensures Moves(s, t, (if x.Delivered? then 1 else 0) + (if y.Delivered? then 1 else 0),
                        (if x.Requeued? then 1 else 0) + (if y.Requeued? then 1 else 0),
                        (if x.Fault? then 1 else 0) + (if y.Fault? then 1 else 0))
  {
    var m := Note(s, x);
    MovesOne(s, m, x);
    MovesOne(m, t, y);
  }

  lemma InHandAccounts(cfg: Config, s: State, l: Label)
    requires s.job.Some? && Accounted(s)
    ensures Accounted(InHandStep(cfg, s, s.job.value.stage, l))
  {
    hide PaymentKey, TrimSpace, IsDemo, ReceiptOf, TimerReady, IsLive, Count, Grows;
    var t := InHandStep(cfg, s, s.job.value.stage, l);
    if |t.log| == |s.log| {
    } else if |t.log| == |s.log| + 1 {
      MovesOne(s, t, t.log[|s.log|]);
    } else {
      MovesTwo(s, t, t.log[|s.log|], t.log[|s.log| + 1]);
    }
  }

  lemma SettleAccounts(s: State, replyLost: bool, at: nat)
    requires s.job.Some? && s.job.value.stage.Settling? && Accounted(s)
    ensures Accounted(OnSettle(s, s.job.value.stage.verdict, replyLost, at))
  {
    hide PutAt, Count, Grows;
    var t := OnSettle(s, s.job.value.stage.verdict, replyLost, at);
    if replyLost {
      MovesTwo(s, t, Fault, Requeued);
    } else if TaintedJob(s) {
      MovesOne(s, t, Requeued);
    }
  }

  lemma CrashAccounts(s: State, at: nat)
    requires s.job.Some? && Accounted(s)
    ensures Accounted(OnCrash(s, at))
  {
    hide PutAt, Count, Grows;
    var t := OnCrash(s, at);
    if s.job.value.stage.Recording? {
      var m := Note(s, Unrecorded(s.job.value.stage.p.eventId));
      MovesOne(s, m, Unrecorded(s.job.value.stage.p.eventId));
      MovesTwo(m, t, Fault, Requeued);
    } else {
      MovesTwo(s, t, Fault, Requeued);
    }
  }

  lemma DeliverAccounts(s: State)
    requires Accounted(s)
    ensures Accounted(OnDeliver(s))
  {
    hide Count, Grows, TrimSpace;
    if OnDeliver(s) != s {
      MovesOne(s, OnDeliver(s), Delivered);
    }
  }

  lemma AccountedStep(cfg: Config, s: State, l: Label)
    requires Accounted(s)
    ensures Accounted(Next(cfg, s, l))
  {
    hide OnSettle, OnCrash, OnDeliver, InHandStep, Count;
    match l
    case Settle(replyLost, at) =>
      if s.job.Some? && s.job.value.stage.Settling? {
        SettleAccounts(s, replyLost, at);
      }
    case Crash(at) =>
      if s.job.Some? {
        CrashAccounts(s, at);
      }
    case Deliver => DeliverAccounts(s);
    case Publish(_) =>
    case Tick(_) =>
    case _ =>
      if s.job.Some? {
        InHandAccounts(cfg, s, l);
      }
  }

  lemma {:induction false} AlwaysAccounted(cfg: Config, trace: seq<Label>)
    ensures Accounted(Exec(cfg, Initial(), trace))
  {
    hide Next;
    if trace != [] {
      AlwaysAccounted(cfg, trace[..|trace| - 1]);
      AccountedStep(cfg, Exec(cfg, Initial(), trace[..|trace| - 1]), trace[|trace| - 1]);
    }
  }

  /** Every redelivery is paid for by a fault: a run delivers at most once per message plus once per fault. */
  lemma RedeliveriesArePaidFor(cfg: Config, trace: seq<Label>)
    ensures var s := Exec(cfg, Initial(), trace);
      Count(s.log, Deliveries) + |s.queue| == Count(s.log, Requeues) + |s.bodies| &&
      Count(s.log, Requeues) <= Count(s.log, Faults)
  {
    var s := Exec(cfg, Initial(), trace);
    AlwaysAccounted(cfg, trace);
    G.AlwaysConserved(cfg, trace);
    G.TagsCount(|s.bodies|, 0);
    assert |G.Places(s)| == |s.queue| + |G.InFlight(s)| + |s.acked| + |s.dead|;
  }

  // ----- Receipts -------------------------------------------------------------------------------

  predicate PaidFor(log: seq<Entry>) {
    Count(log, Charges) <= Count(log, Faults)
  }

  lemma PaidForOne(log: seq<Entry>, x: Entry)
    requires PaidFor(log) && !Matches(x, Charges)
    ensures PaidFor(log + [x])
  {
    CountOneMore(log, x, Charges);
    CountOneMore(log, x, Faults);
  }

  /** A charge and its fault. */
  lemma PaidForTwo(log: seq<Entry>, x: Entry)
    requires PaidFor(log)
    ensures PaidFor(log + [x] + [Fault])
  {
    CountOneMore(log, x, Charges);
    CountOneMore(log, x, Faults);
    CountOneMore(log + [x], Fault, Charges);
    CountOneMore(log + [x], Fault, Faults);
  }

  lemma InHandPays(cfg: Config, s: State, l: Label)
    requires s.job.Some? && PaidFor(s.log)
    ensures PaidFor(InHandStep(cfg, s, s.job.value.stage, l).log)
  {
    hide PaymentKey, TrimSpace, IsDemo, ReceiptOf, TimerReady, IsLive, PaidFor, Grows, StageWhenUnsent;
    var t := InHandStep(cfg, s, s.job.value.stage, l);
    if |t.log| == |s.log| + 1 {
      assert t.log == s.log + [t.log[|s.log|]];
      PaidForOne(s.log, t.log[|s.log|]);
    } else if |t.log| == |s.log| + 2 {
      assert t.log == s.log + [t.log[|s.log|]] + [Fault];
      PaidForTwo(s.log, t.log[|s.log|]);
    }
  }

  lemma OtherStepPays(cfg: Config, s: State, l: Label)
    requires PaidFor(s.log) && (l.Publish? || l.Tick? || l.Deliver? || l.Settle? || l.Crash?)
    ensures PaidFor(Next(cfg, s, l).log)
  {
    hide PutAt, TrimSpace, PaidFor, FirstStage;
    PaidForOne(s.log, Delivered);
    PaidForOne(s.log, Fault);
    PaidForOne(s.log, Requeued);
    PaidForOne(s.log + [Fault], Requeued);
    if l.Crash? && s.job.Some? && s.job.value.stage.Recording? {
      PaidForTwo(s.log, Unrecorded(s.job.value.stage.p.eventId));
      PaidForOne(s.log + [Unrecorded(s.job.value.stage.p.eventId)] + [Fault], Requeued);
    }
  }

  lemma {:induction false} AlwaysPaidFor(cfg: Config, trace: seq<Label>)
    ensures PaidFor(Exec(cfg, Initial(), trace).log)
  {
    hide Next;
    if trace != [] {
      var s, l := Exec(cfg, Initial(), trace[..|trace| - 1]), trace[|trace| - 1];
      AlwaysPaidFor(cfg, trace[..|trace| - 1]);
      if l.Publish? || l.Tick? || l.Deliver? || l.Settle? || l.Crash? {
        OtherStepPays(cfg, s, l);
      } else {
        OneInHand(cfg, s, l);
        if s.job.Some? {
          InHandPays(cfg, s, l);
        }
      }
    }
  }

  lemma OneInHand(cfg: Config, s: State, l: Label)
    requires !l.Publish? && !l.Tick? && !l.Deliver? && !l.Settle? && !l.Crash?
    ensures Next(cfg, s, l) == if s.job.Some? then InHandStep(cfg, s, s.job.value.stage, l) else s
  {
  }

  lemma {:induction false} CountsAddUp(log: seq<Entry>, event: string)
    ensures Count(log, AcceptedFor(event)) == Count(log, SentFor(event)) + Count(log, UnreportedFor(event))
    ensures Count(log, LostFor(event)) + Count(log, UnreportedFor(event)) <= Count(log, Charges)
  {
    if log != [] {
      CountsAddUp(log[..|log| - 1], event);
    }
  }

  /** All receipts of an event that the provider has accepted, reported or not: at most one, and one more for each that was sent and not
      recorded and each that was accepted and not reported; and every one of those is paid for by a fault of its own. */
  lemma ReceiptsArePaidFor(cfg: Config, trace: seq<Label>, event: string)
    requires cfg.maxAttempts >= 1
    ensures var log := Exec(cfg, Initial(), trace).log;
      Count(log, AcceptedFor(event)) <= 1 + Count(log, LostFor(event)) + Count(log, UnreportedFor(event)) <= 1 + Count(log, Faults)
  {
    hide Exec, Count;
    DuplicatesArePaidFor(cfg, trace, event);
    AlwaysPaidFor(cfg, trace);
    CountsAddUp(Exec(cfg, Initial(), trace).log, event);
  }
}
