/** What every run of the notification consumer keeps. */
module NotificationGuarantees {
  import opened Text
  import opened Writes
  import opened Backoff
  import opened NotificationProtocol

  // ----- Message conservation -------------------------------------------------------------------

  ghost function Tags(n: nat): multiset<nat> {
    if n == 0 then multiset{} else Tags(n - 1) + multiset{n - 1}
  }

  lemma {:induction false} TagsCount(n: nat, t: nat)
    ensures Tags(n)[t] == if t < n then 1 else 0
    ensures |Tags(n)| == n
  {
    if n > 0 {
      TagsCount(n - 1, t);
    }
  }

  ghost function InFlight(s: State): multiset<nat> {
    if s.job.Some? then multiset{s.job.value.tag} else multiset{}
  }

  ghost function Places(s: State): multiset<nat> {
    multiset(s.queue) + InFlight(s) + multiset(s.acked) + multiset(s.dead)
  }

  ghost predicate Conserved(s: State) {
    Places(s) == Tags(|s.bodies|)
  }

  lemma PutAtKeeps(q: seq<nat>, at: nat, tag: nat)
    ensures multiset(PutAt(q, at, tag)) == multiset(q) + multiset{tag}
    ensures |PutAt(q, at, tag)| == |q| + 1
  {
    if at < |q| {
      assert q == q[..at] + q[at..];
    }
  }

  lemma RequeueKeeps(s: State, at: nat)
    requires s.job.Some?
    ensures Places(Requeue(s, at)) == Places(s)
  {
    PutAtKeeps(s.queue, at, s.job.value.tag);
  }

  lemma SettleKeeps(s: State, verdict: Verdict, replyLost: bool, at: nat)
    requires s.job.Some?
    ensures Places(OnSettle(s, verdict, replyLost, at)) == Places(s)
  {
    RequeueKeeps(s, at);
    RequeueKeeps(Note(s, Fault), at);
  }

  lemma CrashKeeps(s: State, at: nat)
    requires s.job.Some?
    ensures Places(OnCrash(s, at)) == Places(s)
  {
    var s1 := if s.job.value.stage.Recording? then Note(s, Unrecorded(s.job.value.stage.p.eventId)) else s;
    RequeueKeeps(Note(s1, Fault), at);
  }

  lemma DeliverKeeps(s: State)
    ensures Places(OnDeliver(s)) == Places(s) && OnDeliver(s).bodies == s.bodies
  {
    if s.queue != [] {
      assert s.queue == [s.queue[0]] + s.queue[1..];
    }
  }

  lemma PublishKeeps(s: State, b: Body)
    requires Conserved(s)
    ensures Conserved(OnPublish(s, b))
  {
  }

  lemma TickKeeps(s: State, d: nat)
    ensures Places(s.(now := s.now + d)) == Places(s)
  {
  }

  lemma InHandKeeps(s: State, t: State)
    requires InHand(s, t)
    ensures Places(t) == Places(s)
  {
  }

  lemma ConservedStep(cfg: Config, s: State, l: Label)
    requires Conserved(s)
    ensures Conserved(Next(cfg, s, l))
  {
    hide OnSettle, OnCrash, OnDeliver, OnPublish, InHandStep, Places, Tags;
    match l
    case Settle(replyLost, at) =>
      if s.job.Some? && s.job.value.stage.Settling? {
        SettleKeeps(s, s.job.value.stage.verdict, replyLost, at);
      }
    case Crash(at) =>
      if s.job.Some? {
        CrashKeeps(s, at);
      }
    case Deliver => DeliverKeeps(s);
    case Publish(b) => PublishKeeps(s, b);
    case Tick(d) => assert Places(s.(now := s.now + d)) == Places(s) by { TickKeeps(s, d); }
    case _ =>
      if s.job.Some? && Next(cfg, s, l) != s {
        InHandKeeps(s, Next(cfg, s, l));
      }
  }

  lemma {:induction false} AlwaysConserved(cfg: Config, trace: seq<Label>)
    ensures Conserved(Exec(cfg, Initial(), trace))
  {
    if trace != [] {
      AlwaysConserved(cfg, trace[..|trace| - 1]);
      ConservedStep(cfg, Exec(cfg, Initial(), trace[..|trace| - 1]), trace[|trace| - 1]);
    }
  }

  /** Every published message is in exactly one of queue, in flight, acknowledged or dead-lettered, exactly once. */
  lemma MessageConservation(cfg: Config, trace: seq<Label>, tag: nat)
    ensures var s := Exec(cfg, Initial(), trace);
      multiset(s.queue)[tag] + InFlight(s)[tag] + multiset(s.acked)[tag] + multiset(s.dead)[tag]
      == if tag < |s.bodies| then 1 else 0
  {
    var s := Exec(cfg, Initial(), trace);
    AlwaysConserved(cfg, trace);
    TagsCount(|s.bodies|, tag);
    assert Places(s)[tag] == Tags(|s.bodies|)[tag];
  }

  // ----- What a delivery knows ------------------------------------------------------------------

  /** The checks that a delivery has passed by the time it talks to the provider. */
  predicate Accepted(cfg: Config, b: Body) {
    !IsPoison(b) && !IsDemo(cfg, b)
  }

  predicate MailedFor(log: seq<Entry>, event: string, key: string) {
    exists i :: 0 <= i < |log| && log[i].Mailed? && log[i].reported && log[i].event == event && log[i].receipt.paymentId == key
  }

  predicate MailedEvent(log: seq<Entry>, event: string) {
    exists i :: 0 <= i < |log| && log[i].Mailed? && log[i].reported && log[i].event == event
  }

  /** Some reported send was for this message's event or for its payment. */
  predicate MailedMessage(log: seq<Entry>, p: Payload) {
    exists i :: 0 <= i < |log| && log[i].Mailed? && log[i].reported &&
      (log[i].event == p.eventId || log[i].receipt.paymentId == PaymentKey(p))
  }

  predicate StageFits(cfg: Config, s: State, b: Body, stage: Stage) {
    match stage
    case AskProcessed(p) => b == Json(p) && TrimSpace(p.eventId) != ""
    case AskSent(p) => b == Json(p) && TrimSpace(p.eventId) != "" && p.eventId !in s.processed
    case Sending(p, k) => b == Json(p) && Accepted(cfg, b) && p.eventId !in s.processed && k < cfg.maxAttempts
    case Waiting(p, k, _) => b == Json(p) && Accepted(cfg, b) && p.eventId !in s.processed && 1 <= k < cfg.maxAttempts
    case Recording(p) => b == Json(p) && Accepted(cfg, b) && p.eventId !in s.processed &&
                         (cfg.maxAttempts >= 1 ==> MailedFor(s.log, p.eventId, PaymentKey(p)))
    case Marking(p) => b == Json(p) && Accepted(cfg, b) && p.eventId in s.processed &&
                       (cfg.maxAttempts >= 1 ==> MailedFor(s.log, p.eventId, PaymentKey(p)))
    case Settling(Done) => b.Json? && (cfg.maxAttempts >= 1 ==> MailedMessage(s.log, b.payload))
    case Settling(Poison) => IsPoison(b)
    case Settling(ForcedDeadLetter) => IsDemo(cfg, b)
    case Settling(_) => true
  }

  predicate JobFits(cfg: Config, s: State) {
    s.job.Some? ==> s.job.value.tag < |s.bodies| && StageFits(cfg, s, s.bodies[s.job.value.tag], s.job.value.stage)
  }

  predicate LogFits(cfg: Config, s: State) {
    forall i :: 0 <= i < |s.log| && s.log[i].Mailed? ==>
      var e := s.log[i];
      e.tag < |s.bodies| && s.bodies[e.tag].Json? && Accepted(cfg, s.bodies[e.tag]) &&
      e.event == s.bodies[e.tag].payload.eventId && e.receipt == ReceiptOf(s.bodies[e.tag].payload)
  }

  predicate StoresFit(cfg: Config, s: State) {
    cfg.maxAttempts >= 1 ==>
      (forall e :: e in s.processed ==> MailedEvent(s.log, e)) &&
      (forall k :: k in s.sentKeys ==> exists e :: e in s.processed && MailedFor(s.log, e, k))
  }

  predicate SettledFit(cfg: Config, s: State) {
    (forall t :: t in s.acked ==> t < |s.bodies| && StageFits(cfg, s, s.bodies[t], Settling(Done))) &&
    (forall t :: t in s.dead ==> t < |s.bodies| && (IsPoison(s.bodies[t]) || IsDemo(cfg, s.bodies[t])))
  }

  predicate Fits(cfg: Config, s: State) {
    JobFits(cfg, s) && LogFits(cfg, s) && StoresFit(cfg, s) && SettledFit(cfg, s)
  }

  lemma EvidenceLasts(log: seq<Entry>, more: seq<Entry>)
    requires log <= more
    ensures forall e :: MailedEvent(log, e) ==> MailedEvent(more, e)
    ensures forall e, k :: MailedFor(log, e, k) ==> MailedFor(more, e, k)
    ensures forall p :: MailedMessage(log, p) ==> MailedMessage(more, p)
  {
    forall e | MailedEvent(log, e) ensures MailedEvent(more, e) {
      var i :| 0 <= i < |log| && log[i].Mailed? && log[i].reported && log[i].event == e;
      assert more[i] == log[i];
    }
    forall e, k | MailedFor(log, e, k) ensures MailedFor(more, e, k) {
      var i :| 0 <= i < |log| && log[i].Mailed? && log[i].reported && log[i].event == e && log[i].receipt.paymentId == k;
      assert more[i] == log[i];
    }
    forall p | MailedMessage(log, p) ensures MailedMessage(more, p) {
      var i :| 0 <= i < |log| && log[i].Mailed? && log[i].reported &&
               (log[i].event == p.eventId || log[i].receipt.paymentId == PaymentKey(p));
      assert more[i] == log[i];
    }
  }

  /** A step that mails nothing and leaves the stores and the settled messages alone. */
  predicate Aside(s: State, t: State) {
    Grows(s, t) && t.processed == s.processed && t.sentKeys == s.sentKeys && t.acked == s.acked && t.dead == s.dead &&
    forall i :: |s.log| <= i < |t.log| ==> !t.log[i].Mailed?
  }

  lemma AsideFits(cfg: Config, s: State, t: State)
    requires Fits(cfg, s) && Aside(s, t)
    ensures LogFits(cfg, t) && StoresFit(cfg, t) && SettledFit(cfg, t)
  {
    hide PaymentKey, ReceiptOf, IsPoison, IsDemo;
    EvidenceLasts(s.log, t.log);
    forall i | 0 <= i < |t.log| && t.log[i].Mailed? ensures t.log[i] == s.log[i] {
    }
  }

  lemma CheckProcessedFits(cfg: Config, s: State, p: Payload, ok: bool)
    requires Fits(cfg, s) && s.job.Some? && s.job.value.stage == AskProcessed(p)
    ensures Fits(cfg, OnCheckProcessed(s, p, ok))
  {
    var t := OnCheckProcessed(s, p, ok);
    AsideFits(cfg, s, t);
    if ok && p.eventId in s.processed && cfg.maxAttempts >= 1 {
      assert MailedEvent(s.log, p.eventId);
    }
  }

  lemma CheckSentFits(cfg: Config, s: State, p: Payload, ok: bool)
    requires Fits(cfg, s) && s.job.Some? && s.job.value.stage == AskSent(p)
    ensures Fits(cfg, OnCheckSent(cfg, s, p, ok))
  {
    hide TrimSpace, PaymentKey, ReceiptOf;
    var t := OnCheckSent(cfg, s, p, ok);
    AsideFits(cfg, s, t);
    if ok && IsLive(s, PaymentKey(p)) && cfg.maxAttempts >= 1 {
      var e :| e in s.processed && MailedFor(s.log, e, PaymentKey(p));
      assert MailedMessage(s.log, p);
    }
  }

  lemma EmailedFits(cfg: Config, s: State, p: Payload, k: nat, reported: bool)
    requires Fits(cfg, s) && s.job.Some? && s.job.value.stage == Sending(p, k)
    ensures Fits(cfg, Emailed(s, p, reported))
    ensures reported ==> MailedFor(Emailed(s, p, reported).log, p.eventId, PaymentKey(p))
  {
    hide IsPoison, IsDemo, PaymentKey, TrimSpace;
    var t := Emailed(s, p, reported);
    EvidenceLasts(s.log, t.log);
    assert t.log[|s.log|] == Mailed(s.job.value.tag, p.eventId, ReceiptOf(p), reported);
    assert ReceiptOf(p).paymentId == PaymentKey(p);
    hide ReceiptOf;
    forall i | 0 <= i < |t.log| && t.log[i].Mailed?
      ensures t.log[i] == if i < |s.log| then s.log[i] else Mailed(s.job.value.tag, p.eventId, ReceiptOf(p), reported)
    {
    }
  }

  lemma FailedAttemptFits(cfg: Config, s: State, p: Payload, k: nat)
    requires Fits(cfg, s) && s.job.Some? && s.job.value.stage == Sending(p, k)
    ensures Fits(cfg, AfterFailedAttempt(cfg, s, p, k))
  {
    hide TimerReady, IsPoison, IsDemo, PaymentKey, ReceiptOf;
    AsideFits(cfg, s, AfterFailedAttempt(cfg, s, p, k));
  }

  lemma AttemptFits(cfg: Config, s: State, p: Payload, k: nat, accepted: bool, reported: bool)
    requires Fits(cfg, s) && s.job.Some? && s.job.value.stage == Sending(p, k)
    ensures Fits(cfg, OnAttempt(cfg, s, p, k, accepted, reported))
  {
    hide AfterFailedAttempt, IsPoison, IsDemo, PaymentKey, ReceiptOf;
    if reported && accepted {
      EmailedFits(cfg, s, p, k, true);
      AsideFits(cfg, Emailed(s, p, true), Go(Emailed(s, p, true), Recording(p)));
    } else if accepted {
      EmailedFits(cfg, s, p, k, false);
      FailedAttemptFits(cfg, Emailed(s, p, false), p, k);
    } else if !reported {
      FailedAttemptFits(cfg, s, p, k);
    }
  }

  lemma WaitingFits(cfg: Config, s: State, p: Payload, k: nat, readyAt: int, l: Label)
    requires Fits(cfg, s) && s.job.Some? && s.job.value.stage == Waiting(p, k, readyAt)
    ensures Fits(cfg, InHandStep(cfg, s, s.job.value.stage, l))
  {
    hide IsPoison, IsDemo, PaymentKey, ReceiptOf, OnCheckProcessed, OnCheckSent, OnAttempt, OnRecord, OnMark;
    AsideFits(cfg, s, InHandStep(cfg, s, s.job.value.stage, l));
  }

  lemma RecordFits(cfg: Config, s: State, p: Payload, outcome: WriteOutcome)
    requires Fits(cfg, s) && s.job.Some? && s.job.value.stage == Recording(p)
    ensures Fits(cfg, OnRecord(s, p, outcome))
  {
    hide IsPoison, IsDemo, PaymentKey, ReceiptOf;
    var t := OnRecord(s, p, outcome);
    AsideFits(cfg, s, t.(processed := s.processed));
    EvidenceLasts(s.log, t.log);
    if cfg.maxAttempts >= 1 {
      assert MailedFor(s.log, p.eventId, PaymentKey(p));
      assert MailedEvent(s.log, p.eventId);
    }
  }

  /** Only the stores know the SENT keys. */
  lemma KeysAside(cfg: Config, u: State, t: State)
    requires LogFits(cfg, u) && SettledFit(cfg, u) && t == u.(sentKeys := t.sentKeys)
    ensures LogFits(cfg, t) && SettledFit(cfg, t)
  {
    hide PaymentKey, ReceiptOf, IsPoison, IsDemo, Accepted, MailedFor, MailedMessage;
  }

  lemma MarkStores(cfg: Config, u: State, t: State, p: Payload)
    requires StoresFit(cfg, u) && t == u.(sentKeys := t.sentKeys)
    requires forall k :: k in t.sentKeys ==> k in u.sentKeys || k == PaymentKey(p)
    requires p.eventId in u.processed && (cfg.maxAttempts >= 1 ==> MailedFor(u.log, p.eventId, PaymentKey(p)))
    ensures StoresFit(cfg, t)
  {
    hide PaymentKey, MailedFor, MailedEvent;
  }

  lemma MarkFits(cfg: Config, s: State, p: Payload, outcome: WriteOutcome)
    requires Fits(cfg, s) && s.job.Some? && s.job.value.stage == Marking(p)
    ensures Fits(cfg, OnMark(cfg, s, p, outcome))
  {
    hide IsPoison, IsDemo, PaymentKey, ReceiptOf, LogFits, StoresFit, SettledFit;
    var t := OnMark(cfg, s, p, outcome);
    var u := t.(sentKeys := s.sentKeys);
    AsideFits(cfg, s, u);
    EvidenceLasts(s.log, t.log);
    KeysAside(cfg, u, t);
    MarkStores(cfg, u, t, p);
    if cfg.maxAttempts >= 1 {
      assert MailedFor(s.log, p.eventId, PaymentKey(p));
      assert MailedMessage(s.log, p);
    }
  }

  lemma InHandFits(cfg: Config, s: State, l: Label)
    requires Fits(cfg, s) && s.job.Some?
    ensures Fits(cfg, InHandStep(cfg, s, s.job.value.stage, l))
  {
    hide Fits, OnCheckProcessed, OnCheckSent, OnAttempt, OnTimer, OnDeadline, OnRecord, OnMark, Failed;
    match s.job.value.stage
    case AskProcessed(p) =>
      if l.CheckProcessed? {
        CheckProcessedFits(cfg, s, p, l.ok);
      }
    case AskSent(p) =>
      if l.CheckSent? {
        CheckSentFits(cfg, s, p, l.ok);
      }
    case Sending(p, k) =>
      if l.Attempt? {
        AttemptFits(cfg, s, p, k, l.accepted, l.reported);
      }
    case Waiting(p, k, readyAt) => WaitingFits(cfg, s, p, k, readyAt, l);
    case Recording(p) =>
      if l.Record? {
        RecordFits(cfg, s, p, l.outcome);
      }
    case Marking(p) =>
      if l.Mark? {
        MarkFits(cfg, s, p, l.outcome);
      }
    case Settling(_) =>
  }

  lemma SettleFits(cfg: Config, s: State, replyLost: bool, at: nat)
    requires Fits(cfg, s) && s.job.Some? && s.job.value.stage.Settling?
    ensures Fits(cfg, OnSettle(s, s.job.value.stage.verdict, replyLost, at))
  {
    hide IsPoison, IsDemo, PaymentKey, ReceiptOf, PutAt;
    var t := OnSettle(s, s.job.value.stage.verdict, replyLost, at);
    AsideFits(cfg, s, t.(acked := s.acked, dead := s.dead));
    EvidenceLasts(s.log, t.log);
  }

  lemma CrashIsAside(s: State, at: nat)
    requires s.job.Some?
    ensures Aside(s, OnCrash(s, at)) && OnCrash(s, at).job.None?
  {
    hide PutAt;
  }

  lemma CrashFits(cfg: Config, s: State, at: nat)
    requires Fits(cfg, s) && s.job.Some?
    ensures Fits(cfg, OnCrash(s, at))
  {
    hide OnCrash, LogFits, StoresFit, SettledFit, Aside;
    CrashIsAside(s, at);
    AsideFits(cfg, s, OnCrash(s, at));
  }

  lemma ArrivalIsAside(cfg: Config, s: State, l: Label)
    requires l.Publish? || l.Tick? || l.Deliver?
    ensures Aside(s, Next(cfg, s, l))
  {
  }

  lemma ArrivalJob(cfg: Config, s: State, l: Label)
    requires JobFits(cfg, s) && (l.Publish? || l.Tick? || l.Deliver?)
    ensures JobFits(cfg, Next(cfg, s, l))
  {
    hide PaymentKey, ReceiptOf, MailedFor, MailedMessage, Accepted;
  }

  lemma ArrivalFits(cfg: Config, s: State, l: Label)
    requires Fits(cfg, s) && (l.Publish? || l.Tick? || l.Deliver?)
    ensures Fits(cfg, Next(cfg, s, l))
  {
    hide Next, JobFits, LogFits, StoresFit, SettledFit, Aside;
    ArrivalIsAside(cfg, s, l);
    ArrivalJob(cfg, s, l);
    AsideFits(cfg, s, Next(cfg, s, l));
  }

  lemma FitsStep(cfg: Config, s: State, l: Label)
    requires Fits(cfg, s)
    ensures Fits(cfg, Next(cfg, s, l))
  {
    hide Fits, OnSettle, OnCrash, OnDeliver, OnPublish, InHandStep;
    match l
    case Publish(b) => ArrivalFits(cfg, s, l);
    case Tick(d) => ArrivalFits(cfg, s, l);
    case Deliver => ArrivalFits(cfg, s, l);
    case Settle(replyLost, at) =>
      if s.job.Some? && s.job.value.stage.Settling? {
        SettleFits(cfg, s, replyLost, at);
      }
    case Crash(at) =>
      if s.job.Some? {
        CrashFits(cfg, s, at);
      }
    case _ =>
      if s.job.Some? {
        InHandFits(cfg, s, l);
      }
  }

  lemma {:induction false} AlwaysFits(cfg: Config, trace: seq<Label>)
    ensures Fits(cfg, Exec(cfg, Initial(), trace))
  {
    hide Next;
    if trace != [] {
      AlwaysFits(cfg, trace[..|trace| - 1]);
      FitsStep(cfg, Exec(cfg, Initial(), trace[..|trace| - 1]), trace[|trace| - 1]);
    }
  }
}
