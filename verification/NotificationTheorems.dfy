/** The promises of the notification service over every run: what an acknowledgement and a dead letter mean, how the two
    stores agree, how the retry loop stays inside its deadline, and why the queue drains. */
module NotificationTheorems {
  import opened Text
  import opened Writes
  import opened Backoff
  import opened Integers
  import opened NotificationProtocol
  import G = NotificationGuarantees
  import L = DeliveryLedger

  // ----- What settling a message means ----------------------------------------------------------

  ghost predicate AckedMeansSent(cfg: Config, trace: seq<Label>) {
    var s := Exec(cfg, Initial(), trace);
    forall tag :: tag in s.acked ==> tag < |s.bodies| && s.bodies[tag].Json? && G.MailedMessage(s.log, s.bodies[tag].payload)
  }

  lemma AcknowledgedWasSent(cfg: Config, trace: seq<Label>)
    requires cfg.maxAttempts >= 1
    ensures AckedMeansSent(cfg, trace)
  {
    hide Exec, G.JobFits, G.LogFits, G.StoresFit;
    G.AlwaysFits(cfg, trace);
  }

  /** A message that passes every check, for any demo order. */
  function Plain(cfg: Config): Payload {
    Payload("e", "e", if cfg.demoOrder == "1" then "2" else "1", 1, "a", "")
  }

  lemma PlainPasses(cfg: Config)
    ensures var p := Plain(cfg); TrimSpace(p.eventId) == "e" && TrimSpace(p.email) == "a" && !IsDemo(cfg, Json(p))
  {
    hide TrimSpace;
    TrimFixes("e");
    TrimFixes("a");
    TrimFixes("1");
    TrimFixes("2");
  }

  /** With no attempts at all the loop is skipped, and a message is recorded and acknowledged unsent. */
  lemma NoAttemptsAcknowledgesUnsent(cfg: Config) returns (trace: seq<Label>)
    requires cfg.maxAttempts == 0
    ensures !AckedMeansSent(cfg, trace)
  {
    hide TrimSpace, IsDemo, PaymentKey, Exec, PutAt;
    var p := Plain(cfg);
    PlainPasses(cfg);
    hide Plain;
    var s := Initial();
    trace := [];
    ExecNothing(cfg);
    trace, s := Extend(cfg, trace, s, Publish(Json(p)));
    trace, s := Extend(cfg, trace, s, Deliver);
    assert s.job.value.stage == AskProcessed(p);
    trace, s := Extend(cfg, trace, s, CheckProcessed(true));
    assert s.job.value.stage == AskSent(p);
    trace, s := Extend(cfg, trace, s, CheckSent(true));
    assert s.job.value.stage == Recording(p);
    trace, s := Extend(cfg, trace, s, Record(Applied));
    trace, s := Extend(cfg, trace, s, Mark(Applied));
    trace, s := Extend(cfg, trace, s, Settle(false, 0));
    assert 0 in s.acked;
  }

  lemma ExecNothing(cfg: Config)
    ensures Exec(cfg, Initial(), []) == Initial()
  {
  }

  lemma Extend(cfg: Config, trace: seq<Label>, s: State, l: Label) returns (trace': seq<Label>, s': State)
    requires s == Exec(cfg, Initial(), trace)
    ensures trace' == trace + [l] && s' == Exec(cfg, Initial(), trace') && s' == Next(cfg, s, l)
  {
    trace', s' := trace + [l], Next(cfg, s, l);
    ExecStep(cfg, Initial(), trace, l);
  }

  /** An acknowledgement always means that a send for the event or for its payment succeeded, exactly when
      the configured number of attempts is positive. */
  lemma AckedMeansSentIffAttempts(cfg: Config)
    ensures cfg.maxAttempts >= 1 <==> forall trace :: AckedMeansSent(cfg, trace)
  {
    if cfg.maxAttempts >= 1 {
      forall trace ensures AckedMeansSent(cfg, trace) {
        AcknowledgedWasSent(cfg, trace);
      }
    } else {
      var trace := NoAttemptsAcknowledgesUnsent(cfg);
    }
  }

  /** Only poison and the demo order are dead-lettered; an accepted message never is. */
  lemma DeadLettersAreDeserved(cfg: Config, trace: seq<Label>, tag: nat)
    ensures var s := Exec(cfg, Initial(), trace);
      tag in s.dead ==> tag < |s.bodies| && (IsPoison(s.bodies[tag]) || IsDemo(cfg, s.bodies[tag]))
  {
    hide Exec, G.JobFits, G.LogFits, G.StoresFit;
    G.AlwaysFits(cfg, trace);
  }

  // ----- Agreement of the two stores ------------------------------------------------------------

  /** A message as the payment service builds it: the event id is the payment id, in canonical form. */
  predicate WellBuilt(b: Body) {
    b.Json? && b.payload.paymentId == b.payload.eventId && TrimSpace(b.payload.eventId) == b.payload.eventId
  }

  predicate AllWellBuilt(s: State) {
    forall i :: 0 <= i < |s.bodies| ==> WellBuilt(s.bodies[i])
  }

  /** Key k belongs to message i, whose event is recorded. */
  predicate KeyOf(s: State, i: int, k: string) {
    0 <= i < |s.bodies| && s.bodies[i].Json? && PaymentKey(s.bodies[i].payload) == k && s.bodies[i].payload.eventId in s.processed
  }

  ghost predicate KeysRecorded(s: State) {
    forall k :: k in s.sentKeys ==> exists i :: KeyOf(s, i, k)
  }

  lemma KeysLast(s: State, t: State)
    requires KeysRecorded(s) && s.bodies <= t.bodies && s.processed <= t.processed
    requires forall k :: k in t.sentKeys ==> k in s.sentKeys || exists i :: KeyOf(t, i, k)
    ensures KeysRecorded(t)
  {
    hide PaymentKey;
    forall k | k in t.sentKeys ensures exists i :: KeyOf(t, i, k) {
      if k in s.sentKeys {
        var i :| KeyOf(s, i, k);
        assert KeyOf(t, i, k);
      }
    }
  }

  lemma InHandKeys(cfg: Config, s: State, l: Label)
    requires G.Fits(cfg, s) && s.job.Some?
    ensures var t := InHandStep(cfg, s, s.job.value.stage, l);
      s.processed <= t.processed && s.bodies == t.bodies &&
      forall k :: k in t.sentKeys ==> k in s.sentKeys || KeyOf(t, s.job.value.tag, k)
  {
    hide G.StoresFit, G.LogFits, G.SettledFit, TrimSpace, PaymentKey, TimerReady, ReceiptOf, IsDemo, IsPoison, G.MailedFor, G.MailedMessage, G.Accepted;
  }

  lemma KeysRecordedStep(cfg: Config, s: State, l: Label)
    requires G.Fits(cfg, s) && KeysRecorded(s)
    ensures KeysRecorded(Next(cfg, s, l))
  {
    hide InHandStep, G.Fits, PutAt, PaymentKey, KeysRecorded, IsPoison, IsDemo;
    var t := Next(cfg, s, l);
    if s.job.Some? && !(l.Publish? || l.Tick? || l.Deliver? || l.Settle? || l.Crash?) {
      InHandKeys(cfg, s, l);
    }
    KeysLast(s, t);
  }

  lemma {:induction false} AlwaysKeysRecorded(cfg: Config, trace: seq<Label>)
    ensures KeysRecorded(Exec(cfg, Initial(), trace))
  {
    hide Next, G.Fits;
    if trace != [] {
      AlwaysKeysRecorded(cfg, trace[..|trace| - 1]);
      G.AlwaysFits(cfg, trace[..|trace| - 1]);
      hide KeysRecorded;
      KeysRecordedStep(cfg, Exec(cfg, Initial(), trace[..|trace| - 1]), trace[|trace| - 1]);
    }
  }

  /** In every run, every key ever marked SENT, live or expired, is the payment key of a message whose event is in processed_events. */
  lemma MarkedIsRecorded(cfg: Config, trace: seq<Label>, k: string)
    ensures var s := Exec(cfg, Initial(), trace);
      k in s.sentKeys ==>
        exists i :: 0 <= i < |s.bodies| && s.bodies[i].Json? && PaymentKey(s.bodies[i].payload) == k && s.bodies[i].payload.eventId in s.processed
  {
    hide Exec, PaymentKey;
    AlwaysKeysRecorded(cfg, trace);
    var s := Exec(cfg, Initial(), trace);
    if k in s.sentKeys {
      var i :| KeyOf(s, i, k);
    }
  }

  /** For well-built messages the key is the event itself. */
  lemma MarkedIsProcessed(s: State)
    requires KeysRecorded(s) && AllWellBuilt(s)
    ensures forall k :: k in s.sentKeys ==> k in s.processed
  {
    hide TrimSpace;
    forall k | k in s.sentKeys ensures k in s.processed {
      var i :| KeyOf(s, i, k);
      assert WellBuilt(s.bodies[i]);
    }
  }

  /** What is settled as done is in processed_events. */
  predicate DoneIsProcessed(s: State) {
    (forall t :: t in s.acked ==> t < |s.bodies| && s.bodies[t].Json? && s.bodies[t].payload.eventId in s.processed) &&
    (s.job.Some? && s.job.value.stage == Settling(Done) ==>
       s.job.value.tag < |s.bodies| && s.bodies[s.job.value.tag].Json? &&
       s.bodies[s.job.value.tag].payload.eventId in s.processed)
  }

  lemma RedisNeverHits(cfg: Config, s: State)
    requires G.Fits(cfg, s) && KeysRecorded(s) && AllWellBuilt(s)
    ensures s.job.Some? && s.job.value.stage.AskSent? ==> PaymentKey(s.job.value.stage.p) !in s.sentKeys
  {
    hide G.StoresFit, G.LogFits, G.SettledFit, TrimSpace;
    MarkedIsProcessed(s);
    if s.job.Some? && s.job.value.stage.AskSent? {
      assert WellBuilt(s.bodies[s.job.value.tag]);
    }
  }

  lemma InHandDone(cfg: Config, s: State, l: Label)
    requires G.Fits(cfg, s) && KeysRecorded(s) && AllWellBuilt(s) && DoneIsProcessed(s) && s.job.Some?
    ensures DoneIsProcessed(InHandStep(cfg, s, s.job.value.stage, l))
  {
    hide G.StoresFit, G.LogFits, G.SettledFit, TrimSpace, PaymentKey, TimerReady, ReceiptOf, IsDemo, IsPoison;
    RedisNeverHits(cfg, s);
  }

  lemma DoneStep(cfg: Config, s: State, l: Label)
    requires G.Fits(cfg, s) && KeysRecorded(s) && AllWellBuilt(s) && DoneIsProcessed(s)
    ensures DoneIsProcessed(Next(cfg, s, l))
  {
    hide InHandStep, G.Fits, PutAt, TrimSpace;
    if s.job.Some? && !(l.Publish? || l.Tick? || l.Deliver? || l.Settle? || l.Crash?) {
      InHandDone(cfg, s, l);
    }
  }

  lemma {:induction false} AlwaysDone(cfg: Config, trace: seq<Label>)
    requires AllWellBuilt(Exec(cfg, Initial(), trace))
    ensures DoneIsProcessed(Exec(cfg, Initial(), trace))
  {
    hide Next, G.Fits, WellBuilt;
    if trace != [] {
      var before, l := trace[..|trace| - 1], trace[|trace| - 1];
      var s := Exec(cfg, Initial(), before);
      BodiesOnlyGrow(cfg, s, l);
      assert AllWellBuilt(s) by {
        forall i | 0 <= i < |s.bodies| ensures WellBuilt(s.bodies[i]) {
          assert s.bodies[i] == Next(cfg, s, l).bodies[i];
        }
      }
      AlwaysDone(cfg, before);
      G.AlwaysFits(cfg, before);
      AlwaysKeysRecorded(cfg, before);
      DoneStep(cfg, s, l);
    }
  }

  lemma BodiesOnlyGrow(cfg: Config, s: State, l: Label)
    ensures s.bodies <= Next(cfg, s, l).bodies
  {
    hide InHandStep, OnSettle, OnCrash, OnDeliver;
  }

  /** For messages the payment service builds: a SENT key implies a processed event, a delivery that gets as far as asking
      Redis never finds its key, and every acknowledged event is permanently recorded. */
  lemma StoresAgree(cfg: Config, trace: seq<Label>)
    requires AllWellBuilt(Exec(cfg, Initial(), trace))
    ensures var s := Exec(cfg, Initial(), trace);
      (forall k :: k in s.sentKeys ==> k in s.processed) &&
      (s.job.Some? && s.job.value.stage.AskSent? ==> !IsLive(s, PaymentKey(s.job.value.stage.p))) &&
      (forall t :: t in s.acked ==> t < |s.bodies| && s.bodies[t].Json? && s.bodies[t].payload.eventId in s.processed)
  {
    hide Exec, G.Fits, WellBuilt;
    G.AlwaysFits(cfg, trace);
    AlwaysKeysRecorded(cfg, trace);
    MarkedIsProcessed(Exec(cfg, Initial(), trace));
    RedisNeverHits(cfg, Exec(cfg, Initial(), trace));
    AlwaysDone(cfg, trace);
  }

  // ----- The retry loop under its deadline ------------------------------------------------------

  function StartedAt(s: State): int
    requires s.job.Some?
  {
    s.job.value.deadline - TIMEOUT
  }

  /** base * (2^k - 1): the time the loop has spent waiting before attempt k. */
  function Waited(cfg: Config, attempt: nat): int {
    cfg.base * (Pow2(attempt) - 1)
  }

  predicate Timed(cfg: Config, s: State) {
    s.job.Some? ==>
      StartedAt(s) <= s.now &&
      match s.job.value.stage
      case Sending(_, k) => Waited(cfg, k) <= TIMEOUT && StartedAt(s) + Waited(cfg, k) <= s.now
      case Waiting(_, k, readyAt) =>
        k >= 1 && Waited(cfg, k - 1) <= TIMEOUT && StartedAt(s) + Waited(cfg, k) <= readyAt
      case _ => true
  }

  lemma FailedAttemptTimed(cfg: Config, s: State, p: Payload, k: nat)
    requires 0 < cfg.base <= MAX_INT64
    requires s.job.Some? && s.job.value.stage == Sending(p, k) && Timed(cfg, s)
    ensures Timed(cfg, AfterFailedAttempt(cfg, s, p, k))
  {
    hide Pow2, Delay;
    NextDelayFits(cfg.base, k);
  }

  lemma InHandTimed(cfg: Config, s: State, l: Label)
    requires 0 < cfg.base <= MAX_INT64
    requires s.job.Some? && Timed(cfg, s)
    ensures Timed(cfg, InHandStep(cfg, s, s.job.value.stage, l))
  {
    hide Waited, AfterFailedAttempt, TrimSpace, PaymentKey, ReceiptOf, IsDemo;
    assert Waited(cfg, 0) == 0 by { assert Pow2(0) == 1; WaitedNothing(cfg); }
    if s.job.value.stage.Sending? && l.Attempt? && !l.reported {
      var p, k := s.job.value.stage.p, s.job.value.stage.attempt;
      FailedAttemptTimed(cfg, s, p, k);
      FailedAttemptTimed(cfg, Emailed(s, p, false), p, k);
    }
  }

  lemma WaitedNothing(cfg: Config)
    ensures Waited(cfg, 0) == 0
  {
  }

  lemma TimedStep(cfg: Config, s: State, l: Label)
    requires 0 < cfg.base <= MAX_INT64 && Timed(cfg, s)
    ensures Timed(cfg, Next(cfg, s, l))
  {
    hide InHandStep, Waited, TrimSpace, PutAt;
    if s.job.Some? && !(l.Publish? || l.Tick? || l.Deliver? || l.Settle? || l.Crash?) {
      InHandTimed(cfg, s, l);
    }
  }

  lemma {:induction false} AlwaysTimed(cfg: Config, trace: seq<Label>)
    requires 0 < cfg.base <= MAX_INT64
    ensures Timed(cfg, Exec(cfg, Initial(), trace))
  {
    hide Next;
    if trace != [] {
      AlwaysTimed(cfg, trace[..|trace| - 1]);
      TimedStep(cfg, Exec(cfg, Initial(), trace[..|trace| - 1]), trace[|trace| - 1]);
    }
  }

  lemma TotalIsWaited(cfg: Config, k: nat)
    requires 0 < cfg.base && Waited(cfg, k) <= TIMEOUT
    ensures TotalDelay(cfg.base, k) == Waited(cfg, k)
  {
    if k >= 1 {
      var half := Pow2(k - 1);
      assert cfg.base * half <= cfg.base * (Pow2(k) - 1) by { Scale(cfg.base, half, Pow2(k) - 1); }
    }
    TotalDelayClosedForm(cfg.base, k);
  }

  /** Before attempt k the loop has waited base * (2^k - 1) and no longer than the deadline allows; the delay it would compute
      next is base * 2^k and never overflows an int64; and with a base of at least a millisecond a delivery
      makes at most 17 attempts (numbers 0 to 16), whatever the configured maximum. */
  lemma RetriesFitTheDeadline(cfg: Config, trace: seq<Label>)
    requires 0 < cfg.base <= 0x7FFF_FFFF_FFFF_FFFF
    ensures var s := Exec(cfg, Initial(), trace);
      s.job.Some? && s.job.value.stage.Sending? ==>
        var k, start := s.job.value.stage.attempt, s.job.value.deadline - 120_000_000_000;
        TotalDelay(cfg.base, k) == cfg.base * (Pow2(k) - 1) <= s.now - start && cfg.base * (Pow2(k) - 1) <= 120_000_000_000 &&
        Delay(cfg.base, k + 1) == cfg.base * Pow2(k) <= 0x7FFF_FFFF_FFFF_FFFF &&
        (cfg.base >= 1_000_000 ==> k <= 16)
  {
    hide Exec, Delay, TotalDelay;
    AlwaysTimed(cfg, trace);
    var s := Exec(cfg, Initial(), trace);
    if s.job.Some? && s.job.value.stage.Sending? {
      var k := s.job.value.stage.attempt;
      TotalIsWaited(cfg, k);
      NextDelayFits(cfg.base, k);
      Distribute(cfg.base, Pow2(k));
      if cfg.base >= MILLISECOND {
        AttemptsFitDeadline(cfg.base, k);
      }
    }
  }

  // ----- Draining -------------------------------------------------------------------------------

  function Messages(s: State): nat {
    |s.queue| + if s.job.Some? then 1 else 0
  }

  function FaultsSoFar(s: State): nat {
    L.Count(s.log, L.Faults)
  }

  /** How far the delivery in hand is from leaving its message settled; stages that follow a fault come first. */
  function Rank(s: State): nat {
    if s.job.None? then 11
    else match s.job.value.stage
      case Waiting(_, _, _) => 14
      case Sending(_, k) => if k >= 1 then 13 else 8
      case Settling(v) => if v.Transient? || v.Interrupted? then 12 else 5
      case AskProcessed(_) => 10
      case AskSent(_) => 9
      case Recording(_) => 7
      case Marking(_) => 6
  }

  /** Lexicographically below: a fault more, or as many faults and fewer messages, or both equal and a lower rank. */
  predicate Below(t: State, s: State) {
    FaultsSoFar(t) > FaultsSoFar(s) ||
    (FaultsSoFar(t) == FaultsSoFar(s) && (Messages(t) < Messages(s) || (Messages(t) == Messages(s) && Rank(t) < Rank(s))))
  }

  lemma OneFaultMore(s: State, t: State)
    requires t.log == s.log + [Fault] || t.log == s.log + [Fault] + [Requeued] ||
             exists x :: t.log == s.log + [x] + [Fault] || t.log == s.log + [x] + [Fault] + [Requeued]
    ensures FaultsSoFar(t) > FaultsSoFar(s)
  {
    if t.log == s.log + [Fault] {
      L.CountOneMore(s.log, Fault, L.Faults);
    } else if t.log == s.log + [Fault] + [Requeued] {
      L.CountOneMore(s.log, Fault, L.Faults);
      L.CountOneMore(s.log + [Fault], Requeued, L.Faults);
    } else {
      var x :| t.log == s.log + [x] + [Fault] || t.log == s.log + [x] + [Fault] + [Requeued];
      L.CountOneMore(s.log, x, L.Faults);
      L.CountOneMore(s.log + [x], Fault, L.Faults);
      L.CountOneMore(s.log + [x] + [Fault], Requeued, L.Faults);
    }
  }

  lemma NoFaultMore(s: State, t: State)
    requires t.log == s.log || exists x: Entry :: !x.Fault? && t.log == s.log + [x]
    ensures FaultsSoFar(t) == FaultsSoFar(s)
  {
    if t.log != s.log {
      var x: Entry :| !x.Fault? && t.log == s.log + [x];
      L.CountOneMore(s.log, x, L.Faults);
    }
  }

  lemma InHandDescends(cfg: Config, s: State, l: Label)
    requires s.job.Some?
    ensures var t := InHandStep(cfg, s, s.job.value.stage, l); t == s || Below(t, s)
  {
    hide FaultsSoFar, TrimSpace, PaymentKey, ReceiptOf, IsDemo, IsLive, TimerReady, Grows;
    var t := InHandStep(cfg, s, s.job.value.stage, l);
    if t != s {
      if |t.log| > |s.log| && t.log[|t.log| - 1].Fault? {
        if |t.log| == |s.log| + 2 {
          assert t.log == s.log + [t.log[|s.log|]] + [Fault];
        }
        OneFaultMore(s, t);
      } else {
        if |t.log| > |s.log| {
          assert t.log == s.log + [t.log[|s.log|]];
        }
        NoFaultMore(s, t);
      }
    }
  }

  lemma SettleDescends(s: State, replyLost: bool, at: nat)
    requires s.job.Some? && s.job.value.stage.Settling?
    ensures Below(OnSettle(s, s.job.value.stage.verdict, replyLost, at), s)
  {
    hide FaultsSoFar, PutAt;
    var t := OnSettle(s, s.job.value.stage.verdict, replyLost, at);
    G.PutAtKeeps(s.queue, at, s.job.value.tag);
    if replyLost {
      OneFaultMore(s, t);
    } else {
      NoFaultMore(s, t);
    }
  }

  lemma CrashDescends(s: State, at: nat)
    requires s.job.Some?
    ensures Below(OnCrash(s, at), s)
  {
    hide FaultsSoFar, PutAt;
    var t := OnCrash(s, at);
    if s.job.value.stage.Recording? {
      assert t.log == s.log + [Unrecorded(s.job.value.stage.p.eventId)] + [Fault] + [Requeued];
    }
    OneFaultMore(s, t);
  }

  lemma DeliverDescends(s: State)
    ensures OnDeliver(s) == s || Below(OnDeliver(s), s)
  {
    hide FaultsSoFar, TrimSpace;
    if OnDeliver(s) != s {
      NoFaultMore(s, OnDeliver(s));
    }
  }

  /** Apart from new messages and the clock, every step that changes anything lowers
      (faults left, messages left, rank): with finitely many faults every run comes to rest. */
  lemma EveryStepDescends(cfg: Config, s: State, l: Label)
    requires !l.Publish? && !l.Tick?
    ensures Next(cfg, s, l) == s || Below(Next(cfg, s, l), s)
  {
    hide OnSettle, OnCrash, OnDeliver, InHandStep, Below;
    match l
    case Settle(replyLost, at) =>
      if s.job.Some? && s.job.value.stage.Settling? {
        SettleDescends(s, replyLost, at);
      }
    case Crash(at) =>
      if s.job.Some? {
        CrashDescends(s, at);
      }
    case Deliver => DeliverDescends(s);
    case _ =>
      if s.job.Some? {
        InHandDescends(cfg, s, l);
      }
  }

  /** The labels of a run in which nothing goes wrong. */
  function HealthyLabel(s: State): Label {
    if s.job.None? then Deliver
    else match s.job.value.stage
      case AskProcessed(_) => CheckProcessed(true)
      case AskSent(_) => CheckSent(true)
      case Sending(_, _) => Attempt(true, true)
      case Waiting(_, _, readyAt) => if readyAt <= s.job.value.deadline then TimerFires else DeadlineFires
      case Recording(_) => Record(Applied)
      case Marking(_) => Mark(Applied)
      case Settling(_) => Settle(false, 0)
  }

  predicate TagsKnown(s: State) {
    forall i :: 0 <= i < |s.queue| ==> s.queue[i] < |s.bodies|
  }

  function PauseFor(s: State): nat {
    if s.job.Some? && s.job.value.stage.Waiting? then
      var till := if s.job.value.stage.readyAt <= s.job.value.deadline then s.job.value.stage.readyAt else s.job.value.deadline;
      if till > s.now then till - s.now else 0
    else 0
  }

  predicate RecordingFresh(s: State) {
    s.job.Some? && s.job.value.stage.Recording? ==> s.job.value.stage.p.eventId !in s.processed
  }

  /** While a message is left, some fault-free step is possible once enough time has passed, and it lowers the measure. */
  lemma CanAlwaysMove(cfg: Config, s: State)
    requires Messages(s) > 0 && TagsKnown(s) && RecordingFresh(s)
    ensures var t := Next(cfg, Next(cfg, s, Tick(PauseFor(s))), HealthyLabel(s));
      Below(t, s) && FaultsSoFar(t) == FaultsSoFar(s)
  {
    hide FaultsSoFar, TrimSpace, PaymentKey, ReceiptOf, IsDemo, IsLive, PutAt;
    var u := Next(cfg, s, Tick(PauseFor(s)));
    var t := Next(cfg, u, HealthyLabel(s));
    if s.job.Some? && s.job.value.stage.Settling? {
      G.PutAtKeeps(s.queue, 0, s.job.value.tag);
    }
    NoFaultMore(s, u);
    NoFaultMore(u, t);
  }

  /** From every reachable state the queue can be emptied without a fault: each message ends acknowledged or dead-lettered. */
  lemma {:induction false} DrainsWhenHealthy(cfg: Config, before: seq<Label>) returns (trace: seq<Label>)
    ensures var s, t := Exec(cfg, Initial(), before), Exec(cfg, Initial(), before + trace);
      t.queue == [] && t.job == None && t.bodies == s.bodies && FaultsSoFar(t) == FaultsSoFar(s) &&
      |t.acked| + |t.dead| == |t.bodies|
    decreases Messages(Exec(cfg, Initial(), before)), Rank(Exec(cfg, Initial(), before))
  {
    hide Next, FaultsSoFar, G.Fits;
    var s := Exec(cfg, Initial(), before);
    G.AlwaysFits(cfg, before);
    G.AlwaysConserved(cfg, before);
    if Messages(s) == 0 {
      assert before + [] == before;
      G.TagsCount(|s.bodies|, 0);
      assert |G.Places(s)| == |s.queue| + |G.InFlight(s)| + |s.acked| + |s.dead|;
      trace := [];
    } else {
      QueueIsKnown(cfg, s);
      var pause, l := Tick(PauseFor(s)), HealthyLabel(s);
      CanAlwaysMove(cfg, s);
      HealthyKeepsBodies(cfg, s);
      ExecStep(cfg, Initial(), before, pause);
      ExecStep(cfg, Initial(), before + [pause], l);
      var rest := DrainsWhenHealthy(cfg, before + [pause] + [l]);
      trace := [pause] + [l] + rest;
      assert before + trace == before + [pause] + [l] + rest;
    }
  }

  lemma HealthyKeepsBodies(cfg: Config, s: State)
    ensures Next(cfg, Next(cfg, s, Tick(PauseFor(s))), HealthyLabel(s)).bodies == s.bodies
  {
    hide InHandStep, PauseFor, OnDeliver, OnSettle;
    var u := Next(cfg, s, Tick(PauseFor(s)));
    G.DeliverKeeps(u);
  }

  lemma QueueIsKnown(cfg: Config, s: State)
    requires G.Fits(cfg, s) && G.Conserved(s)
    ensures TagsKnown(s) && RecordingFresh(s)
  {
    hide G.LogFits, G.StoresFit, G.SettledFit, TrimSpace;
    forall i | 0 <= i < |s.queue| ensures s.queue[i] < |s.bodies| {
      G.TagsCount(|s.bodies|, s.queue[i]);
      assert s.queue[i] in multiset(s.queue);
      assert G.Places(s)[s.queue[i]] >= multiset(s.queue)[s.queue[i]];
    }
  }
}
