/** The clock of the retry loop over every run: when a wait starts, how long it lasts, what a delivery has spent by then, and which of the timer and
    the two-minute deadline can end the wait. */
module RetryTiming {
  import opened Text
  import opened Writes
  import opened Backoff
  import opened Integers
  import opened NotificationProtocol
  import NT = NotificationTheorems

  // ----- Where a wait comes from ----------------------------------------------------------------

  /** Label n is the failed attempt that started this wait, base * 2^(k-1) before the wait is over, and the delivery has waited ever since. */
  predicate WaitStarts(cfg: Config, trace: seq<Label>, n: int, p: Payload, k: nat, readyAt: int) {
    0 <= n < |trace| && k >= 1 && trace[n].Attempt? && !trace[n].reported &&
    var s, t := Exec(cfg, Initial(), trace[..n]), Exec(cfg, Initial(), trace);
    s.job.Some? && t.job.Some? && s.job.value.stage == Sending(p, k - 1) && t.job.value == s.job.value.(stage := Waiting(p, k, readyAt)) &&
    readyAt == s.now + cfg.base * Pow2(k - 1) &&
    forall m :: n < m <= |trace| ==> Exec(cfg, Initial(), trace[..m]).job == t.job
  }

  /** Label n handed the message over, two minutes before the delivery's deadline. */
  predicate DeliveryStarts(cfg: Config, trace: seq<Label>, n: int) {
    0 <= n < |trace| && trace[n].Deliver? &&
    var s, t := Exec(cfg, Initial(), trace[..n]), Exec(cfg, Initial(), trace);
    s.job.None? && s.queue != [] && t.job.Some? && t.job.value.tag == s.queue[0] && t.job.value.deadline == s.now + 120_000_000_000
  }

  /** The label that makes a delivery wait is a failed attempt, and the delay is the product of the base and the power of two. */
  lemma WaitStep(cfg: Config, s: State, l: Label, p: Payload, k: nat, readyAt: int)
    requires 0 < cfg.base <= MAX_INT64 && NT.Timed(cfg, s)
    requires s.job.Some?
    requires var t := InHandStep(cfg, s, s.job.value.stage, l); t.job.Some? && t.job.value.stage == Waiting(p, k, readyAt)
    ensures var t := InHandStep(cfg, s, s.job.value.stage, l);
      t.job == s.job ||
      (l.Attempt? && !l.reported && k >= 1 && s.job.value.stage == Sending(p, k - 1) &&
       t.job.value == s.job.value.(stage := Waiting(p, k, readyAt)) && readyAt == s.now + cfg.base * Pow2(k - 1))
  {
    hide TrimSpace, PaymentKey, ReceiptOf, IsDemo, Delay, Pow2;
    if s.job.value.stage.Sending? && l.Attempt? && !l.reported {
      NextDelay(cfg, s, s.job.value.stage.attempt);
    }
  }

  lemma NextDelay(cfg: Config, s: State, k: nat)
    requires 0 < cfg.base <= MAX_INT64 && NT.Timed(cfg, s)
    requires s.job.Some? && s.job.value.stage.Sending? && s.job.value.stage.attempt == k
    ensures TimerReady(cfg, s.now, k + 1) == s.now + cfg.base * Pow2(k)
  {
    hide Pow2, Delay;
    NextDelayFits(cfg.base, k);
    Distribute(cfg.base, Pow2(k));
  }

  /** Delivering is the only other way to have a delivery in hand. */
  lemma JobStep(cfg: Config, s: State, l: Label)
    ensures var t := Next(cfg, s, l);
      t.job == s.job || t.job.None? ||
      (s.job.None? && l.Deliver? && s.queue != [] && s.queue[0] < |s.bodies| &&
       t.job == Some(Job(s.queue[0], FirstStage(s.bodies[s.queue[0]]), s.now + 120_000_000_000))) ||
      (s.job.Some? && t == InHandStep(cfg, s, s.job.value.stage, l) && t.job.value.tag == s.job.value.tag &&
       t.job.value.deadline == s.job.value.deadline)
  {
    hide InHandStep, TrimSpace, PutAt, FirstStage;
  }

  lemma {:induction false} EveryWaitStarts(cfg: Config, trace: seq<Label>, p: Payload, k: nat, readyAt: int) returns (n: int)
    requires 0 < cfg.base <= MAX_INT64
    requires var s := Exec(cfg, Initial(), trace); s.job.Some? && s.job.value.stage == Waiting(p, k, readyAt)
    ensures WaitStarts(cfg, trace, n, p, k, readyAt)
    decreases |trace|
  {
    hide Next, InHandStep, FirstStage, Pow2, NT.Timed;
    var before, l := trace[..|trace| - 1], trace[|trace| - 1];
    var s := Exec(cfg, Initial(), before);
    JobStep(cfg, s, l);
    FirstIsNoWait(s);
    if Exec(cfg, Initial(), trace).job == s.job {
      n := EveryWaitStarts(cfg, before, p, k, readyAt);
      assert trace[..n] == before[..n];
      forall m | n < m <= |trace| ensures Exec(cfg, Initial(), trace[..m]).job == s.job {
        assert m < |trace| ==> trace[..m] == before[..m];
        assert m == |trace| ==> trace[..m] == trace;
      }
    } else {
      NT.AlwaysTimed(cfg, before);
      WaitStep(cfg, s, l, p, k, readyAt);
      n := |trace| - 1;
      assert trace[..|trace|] == trace;
    }
  }

  lemma FirstIsNoWait(s: State)
    ensures forall b :: !FirstStage(b).Waiting?
  {
    hide TrimSpace;
  }

  lemma {:induction false} EveryDeliveryStarts(cfg: Config, trace: seq<Label>) returns (n: int)
    requires Exec(cfg, Initial(), trace).job.Some?
    ensures DeliveryStarts(cfg, trace, n)
    decreases |trace|
  {
    hide Next, InHandStep, FirstStage;
    var before, l := trace[..|trace| - 1], trace[|trace| - 1];
    var s := Exec(cfg, Initial(), before);
    JobStep(cfg, s, l);
    if s.job.Some? {
      n := EveryDeliveryStarts(cfg, before);
      assert trace[..n] == before[..n];
    } else {
      n := |trace| - 1;
    }
  }

  // ----- What a delivery spends -----------------------------------------------------------------

  /** The time that the delivery in hand has spent outside its waits, with what its timers were late. */
  function Spent(cfg: Config, trace: seq<Label>): int {
    if trace == [] then 0
    else
      var before, l := trace[..|trace| - 1], trace[|trace| - 1];
      var s := Exec(cfg, Initial(), before);
      if s.job.None? then 0
      else if l.Tick? && !s.job.value.stage.Waiting? then Spent(cfg, before) + l.elapsed
      else if l.TimerFires? && s.job.value.stage.Waiting? && s.job.value.stage.readyAt <= s.now &&
              s.job.value.stage.readyAt <= s.job.value.deadline then
        Spent(cfg, before) + s.now - s.job.value.stage.readyAt
      else Spent(cfg, before)
  }

  /** When the delivery is before attempt k it has spent this long, and waited base * (2^k - 1). */
  predicate Accounts(cfg: Config, s: State, spent: int) {
    s.job.Some? ==>
      var start := s.job.value.deadline - 120_000_000_000;
      match s.job.value.stage
      case AskProcessed(_) => s.now == start + spent
      case AskSent(_) => s.now == start + spent
      case Sending(_, k) => s.now == start + spent + cfg.base * (Pow2(k) - 1)
      case Waiting(_, k, readyAt) => readyAt == start + spent + cfg.base * (Pow2(k) - 1)
      case _ => true
  }

  lemma Doubles(base: int, k: nat)
    requires k >= 1
    ensures base * (Pow2(k - 1) - 1) + base * Pow2(k - 1) == base * (Pow2(k) - 1)
  {
    Distribute(base, Pow2(k - 1));
  }

  lemma FirstAttempt(cfg: Config)
    ensures cfg.base * (Pow2(0) - 1) == 0
  {
  }

  /** A step other than the clock's and the timer's takes no time of the delivery; a wait is the next power of two. */
  lemma StepAccounts(cfg: Config, s: State, l: Label, spent: int)
    requires 0 < cfg.base <= MAX_INT64 && NT.Timed(cfg, s)
    requires s.job.Some? && !l.TimerFires? && Accounts(cfg, s, spent)
    ensures Accounts(cfg, InHandStep(cfg, s, s.job.value.stage, l), spent)
  {
    hide TrimSpace, PaymentKey, ReceiptOf, IsDemo, IsLive, Delay, NT.Timed, AfterFailedAttempt, Pow2;
    FirstAttempt(cfg);
    var t := InHandStep(cfg, s, s.job.value.stage, l);
    if s.job.value.stage.Sending? {
      if l.Attempt? && !l.reported {
        FailureAccounts(cfg, s, s.job.value.stage.p, s.job.value.stage.attempt, spent);
        EmailedTimed(cfg, s, s.job.value.stage.p);
        FailureAccounts(cfg, Emailed(s, s.job.value.stage.p, false), s.job.value.stage.p, s.job.value.stage.attempt, spent);
      }
    }
  }

  lemma EmailedTimed(cfg: Config, s: State, p: Payload)
    requires s.job.Some? && NT.Timed(cfg, s)
    ensures NT.Timed(cfg, Emailed(s, p, false))
  {
    hide Pow2, ReceiptOf;
  }

  lemma FailureAccounts(cfg: Config, s: State, p: Payload, k: nat, spent: int)
    requires 0 < cfg.base <= MAX_INT64 && NT.Timed(cfg, s)
    requires s.job.Some? && s.job.value.stage == Sending(p, k) && Accounts(cfg, s, spent)
    ensures Accounts(cfg, AfterFailedAttempt(cfg, s, p, k), spent)
  {
    hide Delay, Pow2, NT.Timed, TimerReady;
    NextDelay(cfg, s, k);
    Doubles(cfg.base, k + 1);
  }

  lemma TimerAccounts(cfg: Config, s: State, spent: int)
    requires s.job.Some? && s.job.value.stage.Waiting? && Accounts(cfg, s, spent)
    ensures var st := s.job.value.stage;
      var fires := st.readyAt <= s.now && st.readyAt <= s.job.value.deadline;
      Accounts(cfg, OnTimer(s, st.p, st.attempt, st.readyAt), if fires then spent + s.now - st.readyAt else spent)
  {
    hide Pow2;
  }

  lemma DeliverAccounts(cfg: Config, s: State)
    requires s.job.None?
    ensures Accounts(cfg, OnDeliver(s), 0)
  {
    hide TrimSpace, Pow2;
  }

  lemma {:induction false} AlwaysAccounts(cfg: Config, trace: seq<Label>)
    requires 0 < cfg.base <= MAX_INT64
    ensures Accounts(cfg, Exec(cfg, Initial(), trace), Spent(cfg, trace))
  {
    hide InHandStep, OnDeliver, OnSettle, OnCrash, OnTimer, NT.Timed, Pow2;
    if trace != [] {
      var before, l := trace[..|trace| - 1], trace[|trace| - 1];
      var s := Exec(cfg, Initial(), before);
      AlwaysAccounts(cfg, before);
      NT.AlwaysTimed(cfg, before);
      if s.job.None? {
        DeliverAccounts(cfg, s);
      } else {
        InHandAccounts(cfg, s, l, Spent(cfg, before));
        SettledAccounts(cfg, s, l, Spent(cfg, before));
      }
    }
  }

  lemma InHandAccounts(cfg: Config, s: State, l: Label, spent: int)
    requires 0 < cfg.base <= MAX_INT64 && NT.Timed(cfg, s) && s.job.Some? && Accounts(cfg, s, spent)
    ensures !l.TimerFires? ==> Accounts(cfg, InHandStep(cfg, s, s.job.value.stage, l), spent)
    ensures l.TimerFires? ==>
      var st := s.job.value.stage;
      Accounts(cfg, InHandStep(cfg, s, st, l),
               if st.Waiting? && st.readyAt <= s.now && st.readyAt <= s.job.value.deadline then spent + s.now - st.readyAt else spent)
  {
    hide NT.Timed, Pow2, OnTimer, Accounts;
    if !l.TimerFires? {
      StepAccounts(cfg, s, l, spent);
    } else if s.job.value.stage.Waiting? {
      TimerAccounts(cfg, s, spent);
    }
  }

  lemma SettledAccounts(cfg: Config, s: State, l: Label, spent: int)
    requires s.job.Some?
    ensures l.Settle? && s.job.value.stage.Settling? ==> Next(cfg, s, l).job.None?
    ensures l.Crash? ==> Next(cfg, s, l).job.None?
    ensures l.Deliver? || l.Publish? ==> Next(cfg, s, l).job == s.job && Next(cfg, s, l).now == s.now
  {
    hide PutAt;
  }

  // ----- The theorem ----------------------------------------------------------------------------

  /** Some time later this label leads the delivery to this stage. */
  ghost predicate CanEnd(cfg: Config, s: State, l: Label, stage: Stage) {
    exists d: nat :: var t := Next(cfg, Next(cfg, s, Tick(d)), l); t.job.Some? && t.job.value.stage == stage
  }

  /** In every run, a delivery waiting for attempt k has started two minutes before its deadline and its wait with a failed attempt, base * 2^(k-1)
      before the timer is ready. The wait ends by the timer, with attempt k, exactly if what the delivery spent outside its waits and
      base * (2^k - 1) together are at most the two minutes, and the deadline can end it exactly if they are at least that. */
  lemma WaitsAreTimed(cfg: Config, trace: seq<Label>) returns (start: int, failed: int)
    requires 0 < cfg.base <= 0x7FFF_FFFF_FFFF_FFFF
    ensures var s := Exec(cfg, Initial(), trace);
      s.job.Some? && s.job.value.stage.Waiting? ==>
        var p, k, readyAt := s.job.value.stage.p, s.job.value.stage.attempt, s.job.value.stage.readyAt;
        DeliveryStarts(cfg, trace, start) && WaitStarts(cfg, trace, failed, p, k, readyAt) &&
        (CanEnd(cfg, s, TimerFires, Sending(p, k)) <==> Spent(cfg, trace) + cfg.base * (Pow2(k) - 1) <= 120_000_000_000) &&
        (CanEnd(cfg, s, DeadlineFires, Settling(Interrupted)) <==> Spent(cfg, trace) + cfg.base * (Pow2(k) - 1) >= 120_000_000_000)
  {
    hide Exec, Spent, Next, Pow2, CanEnd, DeliveryStarts, WaitStarts;
    start, failed := 0, 0;
    var s := Exec(cfg, Initial(), trace);
    if s.job.Some? && s.job.value.stage.Waiting? {
      start := EveryDeliveryStarts(cfg, trace);
      failed := EveryWaitStarts(cfg, trace, s.job.value.stage.p, s.job.value.stage.attempt, s.job.value.stage.readyAt);
      AlwaysAccounts(cfg, trace);
      WaitEnds(cfg, s);
    }
  }

  lemma WaitEnds(cfg: Config, s: State)
    requires s.job.Some? && s.job.value.stage.Waiting?
    ensures var st := s.job.value.stage;
      (CanEnd(cfg, s, TimerFires, Sending(st.p, st.attempt)) <==> st.readyAt <= s.job.value.deadline) &&
      (CanEnd(cfg, s, DeadlineFires, Settling(Interrupted)) <==> s.job.value.deadline <= st.readyAt)
  {
    var st, deadline := s.job.value.stage, s.job.value.deadline;
    var d: nat := if st.readyAt > s.now then st.readyAt - s.now else 0;
    var e: nat := if deadline > s.now then deadline - s.now else 0;
    if st.readyAt <= deadline {
      assert Next(cfg, Next(cfg, s, Tick(d)), TimerFires).job.value.stage == Sending(st.p, st.attempt);
    }
    if deadline <= st.readyAt {
      assert Next(cfg, Next(cfg, s, Tick(e)), DeadlineFires).job.value.stage == Settling(Interrupted);
    }
  }
}
