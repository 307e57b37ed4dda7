/** The notification service as it is written: the two stores, the retry loop of Handle, and the consumer's dispatch. Every object
    carries its own run of the protocol as ghost history, so each state it reaches is a state of that protocol and
    all its theorems apply. */
module NotificationService {
  import opened Text
  import opened Writes
  import opened Outside
  import opened Backoff
  import opened Integers
  import N = NotificationProtocol
  import G = NotificationGuarantees
  import NT = NotificationTheorems

  /** postgres.Store: the processed_events table, whose primary key is the event id. */
  class ProcessedEvents {
    var ids: set<string>
    const env: Environment

    constructor (env: Environment)
      ensures ids == {} && this.env == env
    {
      ids, this.env := {}, env;
    }

    method WasProcessed(eventId: string) returns (ok: bool, found: bool)
      modifies env`faultsLeft
      ensures eventId == "" ==> !ok
      ensures ok ==> found == (eventId in ids) && env.faultsLeft == old(env.faultsLeft)
      ensures !ok && eventId != "" ==> env.faultsLeft == old(env.faultsLeft) - 1
      ensures env.faultsLeft <= old(env.faultsLeft)
    {
      found := false;
      if eventId == "" {
        ok := false;
      } else {
        var fails := env.Fails();
        ok := !fails;
        if ok {
          found := eventId in ids;
        }
      }
    }

    /** A plain INSERT: a second insert of the same id is an error. A failed call may have been applied. */
    method RecordProcessed(eventId: string) returns (ok: bool, ghost outcome: WriteOutcome)
      modifies this`ids, env`faultsLeft
      ensures ok <==> outcome.Applied?
      ensures eventId in old(ids) ==> outcome.Rejected?
      ensures ids == if outcome.Rejected? then old(ids) else old(ids) + {eventId}
      ensures env.faultsLeft == old(env.faultsLeft) - if !ok && eventId !in old(ids) then 1 else 0
    {
      if eventId in ids {
        return false, Rejected;
      }
      var fails := env.Fails();
      ok, outcome := !fails, if fails then Rejected else Applied;
      var applied: bool := *;
      if ok || applied {
        ids := ids + {eventId};
        outcome := if ok then Applied else AppliedNoReply;
      }
    }
  }

  /** redisnotify.Store: SENT keys that expire. */
  class SentKeys {
    var until: map<string, int>
    const ttl: int
    const env: Environment

    constructor (env: Environment, ttl: int)
      ensures until == map[] && this.ttl == ttl && this.env == env
    {
      until, this.ttl, this.env := map[], ttl, env;
    }

    method AlreadySent(paymentId: string) returns (ok: bool, found: bool)
      modifies env`faultsLeft
      ensures TrimSpace(paymentId) == "" ==> !ok
      ensures ok ==> found == (TrimSpace(paymentId) in until && env.now < until[TrimSpace(paymentId)])
      ensures ok ==> env.faultsLeft == old(env.faultsLeft)
      ensures !ok && TrimSpace(paymentId) != "" ==> env.faultsLeft == old(env.faultsLeft) - 1
      ensures env.faultsLeft <= old(env.faultsLeft)
    {
      var key := TrimSpace(paymentId);
      found := false;
      if key == "" {
        ok := false;
      } else {
        var fails := env.Fails();
        ok := !fails;
        if ok {
          found := key in until && env.now < until[key];
        }
      }
    }

    method MarkSent(paymentId: string) returns (ok: bool, ghost outcome: WriteOutcome)
      modifies this`until, env`faultsLeft
      ensures TrimSpace(paymentId) == "" ==> !ok && env.faultsLeft == old(env.faultsLeft)
      ensures ok <==> outcome.Applied?
      ensures until == if outcome.Rejected? then old(until) else old(until)[TrimSpace(paymentId) := env.now + ttl]
      ensures TrimSpace(paymentId) == "" ==> outcome.Rejected?
      ensures TrimSpace(paymentId) != "" ==> env.faultsLeft == old(env.faultsLeft) - if ok then 0 else 1
    {
      var key := TrimSpace(paymentId);
      if key == "" {
        return false, Rejected;
      }
      var fails := env.Fails();
      ok, outcome := !fails, if fails then Rejected else Applied;
      var applied: bool := *;
      if ok || applied {
        until := until[key := env.now + ttl];
        outcome := if ok then Applied else AppliedNoReply;
      }
    }
  }

  /** email.Sender: accepts a receipt or not, and reports success only for one it accepted. */
  class Sender {
    var outbox: seq<N.Receipt>
    const env: Environment

    constructor (env: Environment)
      ensures outbox == [] && this.env == env
    {
      outbox, this.env := [], env;
    }

    method SendPaymentReceipt(receipt: N.Receipt) returns (ok: bool, ghost accepted: bool)
      modifies this`outbox, env`faultsLeft
      ensures ok ==> accepted
      ensures outbox == if accepted then old(outbox) + [receipt] else old(outbox)
      ensures env.faultsLeft == old(env.faultsLeft) - if ok then 0 else 1
    {
      var fails := env.Fails();
      var taken: bool := *;
      ok := !fails;
      accepted := ok || taken;
      if ok || taken {
        outbox := outbox + [receipt];
      }
    }
  }

  /** The receipts that the history says the provider accepted, in order. */
  function Accepted(log: seq<N.Entry>): seq<N.Receipt> {
    if log == [] then []
    else
      var before := Accepted(log[..|log| - 1]);
      if log[|log| - 1].Mailed? then before + [log[|log| - 1].receipt] else before
  }

  lemma AcceptedMore(log: seq<N.Entry>, e: N.Entry)
    ensures Accepted(log + [e]) == if e.Mailed? then Accepted(log) + [e.receipt] else Accepted(log)
  {
    assert (log + [e])[..|log|] == log;
  }

  lemma TimerIsExact(cfg: N.Config, now: int, attempt: nat)
    ensures 0 < cfg.base && cfg.base * Pow2(attempt) <= MAX_INT64 ==> N.TimerReady(cfg, now, attempt + 1) == now + cfg.base * Pow2(attempt)
  {
    hide Pow2, Delay;
    if 0 < cfg.base && cfg.base * Pow2(attempt) <= MAX_INT64 {
      DelayIsExact(cfg.base, attempt + 1);
      Scale(cfg.base, 1, Pow2(attempt));
    }
  }

  // ----- The protocol's steps, one equation each -------------------------------------------------

  function In(s: N.State, tag: nat, deadline: int, stage: N.Stage, more: seq<N.Entry>): N.State {
    s.(job := Some(N.Job(tag, stage, deadline)), log := s.log + more)
  }

  lemma CheckProcessedStep(cfg: N.Config, s: N.State, tag: nat, deadline: int, p: N.Payload, ok: bool)
    requires s.job == Some(N.Job(tag, N.AskProcessed(p), deadline))
    ensures N.Next(cfg, s, N.CheckProcessed(ok)) ==
            if !ok then In(s, tag, deadline, N.Settling(N.Transient), [N.Fault])
            else In(s, tag, deadline, if p.eventId in s.processed then N.Settling(N.Done) else N.AskSent(p), [])
  {
    assert s.log + [] == s.log;
  }

  lemma CheckSentStep(cfg: N.Config, s: N.State, tag: nat, deadline: int, p: N.Payload, ok: bool)
    requires s.job == Some(N.Job(tag, N.AskSent(p), deadline))
    ensures N.Next(cfg, s, N.CheckSent(ok)) ==
            if !ok then In(s, tag, deadline, N.Settling(N.Transient), [N.Fault])
            else In(s, tag, deadline, if N.IsLive(s, N.PaymentKey(p)) then N.Settling(N.Done) else N.StageWhenUnsent(cfg, p), [])
  {
    hide N.StageWhenUnsent, N.PaymentKey;
    assert s.log + [] == s.log;
  }

  function AttemptEntries(tag: nat, p: N.Payload, accepted: bool, ok: bool): seq<N.Entry> {
    (if accepted then [N.Mailed(tag, p.eventId, N.ReceiptOf(p), ok)] else []) + (if ok then [] else [N.Fault])
  }

  lemma AttemptStep(cfg: N.Config, s: N.State, tag: nat, deadline: int, p: N.Payload, k: nat, accepted: bool, ok: bool)
    requires s.job == Some(N.Job(tag, N.Sending(p, k), deadline)) && (ok ==> accepted)
    ensures N.Next(cfg, s, N.Attempt(accepted, ok)) ==
            In(s, tag, deadline,
               if ok then N.Recording(p)
               else if k + 1 < cfg.maxAttempts then N.Waiting(p, k + 1, N.TimerReady(cfg, s.now, k + 1))
               else N.Settling(N.Transient),
               AttemptEntries(tag, p, accepted, ok))
  {
    hide N.TimerReady, N.ReceiptOf;
    assert (s.log + [N.Mailed(tag, p.eventId, N.ReceiptOf(p), ok)]) + [N.Fault] == s.log + ([N.Mailed(tag, p.eventId, N.ReceiptOf(p), ok)] + [N.Fault]);
    assert s.log + ([] + [N.Fault]) == s.log + [N.Fault];
    assert s.log + ([N.Mailed(tag, p.eventId, N.ReceiptOf(p), ok)] + []) == s.log + [N.Mailed(tag, p.eventId, N.ReceiptOf(p), ok)];
  }

  lemma WaitingSteps(cfg: N.Config, s: N.State, tag: nat, deadline: int, p: N.Payload, k: nat, readyAt: int)
    requires s.job == Some(N.Job(tag, N.Waiting(p, k, readyAt), deadline))
    ensures N.Next(cfg, s, N.Shutdown) == In(s, tag, deadline, N.Settling(N.Interrupted), [N.Fault])
    ensures readyAt <= s.now && readyAt <= deadline ==> N.Next(cfg, s, N.TimerFires) == In(s, tag, deadline, N.Sending(p, k), [])
    ensures deadline <= s.now && deadline <= readyAt ==>
              N.Next(cfg, s, N.DeadlineFires) == In(s, tag, deadline, N.Settling(N.Interrupted), [])
  {
    assert s.log + [] == s.log;
  }

  lemma TickStep(cfg: N.Config, s: N.State, d: nat)
    ensures N.Next(cfg, s, N.Tick(d)) == s.(now := s.now + d)
  {
  }

  lemma RecordStep(cfg: N.Config, s: N.State, tag: nat, deadline: int, p: N.Payload, outcome: WriteOutcome)
    requires s.job == Some(N.Job(tag, N.Recording(p), deadline)) && p.eventId !in s.processed
    ensures N.Next(cfg, s, N.Record(outcome)) ==
            (if outcome.Applied? then In(s, tag, deadline, N.Marking(p), [N.Recorded(p.eventId)])
             else In(s, tag, deadline, N.Settling(N.Transient), [N.Unrecorded(p.eventId), N.Fault]))
            .(processed := if outcome.Rejected? then s.processed else s.processed + {p.eventId})
  {
    assert s.log + [N.Unrecorded(p.eventId), N.Fault] == s.log + [N.Unrecorded(p.eventId)] + [N.Fault];
  }

  lemma MarkStep(cfg: N.Config, s: N.State, tag: nat, deadline: int, p: N.Payload, outcome: WriteOutcome)
    requires s.job == Some(N.Job(tag, N.Marking(p), deadline))
    ensures N.Next(cfg, s, N.Mark(outcome)) ==
            (if outcome.Applied? then In(s, tag, deadline, N.Settling(N.Done), [])
             else In(s, tag, deadline, N.Settling(N.Transient), [N.Fault]))
            .(sentKeys := if outcome.Rejected? then s.sentKeys else s.sentKeys[N.PaymentKey(p) := s.now + cfg.ttl])
  {
    hide N.PaymentKey;
    assert s.log + [] == s.log;
  }

  /** Entries that are not emails leave the outbox as it is. */
  lemma {:induction false} AcceptedUnmoved(log: seq<N.Entry>, more: seq<N.Entry>)
    requires forall i :: 0 <= i < |more| ==> !more[i].Mailed?
    ensures Accepted(log + more) == Accepted(log)
  {
    if more == [] {
      assert log + more == log;
    } else {
      var rest := more[..|more| - 1];
      AcceptedUnmoved(log, rest);
      assert log + more == (log + rest) + [more[|more| - 1]];
      AcceptedMore(log + rest, more[|more| - 1]);
    }
  }

  lemma AcceptedAttempt(log: seq<N.Entry>, tag: nat, p: N.Payload, accepted: bool, ok: bool)
    ensures Accepted(log + AttemptEntries(tag, p, accepted, ok)) ==
            if accepted then Accepted(log) + [N.ReceiptOf(p)] else Accepted(log)
  {
    hide Accepted, N.ReceiptOf;
    var tail: seq<N.Entry> := if ok then [] else [N.Fault];
    var x := N.Mailed(tag, p.eventId, N.ReceiptOf(p), ok);
    if accepted {
      AcceptedMore(log, x);
      AcceptedUnmoved(log + [x], tail);
      assert log + AttemptEntries(tag, p, accepted, ok) == (log + [x]) + tail;
    } else {
      AcceptedUnmoved(log, tail);
      assert AttemptEntries(tag, p, accepted, ok) == tail;
    }
  }

  /** notify.Processor, with the broker's side of the deliveries and the ghost run. */
  class Processor {
    const cfg: N.Config
    const pg: ProcessedEvents
    const redis: SentKeys
    const sender: Sender
    const env: Environment
    ghost var m: N.State
    ghost var run: seq<N.Label>

    constructor (cfg: N.Config, faults: nat)
      ensures Valid() && fresh(pg) && fresh(redis) && fresh(sender) && fresh(env)
      ensures m == N.Initial() && env.faultsLeft == faults && this.cfg == cfg
    {
      var e := new Environment(faults, 0);
      this.cfg := cfg;
      env := e;
      pg := new ProcessedEvents(e);
      redis := new SentKeys(e, cfg.ttl);
      sender := new Sender(e);
      m, run := N.Initial(), [];
    }

    /** The stores hold what the run says, and the run is a run of the protocol. */
    ghost predicate Valid()
      reads this, pg, redis, sender, env
    {
      pg.env == env && redis.env == env && sender.env == env && redis.ttl == cfg.ttl &&
      m == N.Exec(cfg, N.Initial(), run) &&
      pg.ids == m.processed && redis.until == m.sentKeys && env.now == m.now && sender.outbox == Accepted(m.log)
    }

    ghost predicate At(tag: nat, deadline: int, stage: N.Stage)
      reads this
    {
      m.job == Some(N.Job(tag, stage, deadline))
    }

    /** The protocol takes the step that the code has just taken. */
    ghost method Did(l: N.Label)
      modifies this`m, this`run
      ensures m == N.Next(cfg, old(m), l) && run == old(run) + [l]
      ensures old(m) == N.Exec(cfg, N.Initial(), old(run)) ==> m == N.Exec(cfg, N.Initial(), run)
    {
      N.ExecStep(cfg, N.Initial(), run, l);
      m, run := N.Next(cfg, m, l), run + [l];
    }

    ghost predicate Unmoved(before: N.State)
      reads this
    {
      m.bodies == before.bodies && m.queue == before.queue && m.acked == before.acked && m.dead == before.dead
    }

    /** What stays as it was while a delivery is in hand. */
    twostate predicate InHand(tag: nat, deadline: int)
      reads this, env
    {
      old(run) <= run && Unmoved(old(m)) && m.job.Some? && m.job.value.tag == tag && m.job.value.deadline == deadline &&
      env.faultsLeft <= old(env.faultsLeft) && old(env.now) <= env.now
    }

    /** Any amount of time goes by. */
    method Elapse()
      requires Valid() && m.job.Some?
      modifies env`now, this`m, this`run
      ensures Valid() && InHand(old(m).job.value.tag, old(m).job.value.deadline)
      ensures m == old(m).(now := m.now)
    {
      var d: int := *;
      if d > 0 {
        env.now := env.now + d;
        Did(N.Tick(d));
      }
    }

    /** The select on the context and the timer: whichever is ready first. A shutdown cancels the context at any time. */
    method Sleep(delay: int, deadline: int, ghost tag: nat, ghost p: N.Payload, ghost attempt: nat) returns (fired: bool)
      requires Valid() && At(tag, deadline, N.Waiting(p, attempt, if delay > 0 then m.now + delay else m.now))
      modifies env, this`m, this`run
      ensures Valid() && InHand(tag, deadline)
      ensures m.processed == old(m.processed) && m.sentKeys == old(m.sentKeys)
      ensures if fired then At(tag, deadline, N.Sending(p, attempt)) else At(tag, deadline, N.Settling(N.Interrupted))
      ensures env.faultsLeft < old(env.faultsLeft) ==> !fired
      ensures var readyAt := if delay > 0 then old(env.now) + delay else old(env.now);
        if fired then readyAt <= env.now && readyAt <= deadline
        else env.faultsLeft < old(env.faultsLeft) || (deadline <= env.now && deadline <= readyAt)
      ensures sender.outbox == old(sender.outbox)
    {
      hide N.Exec, N.Next, Accepted;
      var readyAt := if delay > 0 then env.now + delay else env.now;
      WaitingSteps(cfg, m, tag, deadline, p, attempt, readyAt);
      AcceptedUnmoved(m.log, []);
      AcceptedUnmoved(m.log, [N.Fault]);
      var cancelled := env.Fails();
      if cancelled {
        Did(N.Shutdown);
        return false;
      }
      var till := if readyAt <= deadline then readyAt else deadline;
      if till > env.now {
        TickStep(cfg, m, till - env.now);
        Did(N.Tick(till - env.now));
        env.now := till;
      }
      WaitingSteps(cfg, m, tag, deadline, p, attempt, readyAt);
      var tie: bool := *;
      if readyAt < deadline || (readyAt == deadline && tie) {
        Did(N.TimerFires);
        fired := true;
      } else {
        Did(N.DeadlineFires);
        fired := false;
      }
    }

    /** One call of the provider, taking any time. */
    method SendOnce(p: N.Payload, deadline: int, ghost tag: nat, ghost attempt: nat) returns (ok: bool)
      requires Valid() && At(tag, deadline, N.Sending(p, attempt))
      modifies sender, env, this`m, this`run
      ensures Valid() && InHand(tag, deadline)
      ensures m.processed == old(m.processed) && m.sentKeys == old(m.sentKeys)
      ensures ok ==> At(tag, deadline, N.Recording(p)) && sender.outbox == old(sender.outbox) + [N.ReceiptOf(p)]
      ensures !ok ==> env.faultsLeft < old(env.faultsLeft) &&
                      if attempt + 1 < cfg.maxAttempts
                      then At(tag, deadline, N.Waiting(p, attempt + 1, N.TimerReady(cfg, m.now, attempt + 1)))
                      else At(tag, deadline, N.Settling(N.Transient))
      ensures !ok && attempt + 1 < cfg.maxAttempts && 0 < cfg.base && cfg.base * Pow2(attempt) <= MAX_INT64 ==>
                At(tag, deadline, N.Waiting(p, attempt + 1, env.now + cfg.base * Pow2(attempt)))
    {
      hide N.Exec, N.Next, N.TimerReady, N.ReceiptOf, Accepted, AttemptEntries;
      Elapse();
      TimerIsExact(cfg, env.now, attempt);
      ghost var accepted;
      ghost var before := m;
      ok, accepted := sender.SendPaymentReceipt(N.ReceiptOf(p));
      Did(N.Attempt(accepted, ok));
      AttemptStep(cfg, before, tag, deadline, p, attempt, accepted, ok);
      AcceptedAttempt(before.log, tag, p, accepted, ok);
    }

    /** The attempt loop. */
    method SendWithRetries(p: N.Payload, deadline: int, ghost tag: nat) returns (sent: bool, v: N.Verdict)
      requires Valid() && At(tag, deadline, if cfg.maxAttempts == 0 then N.Recording(p) else N.Sending(p, 0))
      modifies sender, env, this`m, this`run
      ensures Valid() && InHand(tag, deadline)
      ensures m.processed == old(m.processed) && m.sentKeys == old(m.sentKeys)
      ensures sent ==> At(tag, deadline, N.Recording(p)) && (cfg.maxAttempts >= 1 ==> N.ReceiptOf(p) in sender.outbox)
      ensures !sent ==> At(tag, deadline, N.Settling(v)) && (v.Transient? || v.Interrupted?) && env.faultsLeft < old(env.faultsLeft)
      ensures !sent && v.Transient? ==> env.faultsLeft <= old(env.faultsLeft) - cfg.maxAttempts
      ensures env.faultsLeft == old(env.faultsLeft) ==>
                sent && sender.outbox == old(sender.outbox) + if cfg.maxAttempts == 0 then [] else [N.ReceiptOf(p)]
    {
      hide N.Exec, N.Next, Delay, TrimSpace, N.PaymentKey, N.ReceiptOf, Accepted;
      var attempt := 0;
      var failed := false;
      while attempt < cfg.maxAttempts
        invariant 0 <= attempt <= cfg.maxAttempts && failed == (attempt > 0)
        invariant Valid() && InHand(tag, deadline)
        invariant m.processed == old(m.processed) && m.sentKeys == old(m.sentKeys)
        invariant attempt == 0 ==> At(tag, deadline, if cfg.maxAttempts == 0 then N.Recording(p) else N.Sending(p, 0))
        invariant env.faultsLeft <= old(env.faultsLeft) - attempt
        invariant attempt == 0 ==> sender.outbox == old(sender.outbox)
        invariant attempt > 0 ==> if attempt < cfg.maxAttempts then At(tag, deadline, N.Waiting(p, attempt, N.TimerReady(cfg, m.now, attempt)))
                                  else At(tag, deadline, N.Settling(N.Transient))
      {
        if attempt > 0 {
          var fired := Sleep(Delay(cfg.base, attempt), deadline, tag, p, attempt);
          if !fired {
            return false, N.Interrupted;
          }
        }
        failed := true;
        var ok := SendOnce(p, deadline, tag, attempt);
        if ok {
          return true, N.Done;
        }
        attempt := attempt + 1;
      }
      sent, v := !failed, if failed then N.Transient else N.Done;
    }

    /** The inserts after a send, in this order. */
    method RecordBoth(p: N.Payload, key: string, deadline: int, ghost tag: nat) returns (v: N.Verdict)
      requires Valid() && At(tag, deadline, N.Recording(p)) && p.eventId !in pg.ids
      requires key == N.PaymentKey(p) && TrimSpace(key) == key && key != ""
      modifies pg, redis, env, this`m, this`run
      ensures Valid() && InHand(tag, deadline) && At(tag, deadline, N.Settling(v))
      ensures v.Done? ==> pg.ids == old(pg.ids) + {p.eventId} && redis.until == old(redis.until)[key := env.now + redis.ttl]
      ensures old(pg.ids) <= pg.ids && (!v.Done? ==> v.Transient? && env.faultsLeft < old(env.faultsLeft))
      ensures sender.outbox == old(sender.outbox)
    {
      hide N.Exec, N.Next, TrimSpace, N.PaymentKey, Accepted;
      var ok;
      ghost var outcome;
      ghost var before := m;
      ok, outcome := pg.RecordProcessed(p.eventId);
      Did(N.Record(outcome));
      RecordStep(cfg, before, tag, deadline, p, outcome);
      AcceptedUnmoved(before.log, [N.Recorded(p.eventId)]);
      AcceptedUnmoved(before.log, [N.Unrecorded(p.eventId), N.Fault]);
      if !ok {
        return N.Transient;
      }
      before := m;
      ok, outcome := redis.MarkSent(key);
      Did(N.Mark(outcome));
      MarkStep(cfg, before, tag, deadline, p, outcome);
      AcceptedUnmoved(before.log, []);
      AcceptedUnmoved(before.log, [N.Fault]);
      v := if ok then N.Done else N.Transient;
    }

    /** The two duplicate checks, in this order. */
    method AskStores(p: N.Payload, paymentId: string, deadline: int, ghost tag: nat) returns (decided: bool, v: N.Verdict)
      requires Valid() && At(tag, deadline, N.AskProcessed(p)) && p.eventId != ""
      requires paymentId == N.PaymentKey(p) && TrimSpace(paymentId) == paymentId && paymentId != ""
      modifies env`faultsLeft, this`m, this`run
      ensures Valid() && InHand(tag, deadline)
      ensures if decided then At(tag, deadline, N.Settling(v)) else At(tag, deadline, N.StageWhenUnsent(cfg, p))
      ensures decided && !v.Done? ==> v.Transient? && env.faultsLeft < old(env.faultsLeft)
      ensures decided && v.Done? ==> p.eventId in pg.ids || (paymentId in redis.until && env.now < redis.until[paymentId])
      ensures !decided ==> p.eventId !in pg.ids && !(paymentId in redis.until && env.now < redis.until[paymentId])
    {
      hide N.Exec, N.Next, TrimSpace, Accepted, N.StageWhenUnsent, N.PaymentKey;
      ghost var before := m;
      var ok, found := pg.WasProcessed(p.eventId);
      Did(N.CheckProcessed(ok));
      CheckProcessedStep(cfg, before, tag, deadline, p, ok);
      AcceptedUnmoved(before.log, []);
      AcceptedUnmoved(before.log, [N.Fault]);
      if !ok {
        return true, N.Transient;
      }
      if found {
        return true, N.Done;
      }

      before := m;
      ok, found := redis.AlreadySent(paymentId);
      Did(N.CheckSent(ok));
      CheckSentStep(cfg, before, tag, deadline, p, ok);
      AcceptedUnmoved(before.log, []);
      AcceptedUnmoved(before.log, [N.Fault]);
      if !ok {
        return true, N.Transient;
      }
      if found {
        return true, N.Done;
      }
      decided, v := false, N.Done;
    }

    /** The loop, and what follows a send. */
    method SendAndRecord(p: N.Payload, key: string, deadline: int, ghost tag: nat) returns (v: N.Verdict)
      requires Valid() && At(tag, deadline, if cfg.maxAttempts == 0 then N.Recording(p) else N.Sending(p, 0)) && p.eventId !in pg.ids
      requires key == N.PaymentKey(p) && TrimSpace(key) == key && key != ""
      modifies pg, redis, sender, env, this`m, this`run
      ensures Valid() && InHand(tag, deadline) && At(tag, deadline, N.Settling(v))
      ensures old(pg.ids) <= pg.ids && (v.Done? ==> p.eventId in pg.ids)
      ensures v.Done? || ((v.Transient? || v.Interrupted?) && env.faultsLeft < old(env.faultsLeft))
      ensures env.faultsLeft == old(env.faultsLeft) ==>
                pg.ids == old(pg.ids) + {p.eventId} && redis.until == old(redis.until)[key := env.now + cfg.ttl] &&
                sender.outbox == old(sender.outbox) +
                                 if cfg.maxAttempts == 0 then []
                                 else [N.Receipt(TrimSpace(p.email), TrimSpace(p.orderId), key, p.amount, TrimSpace(p.status))]
    {
      hide N.Exec, TrimSpace, Accepted;
      ReceiptIs(p, key);
      hide N.PaymentKey, N.ReceiptOf;
      var sent;
      sent, v := SendWithRetries(p, deadline, tag);
      if sent {
        v := RecordBoth(p, key, deadline, tag);
      }
    }

    /** Unless something fails: what is malformed or has no event id is poison; what either store knows is done already; the demo order is
        dead-lettered; what has no address is poison; and anything else is sent once, recorded, marked for one TTL under its payment
        id or, without one, its event id, and done. */
    twostate predicate HandledUndisturbed(body: N.Body, v: N.Verdict)
      reads pg, redis, sender, env
    {
      var same := pg.ids == old(pg.ids) && redis.until == old(redis.until) && sender.outbox == old(sender.outbox);
      if body.Malformed? || TrimSpace(body.payload.eventId) == "" then v.Poison? && same
      else
        var p := body.payload;
        var key := if TrimSpace(p.paymentId) == "" then TrimSpace(p.eventId) else TrimSpace(p.paymentId);
        if p.eventId in old(pg.ids) || (key in old(redis.until) && old(env.now) < old(redis.until)[key]) then v.Done? && same
        else if cfg.demoOrder != "" && TrimSpace(p.orderId) == cfg.demoOrder then v.ForcedDeadLetter? && same
        else if TrimSpace(p.email) == "" then v.Poison? && same
        else
          v.Done? && pg.ids == old(pg.ids) + {p.eventId} && redis.until == old(redis.until)[key := env.now + cfg.ttl] &&
          sender.outbox == old(sender.outbox) + if cfg.maxAttempts == 0 then []
                                                else [N.Receipt(TrimSpace(p.email), TrimSpace(p.orderId), key, p.amount, TrimSpace(p.status))]
    }

    /** notify.Processor.Handle. */
    method Handle(body: N.Body, deadline: int, ghost tag: nat) returns (v: N.Verdict)
      requires Valid() && tag < |m.bodies| && m.bodies[tag] == body && At(tag, deadline, N.FirstStage(body))
      modifies pg, redis, sender, env, this`m, this`run
      ensures Valid() && InHand(tag, deadline) && At(tag, deadline, N.Settling(v))
      ensures old(pg.ids) <= pg.ids
      ensures v.Transient? || v.Interrupted? ==> env.faultsLeft < old(env.faultsLeft)
      ensures v.Poison? ==> N.IsPoison(body)
      ensures v.ForcedDeadLetter? ==> N.IsDemo(cfg, body)
      ensures v.Done? ==> body.Json? && (body.payload.eventId in pg.ids || N.PaymentKey(body.payload) in old(redis.until))
      ensures env.faultsLeft == old(env.faultsLeft) ==> HandledUndisturbed(body, v)
    {
      hide N.Exec, N.Next, TrimSpace, Accepted;
      if body.Malformed? {
        return N.Poison;
      }
      var p := body.payload;
      if TrimSpace(p.eventId) == "" {
        return N.Poison;
      }
      var paymentId := TrimSpace(p.paymentId);
      if paymentId == "" {
        paymentId := TrimSpace(p.eventId);
      }
      KeyIsTrimmed(p, paymentId);
      hide N.PaymentKey;

      var decided;
      decided, v := AskStores(p, paymentId, deadline, tag);
      if decided {
        return;
      }
      if cfg.demoOrder != "" && TrimSpace(p.orderId) == cfg.demoOrder {
        return N.ForcedDeadLetter;
      }
      if TrimSpace(p.email) == "" {
        return N.Poison;
      }
      v := SendAndRecord(p, paymentId, deadline, tag);
    }
  }

  lemma KeyIsTrimmed(p: N.Payload, paymentId: string)
    requires TrimSpace(p.eventId) != ""
    requires paymentId == if TrimSpace(p.paymentId) == "" then TrimSpace(p.eventId) else TrimSpace(p.paymentId)
    ensures paymentId == N.PaymentKey(p) && TrimSpace(paymentId) == paymentId && paymentId != "" && p.eventId != ""
  {
    TrimFixes(p.paymentId);
    TrimFixes(p.eventId);
    BlankTrims();
  }

  lemma ReceiptIs(p: N.Payload, paymentId: string)
    requires paymentId == N.PaymentKey(p)
    ensures N.ReceiptOf(p) == N.Receipt(TrimSpace(p.email), TrimSpace(p.orderId), paymentId, p.amount, TrimSpace(p.status))
  {
  }

  lemma BlankTrims()
    ensures TrimSpace("") == ""
  {
  }

  lemma DeliverStep(cfg: N.Config, s: N.State)
    requires s.job.None? && s.queue != [] && s.queue[0] < |s.bodies|
    ensures N.Next(cfg, s, N.Deliver) ==
            In(s, s.queue[0], s.now + TIMEOUT, N.FirstStage(s.bodies[s.queue[0]]), [N.Delivered]).(queue := s.queue[1..])
  {
    hide N.FirstStage;
  }

  lemma SettleStep(cfg: N.Config, s: N.State, tag: nat, deadline: int, v: N.Verdict, replyLost: bool, at: nat)
    requires s.job == Some(N.Job(tag, N.Settling(v), deadline))
    ensures N.Next(cfg, s, N.Settle(replyLost, at)) ==
            if replyLost then s.(job := None, queue := N.PutAt(s.queue, at, tag), log := s.log + [N.Fault, N.Requeued])
            else match v
              case Done => s.(job := None, acked := s.acked + [tag])
              case Poison => s.(job := None, dead := s.dead + [tag])
              case ForcedDeadLetter => s.(job := None, dead := s.dead + [tag])
              case Transient => s.(job := None, queue := N.PutAt(s.queue, at, tag), log := s.log + [N.Requeued])
              case Interrupted => s.(job := None, queue := N.PutAt(s.queue, at, tag), log := s.log + [N.Requeued])
  {
    hide N.PutAt;
    assert s.log + [N.Fault, N.Requeued] == s.log + [N.Fault] + [N.Requeued];
  }

  /** The consumer of main.go, with the broker's queues: a message is named by its index in `bodies`. */
  class Consumer {
    const proc: Processor
    var bodies: seq<N.Body>
    var queue: seq<nat>
    var acked: seq<nat>
    var dead: seq<nat>

    constructor (cfg: N.Config, faults: nat)
      ensures Valid() && Idle() && bodies == [] && queue == [] && fresh(Repr())
    {
      proc := new Processor(cfg, faults);
      bodies, queue, acked, dead := [], [], [], [];
    }

    ghost function Repr(): set<object>
      reads this
    {
      {this, proc, proc.pg, proc.redis, proc.sender, proc.env}
    }

    ghost predicate Valid()
      reads this, proc, proc.pg, proc.redis, proc.sender, proc.env
    {
      proc.Valid() && bodies == proc.m.bodies && queue == proc.m.queue && acked == proc.m.acked && dead == proc.m.dead
    }

    ghost predicate Idle()
      reads proc
    {
      proc.m.job.None?
    }

    /** A message arrives from the exchange. */
    method Arrive(body: N.Body)
      requires Valid()
      modifies this, proc`m, proc`run
      ensures Valid() && (old(Idle()) ==> Idle())
      ensures bodies == old(bodies) + [body] && queue == old(queue) + [|old(bodies)|] && acked == old(acked) && dead == old(dead)
    {
      queue := queue + [|bodies|];
      bodies := bodies + [body];
      proc.Did(N.Publish(body));
    }

    lemma QueueIsKnown()
      requires Valid()
      ensures forall i :: 0 <= i < |queue| ==> queue[i] < |bodies|
    {
      hide N.Exec;
      G.AlwaysFits(proc.cfg, proc.run);
      G.AlwaysConserved(proc.cfg, proc.run);
      NT.QueueIsKnown(proc.cfg, proc.m);
    }

    lemma AllSettled()
      requires Valid() && Idle() && queue == []
      ensures |acked| + |dead| == |bodies|
    {
      hide N.Exec;
      G.AlwaysConserved(proc.cfg, proc.run);
      G.TagsCount(|bodies|, 0);
      assert |G.Places(proc.m)| == |queue| + |G.InFlight(proc.m)| + |acked| + |dead|;
    }

    /** The broker hands over the first message, and two minutes start. */
    method Take() returns (tag: nat, deadline: int)
      requires Valid() && Idle() && queue != []
      modifies this`queue, proc`m, proc`run
      ensures Valid() && tag == old(queue)[0] && queue == old(queue)[1..] && tag < |bodies| && deadline == proc.env.now + 120_000_000_000
      ensures proc.At(tag, deadline, N.FirstStage(bodies[tag]))
    {
      hide N.Exec, N.Next, Accepted, N.FirstStage;
      QueueIsKnown();
      tag, deadline := queue[0], proc.env.now + TIMEOUT;
      ghost var before := proc.m;
      queue := queue[1..];
      proc.Did(N.Deliver);
      DeliverStep(proc.cfg, before);
      AcceptedUnmoved(before.log, [N.Delivered]);
    }

    /** Ack, dead-letter or requeue. A lost reply redelivers. */
    method Dispatch(v: N.Verdict, tag: nat, ghost deadline: int) returns (ghost at: nat)
      requires Valid() && proc.At(tag, deadline, N.Settling(v))
      modifies this, proc.env, proc`m, proc`run
      ensures Valid() && Idle() && bodies == old(bodies) && proc.env.faultsLeft <= old(proc.env.faultsLeft) && proc.env.now == old(proc.env.now)
      ensures if proc.env.faultsLeft < old(proc.env.faultsLeft) || v.Transient? || v.Interrupted?
              then acked == old(acked) && dead == old(dead) && queue == N.PutAt(old(queue), at, tag)
              else queue == old(queue) && if v.Done? then acked == old(acked) + [tag] && dead == old(dead)
                                          else dead == old(dead) + [tag] && acked == old(acked)
    {
      hide N.Exec, N.Next, Accepted, N.PutAt;
      ghost var before := proc.m;
      var replyLost := proc.env.Fails();
      var place: nat := *;
      at := place;
      proc.Did(N.Settle(replyLost, at));
      SettleStep(proc.cfg, before, tag, deadline, v, replyLost, at);
      AcceptedUnmoved(before.log, [N.Requeued]);
      AcceptedUnmoved(before.log, [N.Fault, N.Requeued]);
      if replyLost || v.Transient? || v.Interrupted? {
        queue := N.PutAt(queue, place, tag);
      } else if v.Done? {
        acked := acked + [tag];
      } else {
        dead := dead + [tag];
      }
    }

    /** handle: one delivery, then ack, dead-letter or requeue. A lost reply redelivers. The message leaves the queue
        for good, done to the acknowledged and anything else to the dead letters, or a fault has been used up and it is back. */
    method HandleDelivery() returns (ghost v: N.Verdict, ghost at: nat)
      requires Valid() && Idle() && queue != []
      modifies Repr()
      ensures Valid() && Idle() && bodies == old(bodies) && old(proc.pg.ids) <= proc.pg.ids
      ensures proc.env.faultsLeft <= old(proc.env.faultsLeft)
      ensures old(queue)[0] < |bodies|
      ensures var tag := old(queue)[0];
        (v.Done? && queue == old(queue)[1..] && acked == old(acked) + [tag] && dead == old(dead)) ||
        ((v.Poison? || v.ForcedDeadLetter?) && queue == old(queue)[1..] && dead == old(dead) + [tag] && acked == old(acked) &&
         (N.IsPoison(bodies[tag]) || N.IsDemo(proc.cfg, bodies[tag]))) ||
        (proc.env.faultsLeft < old(proc.env.faultsLeft) && acked == old(acked) && dead == old(dead) &&
         queue == N.PutAt(old(queue)[1..], at, tag))
      ensures proc.env.faultsLeft == old(proc.env.faultsLeft) ==> proc.HandledUndisturbed(bodies[old(queue)[0]], v)
    {
      hide N.Exec, N.Next, Accepted, N.PutAt, N.IsPoison, N.IsDemo, N.FirstStage, TrimSpace;
      var tag, deadline := Take();
      var verdict := proc.Handle(bodies[tag], deadline, tag);
      v := verdict;
      at := Dispatch(verdict, tag, deadline);
    }

    /** The consumer loop on a queue that no longer grows: with finitely many faults it ends, and then every message
        ever published has been acknowledged or dead-lettered. */
    method Drain()
      requires Valid() && Idle()
      modifies Repr()
      ensures Valid() && Idle() && bodies == old(bodies) && queue == []
      ensures |acked| + |dead| == |bodies|
    {
      hide N.Exec, N.Next, Accepted;
      while queue != []
        invariant Valid() && Idle() && bodies == old(bodies)
        decreases proc.env.faultsLeft, |queue|
      {
        ghost var v, at := HandleDelivery();
      }
      AllSettled();
    }
  }
}
