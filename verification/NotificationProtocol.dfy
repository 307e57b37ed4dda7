/** The notification consumer as a step system: the broker's queue and dead-letter queue, the permanent
    processed_events table, the expiring Redis keys, the email provider, and one delivery at a time. Every
    call to a store or to the provider is a step of its own, and the label of the step says how it went.
    A label that does not fit the state changes nothing, so every list of labels is a run. */
module NotificationProtocol {
  import opened Text
  import opened Writes
  import opened Backoff

  /** What main.go fixes at start-up. */
  datatype Config = Config(demoOrder: string, maxAttempts: nat, base: int, ttl: int)

  datatype Payload = Payload(eventId: string, paymentId: string, orderId: string,
                             amount: int, email: string, status: string)

  datatype Body = Malformed | Json(payload: Payload)

  /** What the email provider is given. */
  datatype Receipt = Receipt(to: string, orderId: string, paymentId: string, amount: int, status: string)

  /** What Handle returns; Interrupted is the bare context error. */
  datatype Verdict = Done | Poison | ForcedDeadLetter | Transient | Interrupted

  datatype Stage =
    | AskProcessed(p: Payload)
    | AskSent(p: Payload)
    | Sending(p: Payload, attempt: nat)
    | Waiting(p: Payload, attempt: nat, readyAt: int)
    | Recording(p: Payload)
    | Marking(p: Payload)
    | Settling(verdict: Verdict)

  /** The one delivery being handled (prefetch 1). */
  datatype Job = Job(tag: nat, stage: Stage, deadline: int)

  /** History kept for the theorems; no step reads it. */
  datatype Entry =
    | Delivered
    | Mailed(tag: nat, event: string, receipt: Receipt, reported: bool)
    | Recorded(event: string)
    | Unrecorded(event: string)   // a delivery sent the email and did not get RecordProcessed to succeed
    | Fault
    | Requeued

  /** A message's tag is its index in `bodies`. A Redis key is live strictly before its expiry time. */
  datatype State = State(
    bodies: seq<Body>, queue: seq<nat>, job: Option<Job>, acked: seq<nat>, dead: seq<nat>,
    processed: set<string>, sentKeys: map<string, int>, now: int, log: seq<Entry>)

  datatype Label =
    | Publish(body: Body)
    | Tick(elapsed: nat)
    | Deliver
    | CheckProcessed(ok: bool)
    | CheckSent(ok: bool)
    | Attempt(accepted: bool, reported: bool)
    | TimerFires
    | DeadlineFires
    | Shutdown
    | Record(outcome: WriteOutcome)
    | Mark(outcome: WriteOutcome)
    | Settle(replyLost: bool, at: nat)
    | Crash(at: nat)

  function Initial(): State {
    State([], [], None, [], [], {}, map[], 0, [])
  }

  function PaymentKey(p: Payload): string {
    var id := TrimSpace(p.paymentId);
    if id == "" then TrimSpace(p.eventId) else id
  }

  function ReceiptOf(p: Payload): Receipt {
    Receipt(TrimSpace(p.email), TrimSpace(p.orderId), PaymentKey(p), p.amount, TrimSpace(p.status))
  }

  predicate IsPoison(b: Body) {
    b.Malformed? || TrimSpace(b.payload.eventId) == "" || TrimSpace(b.payload.email) == ""
  }

  predicate IsDemo(cfg: Config, b: Body) {
    cfg.demoOrder != "" && b.Json? && TrimSpace(b.payload.orderId) == cfg.demoOrder
  }

  /** Decoding and the event-id check come before any store is asked. */
  function FirstStage(b: Body): Stage {
    if b.Malformed? || TrimSpace(b.payload.eventId) == "" then Settling(Poison)
    else AskProcessed(b.payload)
  }

  /** Neither store knows the message: the demo and address checks, then the loop. A loop of no attempts falls through. */
  function StageWhenUnsent(cfg: Config, p: Payload): Stage {
    if IsDemo(cfg, Json(p)) then Settling(ForcedDeadLetter)
    else if TrimSpace(p.email) == "" then Settling(Poison)
    else if cfg.maxAttempts == 0 then Recording(p)
    else Sending(p, 0)
  }

  predicate IsLive(s: State, key: string) {
    key in s.sentKeys && s.now < s.sentKeys[key]
  }

  function PutAt(q: seq<nat>, at: nat, tag: nat): seq<nat> {
    if at < |q| then q[..at] + [tag] + q[at..] else q + [tag]
  }

  function Note(s: State, e: Entry): State {
    s.(log := s.log + [e])
  }

  function Go(s: State, stage: Stage): State
    requires s.job.Some?
  {
    s.(job := Some(s.job.value.(stage := stage)))
  }

  function Requeue(s: State, at: nat): State
    requires s.job.Some?
  {
    Note(s.(job := None, queue := PutAt(s.queue, at, s.job.value.tag)), Requeued)
  }

  function Failed(s: State, verdict: Verdict): State
    requires s.job.Some?
  {
    Go(Note(s, Fault), Settling(verdict))
  }

  /** What a step can only add to. */
  predicate Grows(s: State, t: State) {
    s.bodies <= t.bodies && s.log <= t.log && s.processed <= t.processed
  }

  /** A step of the delivery in hand: the broker's side stays as it is, and the stores and the history only gain. */
  predicate InHand(s: State, t: State) {
    s.job.Some? && t.job.Some? && t.job.value.tag == s.job.value.tag && t.job.value.deadline == s.job.value.deadline &&
    t.bodies == s.bodies && t.queue == s.queue && t.acked == s.acked && t.dead == s.dead && t.now == s.now &&
    Grows(s, t)
  }

  function OnCheckProcessed(s: State, p: Payload, ok: bool): (t: State)
    requires s.job.Some?
    ensures InHand(s, t)
  {
    if !ok then Failed(s, Transient)
    else Go(s, if p.eventId in s.processed then Settling(Done) else AskSent(p))
  }

  function OnCheckSent(cfg: Config, s: State, p: Payload, ok: bool): (t: State)
    requires s.job.Some?
    ensures InHand(s, t)
  {
    if !ok then Failed(s, Transient)
    else Go(s, if IsLive(s, PaymentKey(p)) then Settling(Done) else StageWhenUnsent(cfg, p))
  }

  /** When the timer of the wait before this attempt is ready; a delay that is not positive fires at once. */
  function TimerReady(cfg: Config, now: int, attempt: nat): int
    requires attempt >= 1
  {
    var delay := Delay(cfg.base, attempt);
    if delay > 0 then now + delay else now
  }

  function AfterFailedAttempt(cfg: Config, s: State, p: Payload, attempt: nat): (t: State)
    requires s.job.Some?
    ensures InHand(s, t)
  {
    if attempt + 1 < cfg.maxAttempts then
      Go(Note(s, Fault), Waiting(p, attempt + 1, TimerReady(cfg, s.now, attempt + 1)))
    else Failed(s, Transient)
  }

  function Emailed(s: State, p: Payload, reported: bool): (t: State)
    requires s.job.Some?
    ensures InHand(s, t)
  {
    Note(s, Mailed(s.job.value.tag, p.eventId, ReceiptOf(p), reported))
  }

  /** One call of the provider; `reported` is what the loop sees. No success is reported for an email not accepted. */
  function OnAttempt(cfg: Config, s: State, p: Payload, attempt: nat, accepted: bool, reported: bool): (t: State)
    requires s.job.Some?
    ensures InHand(s, t)
  {
    if reported && !accepted then s
    else if reported then Go(Emailed(s, p, true), Recording(p))
    else if accepted then AfterFailedAttempt(cfg, Emailed(s, p, false), p, attempt)
    else AfterFailedAttempt(cfg, s, p, attempt)
  }

  /** The select of the backoff: whichever of the timer and the deadline is ready first. */
  function OnTimer(s: State, p: Payload, attempt: nat, readyAt: int): (t: State)
    requires s.job.Some?
    ensures InHand(s, t)
  {
    if readyAt <= s.now && readyAt <= s.job.value.deadline then Go(s, Sending(p, attempt)) else s
  }

  function OnDeadline(s: State, readyAt: int): (t: State)
    requires s.job.Some?
    ensures InHand(s, t)
  {
    if s.job.value.deadline <= s.now && s.job.value.deadline <= readyAt then Go(s, Settling(Interrupted)) else s
  }

  function OnRecord(s: State, p: Payload, outcome: WriteOutcome): (t: State)
    requires s.job.Some?
    ensures InHand(s, t)
  {
    if outcome == Rejected || p.eventId in s.processed then
      Failed(Note(s, Unrecorded(p.eventId)), Transient)
    else
      var s1 := s.(processed := s.processed + {p.eventId});
      if outcome == Applied then Go(Note(s1, Recorded(p.eventId)), Marking(p))
      else Failed(Note(s1, Unrecorded(p.eventId)), Transient)
  }

  function OnMark(cfg: Config, s: State, p: Payload, outcome: WriteOutcome): (t: State)
    requires s.job.Some?
    ensures InHand(s, t)
  {
    var s1 := if outcome == Rejected then s
              else s.(sentKeys := s.sentKeys[PaymentKey(p) := s.now + cfg.ttl]);
    if outcome == Applied then Go(s1, Settling(Done)) else Failed(s1, Transient)
  }

  function InHandStep(cfg: Config, s: State, stage: Stage, l: Label): (t: State)
    requires s.job.Some?
    ensures t == s || InHand(s, t)
  {
    match stage
    case AskProcessed(p) => if l.CheckProcessed? then OnCheckProcessed(s, p, l.ok) else s
    case AskSent(p) => if l.CheckSent? then OnCheckSent(cfg, s, p, l.ok) else s
    case Sending(p, k) => if l.Attempt? then OnAttempt(cfg, s, p, k, l.accepted, l.reported) else s
    case Waiting(p, k, readyAt) =>
      if l.TimerFires? then OnTimer(s, p, k, readyAt)
      else if l.DeadlineFires? then OnDeadline(s, readyAt)
      else if l.Shutdown? then Failed(s, Interrupted)
      else s
    case Recording(p) => if l.Record? then OnRecord(s, p, l.outcome) else s
    case Marking(p) => if l.Mark? then OnMark(cfg, s, p, l.outcome) else s
    case Settling(_) => s
  }

  function OnPublish(s: State, b: Body): (t: State)
    ensures Grows(s, t)
  {
    s.(bodies := s.bodies + [b], queue := s.queue + [|s.bodies|])
  }

  function OnDeliver(s: State): (t: State)
    ensures Grows(s, t)
  {
    if s.job.None? && s.queue != [] && s.queue[0] < |s.bodies| then
      Note(s.(queue := s.queue[1..],
              job := Some(Job(s.queue[0], FirstStage(s.bodies[s.queue[0]]), s.now + TIMEOUT))), Delivered)
    else s
  }

  /** The ack/nack dispatch. When the reply is lost the broker redelivers. */
  function OnSettle(s: State, verdict: Verdict, replyLost: bool, at: nat): (t: State)
    requires s.job.Some?
    ensures Grows(s, t) && t.bodies == s.bodies
  {
    var tag := s.job.value.tag;
    if replyLost then Requeue(Note(s, Fault), at)
    else match verdict
      case Done => s.(job := None, acked := s.acked + [tag])
      case Poison => s.(job := None, dead := s.dead + [tag])
      case ForcedDeadLetter => s.(job := None, dead := s.dead + [tag])
      case Transient => Requeue(s, at)
      case Interrupted => Requeue(s, at)
  }

  /** The process dies: the unacknowledged message goes back to the queue. */
  function OnCrash(s: State, at: nat): (t: State)
    requires s.job.Some?
    ensures Grows(s, t) && t.bodies == s.bodies
  {
    var s1 := if s.job.value.stage.Recording? then Note(s, Unrecorded(s.job.value.stage.p.eventId)) else s;
    Requeue(Note(s1, Fault), at)
  }

  function Next(cfg: Config, s: State, l: Label): State {
    match l
    case Publish(b) => OnPublish(s, b)
    case Tick(d) => s.(now := s.now + d)
    case Deliver => OnDeliver(s)
    case Settle(replyLost, at) =>
      if s.job.Some? && s.job.value.stage.Settling? then OnSettle(s, s.job.value.stage.verdict, replyLost, at) else s
    case Crash(at) => if s.job.Some? then OnCrash(s, at) else s
    case _ => if s.job.Some? then InHandStep(cfg, s, s.job.value.stage, l) else s
  }

  function Exec(cfg: Config, s: State, trace: seq<Label>): State {
    if trace == [] then s
    else Next(cfg, Exec(cfg, s, trace[..|trace| - 1]), trace[|trace| - 1])
  }

  /** One more label is one more step. */
  lemma ExecStep(cfg: Config, s: State, trace: seq<Label>, l: Label)
    ensures Exec(cfg, s, trace + [l]) == Next(cfg, Exec(cfg, s, trace), l)
  {
    assert (trace + [l])[..|trace|] == trace;
  }

  lemma {:induction false} ExecAppend(cfg: Config, s: State, a: seq<Label>, b: seq<Label>)
    ensures Exec(cfg, s, a + b) == Exec(cfg, Exec(cfg, s, a), b)
    decreases |b|
  {
    if b == [] {
      assert a + b == a;
    } else {
      var c := b[..|b| - 1];
      ExecAppend(cfg, s, a, c);
      assert a + b == (a + c) + [b[|b| - 1]];
      ExecStep(cfg, s, a + c, b[|b| - 1]);
    }
  }
}
