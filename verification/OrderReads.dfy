/** Cache-aside reads of orders as a step system: GetOrder's look-up, read and fill are separate steps, row updates and
    invalidations happen at any time, and an invalidation that fails is one that never happens. Writers are not
    restricted to the use cases' own order of steps, so every interleaving of the use cases is included. */
module OrderReads {
  import opened Text
  import T = OrderTransactions

  /** A value the row has had, and since when. */
  datatype Version = Version(order: T.Order, since: int)

  /** A cached order is live strictly before `until`; `readAt` is history, no step looks at it. */
  datatype Entry = Entry(order: T.Order, until: int, readAt: int)

  datatype Reader =
    | LookingUp(id: string)
    | Reading(id: string)
    | Filling(order: T.Order, readAt: int)
    | Done

  datatype Answer = Served(order: T.Order, at: int, readAt: int, fromCache: bool)

  /** `longest` is the longest time any reader has taken from its read to its fill. */
  datatype State = State(
    versions: map<string, seq<Version>>, cache: map<string, Entry>, readers: map<nat, Reader>,
    now: int, longest: int, answers: seq<Answer>)

  datatype Label =
    | Insert(order: T.Order)
    | SetStatus(id: string, status: T.OrderStatus)
    | Invalidate(id: string)
    | Tick(elapsed: nat)
    | Start(reader: nat, id: string)
    | LookUp(reader: nat, ok: bool)
    | Read(reader: nat, ok: bool)
    | Fill(reader: nat, ok: bool)

  function Initial(): State {
    State(map[], map[], map[], 0, 0, [])
  }

  predicate Stored(s: State, id: string) {
    id in s.versions && s.versions[id] != []
  }

  /** The row as it is now. */
  function Row(s: State, id: string): T.Order
    requires Stored(s, id)
  {
    s.versions[id][|s.versions[id]| - 1].order
  }

  predicate IsLive(s: State, id: string) {
    id in s.cache && s.now < s.cache[id].until
  }

  function Go(s: State, r: nat, reader: Reader): State {
    s.(readers := s.readers[r := reader])
  }

  function OnInsert(s: State, o: T.Order): State {
    if o.id in s.versions || !IsUuid(o.id) then s else s.(versions := s.versions[o.id := [Version(o, s.now)]])
  }

  function OnSetStatus(s: State, id: string, status: T.OrderStatus): State {
    if Stored(s, id) then
      s.(versions := s.versions[id := s.versions[id] + [Version(Row(s, id).(status := status), s.now)]])
    else s
  }

  function OnStart(s: State, r: nat, rawId: string): State {
    if r in s.readers && !s.readers[r].Done? then s
    else Go(s, r, if TrimSpace(rawId) == "" then Done else LookingUp(TrimSpace(rawId)))
  }

  /** An error of the cache counts as a miss. */
  function OnLookUp(s: State, r: nat, id: string, ok: bool): State {
    if ok && IsLive(s, id) then
      Go(s.(answers := s.answers + [Served(s.cache[id].order, s.now, s.cache[id].readAt, true)]), r, Done)
    else Go(s, r, Reading(id))
  }

  function OnRead(ttl: int, s: State, r: nat, id: string, ok: bool): State {
    if !ok || !Stored(s, id) then Go(s, r, Done)
    else if ttl > 0 then Go(s, r, Filling(Row(s, id), s.now))
    else Go(s.(answers := s.answers + [Served(Row(s, id), s.now, s.now, false)]), r, Done)
  }

  /** The order is returned whether the cache took it or not. */
  function OnFill(ttl: int, s: State, r: nat, o: T.Order, readAt: int, ok: bool): State {
    var gap := s.now - readAt;
    var s1 := s.(longest := if gap > s.longest then gap else s.longest,
                 answers := s.answers + [Served(o, s.now, readAt, false)],
                 cache := if ok then s.cache[o.id := Entry(o, s.now + ttl, readAt)] else s.cache);
    Go(s1, r, Done)
  }

  function ReaderStep(ttl: int, s: State, r: nat, reader: Reader, l: Label): State {
    match reader
    case LookingUp(id) => if l.LookUp? then OnLookUp(s, r, id, l.ok) else s
    case Reading(id) => if l.Read? then OnRead(ttl, s, r, id, l.ok) else s
    case Filling(o, readAt) => if l.Fill? then OnFill(ttl, s, r, o, readAt, l.ok) else s
    case Done => s
  }

  function Next(ttl: int, s: State, l: Label): State {
    match l
    case Insert(o) => OnInsert(s, o)
    case SetStatus(id, status) => OnSetStatus(s, id, status)
    case Invalidate(id) => s.(cache := s.cache - {id})
    case Tick(d) => s.(now := s.now + d)
    case Start(r, id) => OnStart(s, r, id)
    case _ => if l.reader in s.readers then ReaderStep(ttl, s, l.reader, s.readers[l.reader], l) else s
  }

  function Exec(ttl: int, s: State, trace: seq<Label>): State {
    if trace == [] then s
    else Next(ttl, Exec(ttl, s, trace[..|trace| - 1]), trace[|trace| - 1])
  }

  lemma ExecStep(ttl: int, s: State, trace: seq<Label>, l: Label)
    ensures Exec(ttl, s, trace + [l]) == Next(ttl, Exec(ttl, s, trace), l)
  {
    assert (trace + [l])[..|trace|] == trace;
  }

  // ----- Staleness ------------------------------------------------------------------------------

  /** The row had exactly this value at that time. */
  predicate HeldAt(s: State, o: T.Order, at: int) {
    o.id in s.versions &&
    exists k :: 0 <= k < |s.versions[o.id]| && s.versions[o.id][k].order == o && s.versions[o.id][k].since <= at <= s.now &&
      (k + 1 < |s.versions[o.id]| ==> at <= s.versions[o.id][k + 1].since)
  }

  predicate VersionsFit(s: State, id: string, vs: seq<Version>) {
    vs != [] && vs[|vs| - 1].since <= s.now && IsUuid(id) &&
    forall k :: 0 <= k < |vs| ==> vs[k].order.id == id && T.SameOrder(vs[k].order, vs[0].order)
  }

  predicate EntryFits(ttl: int, s: State, id: string, e: Entry) {
    e.order.id == id && HeldAt(s, e.order, e.readAt) && e.until - ttl <= s.now && e.until - ttl - e.readAt <= s.longest
  }

  predicate ReaderFits(s: State, reader: Reader) {
    match reader
    case Filling(o, readAt) => HeldAt(s, o, readAt)
    case _ => true
  }

  /** A database answer is at most the longest gap old; a cached one may be older by less than the ttl. */
  predicate AnswerFits(ttl: int, s: State, a: Answer) {
    HeldAt(s, a.order, a.readAt) && a.readAt <= a.at <= s.now &&
    (if a.fromCache then a.at - a.readAt < ttl + s.longest else a.at - a.readAt <= s.longest)
  }

  predicate Fits(ttl: int, s: State) {
    0 <= s.longest &&
    (forall id :: id in s.versions ==> VersionsFit(s, id, s.versions[id])) &&
    (forall id :: id in s.cache ==> EntryFits(ttl, s, id, s.cache[id])) &&
    (forall r :: r in s.readers ==> ReaderFits(s, s.readers[r])) &&
    (forall i :: 0 <= i < |s.answers| ==> AnswerFits(ttl, s, s.answers[i]))
  }

  /** Time passes, versions are only added (never in the past), and the longest gap only grows. */
  predicate Later(s: State, t: State) {
    s.now <= t.now && s.longest <= t.longest &&
    forall id :: id in s.versions ==>
      id in t.versions && s.versions[id] <= t.versions[id] &&
      (|s.versions[id]| < |t.versions[id]| ==> s.now <= t.versions[id][|s.versions[id]|].since)
  }

  lemma HeldLasts(s: State, t: State, o: T.Order, at: int)
    requires Later(s, t) && HeldAt(s, o, at)
    ensures HeldAt(t, o, at)
  {
    hide T.SameOrder;
    var k :| 0 <= k < |s.versions[o.id]| && s.versions[o.id][k].order == o && s.versions[o.id][k].since <= at <= s.now &&
      (k + 1 < |s.versions[o.id]| ==> at <= s.versions[o.id][k + 1].since);
    assert t.versions[o.id][k] == s.versions[o.id][k];
    if k + 1 < |s.versions[o.id]| {
      assert t.versions[o.id][k + 1] == s.versions[o.id][k + 1];
    }
  }

  lemma RowIsHeld(ttl: int, s: State, id: string)
    requires Fits(ttl, s) && Stored(s, id)
    ensures HeldAt(s, Row(s, id), s.now) && Row(s, id).id == id
  {
    hide HeldAt, EntryFits, AnswerFits, ReaderFits, IsUuid, T.SameOrder;
    assert VersionsFit(s, id, s.versions[id]);
    HeldByLast(s, id);
  }

  lemma HeldByLast(s: State, id: string)
    requires Stored(s, id) && VersionsFit(s, id, s.versions[id])
    ensures HeldAt(s, Row(s, id), s.now)
  {
    hide IsUuid, T.SameOrder;
    var k := |s.versions[id]| - 1;
    assert s.versions[id][k].order == Row(s, id);
  }

  /** A step is fine when it is later and whatever it adds fits. */
  lemma StepFits(ttl: int, s: State, t: State)
    requires Fits(ttl, s) && Later(s, t)
    requires forall id :: id in t.versions ==> VersionsFit(t, id, t.versions[id])
    requires forall id :: id in t.cache ==> (id in s.cache && t.cache[id] == s.cache[id]) || EntryFits(ttl, t, id, t.cache[id])
    requires forall r :: r in t.readers ==> (r in s.readers && t.readers[r] == s.readers[r]) || ReaderFits(t, t.readers[r])
    requires s.answers <= t.answers
    requires forall i :: |s.answers| <= i < |t.answers| ==> AnswerFits(ttl, t, t.answers[i])
    ensures Fits(ttl, t)
  {
    hide HeldAt, VersionsFit, Later;
    LaterNumbers(s, t);
    forall id | id in t.cache ensures EntryFits(ttl, t, id, t.cache[id]) {
      if id in s.cache && t.cache[id] == s.cache[id] {
        HeldLasts(s, t, s.cache[id].order, s.cache[id].readAt);
      }
    }
    forall r | r in t.readers ensures ReaderFits(t, t.readers[r]) {
      if r in s.readers && t.readers[r] == s.readers[r] && s.readers[r].Filling? {
        assert ReaderFits(s, s.readers[r]);
        HeldLasts(s, t, s.readers[r].order, s.readers[r].readAt);
      }
    }
    forall i | 0 <= i < |t.answers| ensures AnswerFits(ttl, t, t.answers[i]) {
      if i < |s.answers| {
        assert t.answers[i] == s.answers[i];
        HeldLasts(s, t, s.answers[i].order, s.answers[i].readAt);
      }
    }
  }

  lemma LaterNumbers(s: State, t: State)
    requires Later(s, t)
    ensures s.now <= t.now && s.longest <= t.longest
  {
  }

  /** A step that leaves the rows alone. */
  lemma QuietRows(ttl: int, s: State, t: State)
    requires Fits(ttl, s) && t.versions == s.versions && s.now <= t.now && s.longest <= t.longest
    ensures Later(s, t) && forall id :: id in t.versions ==> VersionsFit(t, id, t.versions[id])
  {
    hide HeldAt, EntryFits, AnswerFits, ReaderFits, IsUuid, T.SameOrder;
  }

  lemma InsertFits(ttl: int, s: State, o: T.Order)
    requires Fits(ttl, s)
    ensures Fits(ttl, OnInsert(s, o))
  {
    hide HeldAt, EntryFits, AnswerFits, ReaderFits, IsUuid;
    StepFits(ttl, s, OnInsert(s, o));
  }

  lemma SetStatusFits(ttl: int, s: State, id: string, status: T.OrderStatus)
    requires Fits(ttl, s)
    ensures Fits(ttl, OnSetStatus(s, id, status))
  {
    hide HeldAt, EntryFits, AnswerFits, ReaderFits, IsUuid;
    StepFits(ttl, s, OnSetStatus(s, id, status));
  }

  lemma LookUpFits(ttl: int, s: State, r: nat, id: string, ok: bool)
    requires Fits(ttl, s) && r in s.readers
    ensures Fits(ttl, OnLookUp(s, r, id, ok))
  {
    hide HeldAt, VersionsFit, Later;
    var t := OnLookUp(s, r, id, ok);
    QuietRows(ttl, s, t);
    if ok && IsLive(s, id) {
      var e := s.cache[id];
      assert EntryFits(ttl, s, id, e);
      HeldLasts(s, t, e.order, e.readAt);
      HeldIsPast(s, e.order, e.readAt);
    }
    StepFits(ttl, s, t);
  }

  lemma HeldIsPast(s: State, o: T.Order, at: int)
    requires HeldAt(s, o, at)
    ensures at <= s.now
  {
  }

  lemma ReadFits(ttl: int, s: State, r: nat, id: string, ok: bool)
    requires Fits(ttl, s) && r in s.readers
    ensures Fits(ttl, OnRead(ttl, s, r, id, ok))
  {
    hide HeldAt, VersionsFit, Later;
    var t := OnRead(ttl, s, r, id, ok);
    QuietRows(ttl, s, t);
    if ok && Stored(s, id) {
      RowIsHeld(ttl, s, id);
      HeldLasts(s, t, Row(s, id), s.now);
    }
    StepFits(ttl, s, t);
  }

  lemma FillFits(ttl: int, s: State, r: nat, o: T.Order, readAt: int, ok: bool)
    requires Fits(ttl, s) && r in s.readers && s.readers[r] == Filling(o, readAt)
    ensures Fits(ttl, OnFill(ttl, s, r, o, readAt, ok))
  {
    hide HeldAt, VersionsFit, Later;
    var t := OnFill(ttl, s, r, o, readAt, ok);
    QuietRows(ttl, s, t);
    assert ReaderFits(s, s.readers[r]);
    HeldLasts(s, t, o, readAt);
    HeldIsPast(s, o, readAt);
    StepFits(ttl, s, t);
  }

  lemma OtherFits(ttl: int, s: State, l: Label)
    requires Fits(ttl, s) && (l.Invalidate? || l.Tick? || l.Start?)
    ensures Fits(ttl, Next(ttl, s, l))
  {
    hide HeldAt, VersionsFit, Later, AnswerFits, EntryFits, TrimSpace, ReaderStep, OnInsert, OnSetStatus;
    QuietRows(ttl, s, Next(ttl, s, l));
    StepFits(ttl, s, Next(ttl, s, l));
  }

  lemma FitsStep(ttl: int, s: State, l: Label)
    requires Fits(ttl, s)
    ensures Fits(ttl, Next(ttl, s, l))
  {
    hide Fits, OnInsert, OnSetStatus, OnStart, OnLookUp, OnRead, OnFill;
    if l.Insert? {
      InsertFits(ttl, s, l.order);
    } else if l.SetStatus? {
      SetStatusFits(ttl, s, l.id, l.status);
    } else if l.Invalidate? || l.Tick? || l.Start? {
      OtherFits(ttl, s, l);
    } else if l.reader in s.readers {
      match s.readers[l.reader]
      case LookingUp(id) =>
        if l.LookUp? {
          LookUpFits(ttl, s, l.reader, id, l.ok);
        }
      case Reading(id) =>
        if l.Read? {
          ReadFits(ttl, s, l.reader, id, l.ok);
        }
      case Filling(o, readAt) =>
        if l.Fill? {
          FillFits(ttl, s, l.reader, o, readAt, l.ok);
        }
      case Done =>
    }
  }

  lemma {:induction false} AlwaysFits(ttl: int, trace: seq<Label>)
    ensures Fits(ttl, Exec(ttl, Initial(), trace))
  {
    hide Next;
    if trace != [] {
      AlwaysFits(ttl, trace[..|trace| - 1]);
      FitsStep(ttl, Exec(ttl, Initial(), trace[..|trace| - 1]), trace[|trace| - 1]);
    }
  }

  /** A step serves one order at most, at the time it is. */
  lemma ServesOne(ttl: int, s: State, l: Label)
    ensures var t := Next(ttl, s, l);
      t.answers == s.answers || (|t.answers| == |s.answers| + 1 && s.answers <= t.answers && t.answers[|s.answers|].at == t.now)
  {
    hide TrimSpace, IsUuid;
  }

  /** The moment at which an answer was served. */
  lemma {:induction false} WhenServed(ttl: int, trace: seq<Label>, i: nat) returns (n: nat)
    requires i < |Exec(ttl, Initial(), trace).answers|
    ensures n <= |trace|
    ensures var s, t := Exec(ttl, Initial(), trace), Exec(ttl, Initial(), trace[..n]);
      |t.answers| == i + 1 && t.answers <= s.answers && t.now == s.answers[i].at
  {
    hide Next;
    var before := trace[..|trace| - 1];
    var s := Exec(ttl, Initial(), before);
    ServesOne(ttl, s, trace[|trace| - 1]);
    if i < |s.answers| {
      n := WhenServed(ttl, before, i);
      assert before[..n] == trace[..n];
    } else {
      n := |trace|;
      assert trace[..n] == trace;
    }
  }

  /** Served with at most this age: less than the ttl more if it came from the cache. */
  predicate AgedAtMost(ttl: int, a: Answer, readAt: int, gap: int) {
    readAt <= a.at && if a.fromCache then a.at - readAt < gap + ttl else a.at - readAt <= gap
  }

  /** Whatever the interleaving of reads, fills, updates, failed deletes and expiry: an order served at time s was exactly the row's
      value at some time r, with s - r at most the longest gap between a read and its fill up to the moment it was served,
      plus less than the ttl when it came from the cache; and it agrees with the row of today on everything but the
      status. */
  lemma StalenessIsBounded(ttl: int, trace: seq<Label>, i: nat) returns (n: nat, readAt: int)
    requires i < |Exec(ttl, Initial(), trace).answers|
    ensures n <= |trace|
    ensures var s, moment := Exec(ttl, Initial(), trace), Exec(ttl, Initial(), trace[..n]);
      var a := s.answers[i];
      |moment.answers| == i + 1 && moment.now == a.at && HeldAt(s, a.order, readAt) && AgedAtMost(ttl, a, readAt, moment.longest)
    ensures var s := Exec(ttl, Initial(), trace);
      var a := s.answers[i];
      Stored(s, a.order.id) && T.SameOrder(a.order, Row(s, a.order.id)) &&
      exists k :: 0 <= k < |s.versions[a.order.id]| && s.versions[a.order.id][k].order == a.order
  {
    hide Exec, IsUuid, EntryFits, ReaderFits;
    AlwaysFits(ttl, trace);
    var s := Exec(ttl, Initial(), trace);
    n := WhenServed(ttl, trace, i);
    AlwaysFits(ttl, trace[..n]);
    var a := s.answers[i];
    readAt := a.readAt;
    assert AnswerFits(ttl, s, a) && AnswerFits(ttl, Exec(ttl, Initial(), trace[..n]), a);
    AnswerAgrees(ttl, s, a);
  }

  lemma AnswerAgrees(ttl: int, s: State, a: Answer)
    requires Fits(ttl, s) && AnswerFits(ttl, s, a)
    ensures Stored(s, a.order.id) && T.SameOrder(a.order, Row(s, a.order.id))
    ensures exists k :: 0 <= k < |s.versions[a.order.id]| && s.versions[a.order.id][k].order == a.order
  {
    hide IsUuid, EntryFits, ReaderFits;
    var id := a.order.id;
    assert VersionsFit(s, id, s.versions[id]);
    var k :| 0 <= k < |s.versions[id]| && s.versions[id][k].order == a.order;
    assert T.SameOrder(s.versions[id][k].order, s.versions[id][0].order);
    assert T.SameOrder(Row(s, id), s.versions[id][0].order);
  }

  // ----- Invalidation ---------------------------------------------------------------------------

  /** No reader is about to cache a value of the order other than this one. */
  predicate NoOldFill(s: State, id: string, o: T.Order) {
    forall r :: r in s.readers && s.readers[r].Filling? && s.readers[r].order.id == id ==> s.readers[r].order == o
  }

  /** The cached value, if any, is the row's. */
  predicate Coherent(s: State, id: string) {
    Stored(s, id) && (id in s.cache ==> s.cache[id].order == Row(s, id)) && NoOldFill(s, id, Row(s, id))
  }

  predicate NoWrites(trace: seq<Label>, id: string) {
    forall i :: 0 <= i < |trace| ==> !(trace[i].SetStatus? && trace[i].id == id)
  }

  /** From here on, as long as the order is not written again, every cache hit for it returns the row. */
  ghost predicate NeverStale(ttl: int, s: State, id: string) {
    forall trace :: NoWrites(trace, id) ==> HitsAreFresh(s, Exec(ttl, s, trace), id)
  }

  predicate HitsAreFresh(s: State, t: State, id: string) {
    Stored(s, id) && |s.answers| <= |t.answers| &&
    forall i :: |s.answers| <= i < |t.answers| && t.answers[i].fromCache && t.answers[i].order.id == id ==>
      t.answers[i].order == Row(s, id)
  }

  /** The order stays coherent, its row stays, and hits for it return that row. */
  predicate StaysCoherent(s: State, t: State, id: string) {
    Stored(s, id) && Coherent(t, id) && Row(t, id) == Row(s, id) && s.answers <= t.answers &&
    forall i :: |s.answers| <= i < |t.answers| && t.answers[i].fromCache && t.answers[i].order.id == id ==>
      t.answers[i].order == Row(s, id)
  }

  lemma LookUpCoherent(ttl: int, s: State, r: nat, x: string, ok: bool, id: string)
    requires Fits(ttl, s) && Coherent(s, id)
    ensures StaysCoherent(s, OnLookUp(s, r, x, ok), id)
  {
    hide HeldAt, AnswerFits, ReaderFits, VersionsFit;
    if x in s.cache {
      assert EntryFits(ttl, s, x, s.cache[x]);
    }
  }

  lemma ReadCoherent(ttl: int, s: State, r: nat, x: string, ok: bool, id: string)
    requires Fits(ttl, s) && Coherent(s, id)
    ensures StaysCoherent(s, OnRead(ttl, s, r, x, ok), id)
  {
    hide Fits;
    if Stored(s, x) {
      RowIsHeld(ttl, s, x);
    }
  }

  lemma FillCoherent(ttl: int, s: State, r: nat, o: T.Order, readAt: int, ok: bool, id: string)
    requires Coherent(s, id) && r in s.readers && s.readers[r] == Filling(o, readAt)
    ensures StaysCoherent(s, OnFill(ttl, s, r, o, readAt, ok), id)
  {
  }

  lemma RowsCoherent(s: State, l: Label, id: string)
    requires Coherent(s, id)
    ensures l.Insert? ==> StaysCoherent(s, OnInsert(s, l.order), id)
    ensures l.SetStatus? && l.id != id ==> StaysCoherent(s, OnSetStatus(s, l.id, l.status), id)
  {
    hide IsUuid;
  }

  lemma OtherCoherent(ttl: int, s: State, l: Label, id: string)
    requires Coherent(s, id) && (l.Invalidate? || l.Tick? || l.Start?)
    ensures StaysCoherent(s, Next(ttl, s, l), id)
  {
    hide TrimSpace;
  }

  lemma CoherentStep(ttl: int, s: State, l: Label, id: string)
    requires Fits(ttl, s) && Coherent(s, id) && !(l.SetStatus? && l.id == id)
    ensures StaysCoherent(s, Next(ttl, s, l), id)
  {
    assert StaysCoherent(s, s, id);
    hide Fits, Coherent, OnInsert, OnSetStatus, OnStart, OnLookUp, OnRead, OnFill, StaysCoherent;
    if l.Insert? || l.SetStatus? {
      RowsCoherent(s, l, id);
    } else if l.Invalidate? || l.Tick? || l.Start? {
      OtherCoherent(ttl, s, l, id);
    } else if l.reader in s.readers {
      match s.readers[l.reader]
      case LookingUp(x) =>
        if l.LookUp? {
          LookUpCoherent(ttl, s, l.reader, x, l.ok, id);
        }
      case Reading(x) =>
        if l.Read? {
          ReadCoherent(ttl, s, l.reader, x, l.ok, id);
        }
      case Filling(o, readAt) =>
        if l.Fill? {
          FillCoherent(ttl, s, l.reader, o, readAt, l.ok, id);
        }
      case Done =>
    }
  }

  lemma {:induction false} CoherentLasts(ttl: int, s: State, trace: seq<Label>, id: string)
    requires Fits(ttl, s) && Coherent(s, id) && NoWrites(trace, id)
    ensures var t := Exec(ttl, s, trace);
      Fits(ttl, t) && Coherent(t, id) && Row(t, id) == Row(s, id) && HitsAreFresh(s, t, id)
  {
    hide Fits, Next;
    if trace != [] {
      var before, l := trace[..|trace| - 1], trace[|trace| - 1];
      CoherentLasts(ttl, s, before, id);
      var m := Exec(ttl, s, before);
      CoherentStep(ttl, m, l, id);
      FitsStep(ttl, m, l);
    }
  }

  /** The reader that read before the update fills after the delete, and the next GET serves the old value. */
  lemma OldFillIsServed(ttl: int, s: State, id: string, r: nat)
    requires ttl > 0 && Fits(ttl, s) && Stored(s, id)
    requires r in s.readers && s.readers[r].Filling? && s.readers[r].order.id == id && s.readers[r].order != Row(s, id)
    ensures !NeverStale(ttl, s, id)
  {
    hide HeldAt, AnswerFits, ReaderFits, EntryFits, IsUuid, TrimSpace, T.SameOrder, Exec;
    assert VersionsFit(s, id, s.versions[id]);
    UuidIsTrimmed(id);
    var o := s.readers[r].order;
    var trace: seq<Label> := [Fill(r, true), Start(r, id), LookUp(r, true)];
    var s1 := Next(ttl, s, Fill(r, true));
    var s2 := Next(ttl, s1, Start(r, id));
    var s3 := Next(ttl, s2, LookUp(r, true));
    ExecOfThree(ttl, s, Fill(r, true), Start(r, id), LookUp(r, true));
    assert s2.readers[r] == LookingUp(id) && s2.cache[id].order == o;
    assert s3.answers[|s.answers| + 1] == Served(o, s.now, s2.cache[id].readAt, true);
    assert NoWrites(trace, id);
    assert !HitsAreFresh(s, Exec(ttl, s, trace), id);
  }

  lemma ExecOfThree(ttl: int, s: State, a: Label, b: Label, c: Label)
    ensures Exec(ttl, s, [a, b, c]) == Next(ttl, Next(ttl, Next(ttl, s, a), b), c)
  {
    hide Next;
    ExecStep(ttl, s, [], a);
    ExecStep(ttl, s, [a], b);
    ExecStep(ttl, s, [a, b], c);
    assert [] + [a] == [a] && [a] + [b] == [a, b] && [a, b] + [c] == [a, b, c];
  }

  /** After any run that ends in a delete of the key, "the next GET cannot return stale status" holds, until the order is
      written again, exactly when no reader is holding an older value that it has read and not yet cached. */
  lemma DeleteEndsStalenessIff(ttl: int, trace: seq<Label>, id: string)
    requires ttl > 0
    requires Stored(Exec(ttl, Initial(), trace + [Invalidate(id)]), id)
    ensures var s := Exec(ttl, Initial(), trace + [Invalidate(id)]); NeverStale(ttl, s, id) <==> NoOldFill(s, id, Row(s, id))
  {
    hide Exec, Fits, NoOldFill, NeverStale;
    var s := Exec(ttl, Initial(), trace + [Invalidate(id)]);
    AlwaysFits(ttl, trace + [Invalidate(id)]);
    ExecStep(ttl, Initial(), trace, Invalidate(id));
    assert id !in s.cache;
    NeverStaleIff(ttl, s, id);
  }

  lemma NeverStaleIff(ttl: int, s: State, id: string)
    requires ttl > 0 && Fits(ttl, s) && Stored(s, id) && id !in s.cache
    ensures NeverStale(ttl, s, id) <==> NoOldFill(s, id, Row(s, id))
  {
    hide Fits, Exec;
    if NoOldFill(s, id, Row(s, id)) {
      forall trace | NoWrites(trace, id) ensures HitsAreFresh(s, Exec(ttl, s, trace), id) {
        CoherentLasts(ttl, s, trace, id);
      }
    } else {
      var r :| r in s.readers && s.readers[r].Filling? && s.readers[r].order.id == id && s.readers[r].order != Row(s, id);
      OldFillIsServed(ttl, s, id, r);
    }
  }

  // ----- What the cache can and cannot do to a reader -------------------------------------------

  /** Only a failed read of the database leaves the reader of a stored order unserved: it is served the live entry if the cache gives it, and the row
      otherwise, whatever becomes of the cache's own calls; and a row that has been read is the entry from then on, for one ttl, if the
      cache takes it. */
  lemma ReaderIsServed(ttl: int, s: State, r: nat, rawId: string, hit: bool, read: bool, filled: bool)
    requires Fits(ttl, s) && r !in s.readers && TrimSpace(rawId) != "" && Stored(s, TrimSpace(rawId))
    ensures var id := TrimSpace(rawId);
      var t := Next(ttl, Next(ttl, Next(ttl, Next(ttl, s, Start(r, rawId)), LookUp(r, hit)), Read(r, read)), Fill(r, filled));
      t.versions == s.versions && t.now == s.now && r in t.readers && t.readers[r].Done? &&
      if hit && id in s.cache && s.now < s.cache[id].until then
        t.answers == s.answers + [Served(s.cache[id].order, s.now, s.cache[id].readAt, true)] && t.cache == s.cache
      else if !read then t.answers == s.answers && t.cache == s.cache
      else
        t.answers == s.answers + [Served(Row(s, id), s.now, s.now, false)] &&
        t.cache == if filled && ttl > 0 then s.cache[id := Entry(Row(s, id), s.now + ttl, s.now)] else s.cache
  {
    hide TrimSpace, HeldAt, EntryFits, AnswerFits, ReaderFits, IsUuid, T.SameOrder;
    assert VersionsFit(s, TrimSpace(rawId), s.versions[TrimSpace(rawId)]);
  }
}
