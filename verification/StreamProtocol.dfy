/** The stream of order updates as a step system: the handlers of any number of clients, each a read, a registration, a first
    send and perhaps a removal; and the monitor, whose rounds poll the subscribed orders, read the slice of
    subscribers on a change and hand the update to each of its cells. Every locked section and every hand-over is a
    step of its own, and the rows change at any time. The lock covers the slice's header only: the loop reads the
    cells of the array as they are when it comes to them. What order the sends take on a stream is not modelled. */
module StreamProtocol {
  import opened Subscriptions
  import opened Text
  import T = OrderTransactions

  // ----- The monitor ----------------------------------------------------------------------------

  /** A successful poll of an order, or a status handed to notifySubscribers. */
  datatype Sighting = Sighting(id: string, status: T.OrderStatus)

  /** The statuses seen of one order, in order. */
  function Of(seen: seq<Sighting>, id: string): seq<T.OrderStatus> {
    if seen == [] then []
    else Of(seen[..|seen| - 1], id) + if seen[|seen| - 1].id == id then [seen[|seen| - 1].status] else []
  }

  /** Consecutive repeats removed. */
  function Changes(statuses: seq<T.OrderStatus>): seq<T.OrderStatus> {
    if |statuses| <= 1 then statuses
    else if statuses[0] == statuses[1] then Changes(statuses[1..])
    else [statuses[0]] + Changes(statuses[1..])
  }

  function Tail(statuses: seq<T.OrderStatus>): seq<T.OrderStatus> {
    if statuses == [] then [] else statuses[1..]
  }

  /** One more poll is one more change, unless it repeats the last. */
  lemma {:induction false} ChangesGrow(statuses: seq<T.OrderStatus>, status: T.OrderStatus)
    ensures Changes(statuses + [status]) ==
            if statuses != [] && statuses[|statuses| - 1] == status then Changes(statuses) else Changes(statuses) + [status]
    ensures statuses != [] ==> Changes(statuses) != []
  {
    if |statuses| <= 1 {
      assert statuses == [] ==> statuses + [status] == [status];
      assert |statuses| == 1 ==> (statuses + [status])[1..] == [status];
    } else {
      ChangesGrow(statuses[1..], status);
      assert (statuses + [status])[1..] == statuses[1..] + [status];
    }
  }

  lemma OfGrows(seen: seq<Sighting>, x: Sighting, id: string)
    ensures Of(seen + [x], id) == Of(seen, id) + if x.id == id then [x.status] else []
  {
    assert (seen + [x])[..|seen|] == seen;
  }

  /** What the monitor remembers and has announced of one order: the latest status polled, and every change but the first. */
  predicate TracksOne(polls: seq<Sighting>, last: map<string, T.OrderStatus>, notes: seq<Sighting>, id: string) {
    var polled := Of(polls, id);
    (if id in last then polled != [] && last[id] == polled[|polled| - 1] else polled == []) &&
    Of(notes, id) == Tail(Changes(polled))
  }

  ghost predicate Tracks(polls: seq<Sighting>, last: map<string, T.OrderStatus>, notes: seq<Sighting>) {
    forall id :: TracksOne(polls, last, notes, id)
  }

  function Noted(last: map<string, T.OrderStatus>, notes: seq<Sighting>, x: Sighting): seq<Sighting> {
    if x.id in last && last[x.id] != x.status then notes + [x] else notes
  }

  /** Another order's poll changes nothing for this one. */
  lemma TracksOther(polls: seq<Sighting>, last: map<string, T.OrderStatus>, notes: seq<Sighting>, x: Sighting, id: string)
    requires TracksOne(polls, last, notes, id) && x.id != id
    ensures TracksOne(polls + [x], last[x.id := x.status], Noted(last, notes, x), id)
  {
    OfGrows(polls, x, id);
    OfGrows(notes, x, id);
    hide Of, Changes;
    assert Of(polls, id) + [] == Of(polls, id) && Of(notes, id) + [] == Of(notes, id);
  }

  /** The branch of checkForUpdates that a poll takes is the right one. */
  lemma TracksThis(polls: seq<Sighting>, last: map<string, T.OrderStatus>, notes: seq<Sighting>, x: Sighting)
    requires TracksOne(polls, last, notes, x.id)
    ensures TracksOne(polls + [x], last[x.id := x.status], Noted(last, notes, x), x.id)
  {
    var polled := Of(polls, x.id);
    OfGrows(polls, x, x.id);
    OfGrows(notes, x, x.id);
    hide Of;
    ChangesGrow(polled, x.status);
    if polled == [] {
      assert Changes(polled) == [];
      assert Of(notes, x.id) + [] == Of(notes, x.id);
    } else {
      hide Changes;
      assert Tail(Changes(polled) + [x.status]) == Tail(Changes(polled)) + [x.status];
    }
  }

  lemma TracksOn(polls: seq<Sighting>, last: map<string, T.OrderStatus>, notes: seq<Sighting>, x: Sighting)
    requires Tracks(polls, last, notes)
    ensures Tracks(polls + [x], last[x.id := x.status], Noted(last, notes, x))
  {
    hide TracksOne;
    var polls', last', notes' := polls + [x], last[x.id := x.status], Noted(last, notes, x);
    forall id ensures TracksOne(polls', last', notes', id) {
      if id == x.id {
        TracksThis(polls, last, notes, x);
      } else {
        TracksOther(polls, last, notes, x, id);
      }
    }
  }

  datatype Memory = Memory(last: map<string, T.OrderStatus>, notes: seq<Sighting>)

  /** The monitor's memory and announcements after these polls, over any number of rounds. */
  function After(polls: seq<Sighting>): Memory {
    if polls == [] then Memory(map[], [])
    else
      var m, x := After(polls[..|polls| - 1]), polls[|polls| - 1];
      Memory(m.last[x.id := x.status], Noted(m.last, m.notes, x))
  }

  lemma AfterOneMore(polls: seq<Sighting>, x: Sighting)
    ensures var m := After(polls); After(polls + [x]) == Memory(m.last[x.id := x.status], Noted(m.last, m.notes, x))
  {
    assert (polls + [x])[..|polls|] == polls;
  }

  /** Over any sequence of polls, the statuses announced for an order are its polled statuses with consecutive repeats removed and the
      baseline dropped, and the status remembered is the latest one polled. */
  lemma {:induction false} ChangesAreAnnounced(polls: seq<Sighting>)
    ensures Tracks(polls, After(polls).last, After(polls).notes)
  {
    if polls != [] {
      var before, x := polls[..|polls| - 1], polls[|polls| - 1];
      ChangesAreAnnounced(before);
      hide Tracks;
      TracksOn(before, After(before).last, After(before).notes, x);
      assert before + [x] == polls;
    }
  }

  lemma {:induction false} ChangesEnd(statuses: seq<T.OrderStatus>)
    requires statuses != []
    ensures Changes(statuses) != [] && Changes(statuses)[|Changes(statuses)| - 1] == statuses[|statuses| - 1]
    ensures |Changes(statuses)| == 1 <==> forall i :: 0 <= i < |statuses| ==> statuses[i] == statuses[0]
  {
    if |statuses| > 1 {
      ChangesEnd(statuses[1..]);
      assert statuses[1..][|statuses| - 2] == statuses[|statuses| - 1];
      assert forall i :: 1 <= i < |statuses| ==> statuses[i] == statuses[1..][i - 1];
    }
  }


  // ----- The step system ------------------------------------------------------------------------

  datatype Greeting = Due | Sent | Failed

  /** `told`, `seen` and `pending` are history, no step looks at them: how many announcements of the order are not for this client,
      how many times it had been polled at the registration, and whether an announcement was then on its way to
      the list. */
  datatype Client =
    | Registering(id: string, snapshot: T.OrderStatus)
    | Listed(id: string, snapshot: T.OrderStatus, told: nat, seen: nat, pending: bool, greeting: Greeting)
    | Gone(id: string)
    | Refused

  datatype Monitor =
    | Polling(left: set<string>)
    | Announcing(x: Sighting, left: set<string>)                            // about to read the list
    | Handing(x: Sighting, buf: nat, len: nat, next: nat, left: set<string>)  // the slice that was read, and the loop's index

  datatype Handover = Handover(to: Subscriber, status: T.OrderStatus, greeting: bool)

  /** `ops`, `polls` and `notes` are history. */
  datatype State = State(
    rows: map<string, T.OrderStatus>, table: Table, ops: seq<Op>, clients: map<nat, Client>, monitor: Monitor,
    last: map<string, T.OrderStatus>, polls: seq<Sighting>, notes: seq<Sighting>, handed: seq<Handover>)

  datatype Label =
    | SetRow(id: string, status: T.OrderStatus)
    | Open(client: nat, id: string, ok: bool)
    | Register(client: nat, room: nat)                                        // the spare capacity, if append allocates
    | Greet(client: nat, ok: bool)
    | Leave(client: nat)
    | StartRound
    | Poll(id: string, ok: bool)
    | ReadList
    | Hand

  function Initial(): State {
    State(map[], Table([], map[]), [], map[], Polling({}), map[], [], [], [])
  }

  function Go(s: State, c: nat, client: Client): State {
    s.(clients := s.clients[c := client])
  }

  /** The order must exist; its status is what the client will be sent first. */
  function OnOpen(s: State, c: nat, id: string, ok: bool): State {
    if c in s.clients then s
    else Go(s, c, if ok && id != "" && id in s.rows then Registering(id, s.rows[id]) else Refused)
  }

  predicate PendingFor(m: Monitor, id: string) {
    m.Announcing? && m.x.id == id
  }

  function OnRegister(s: State, c: nat, id: string, snapshot: T.OrderStatus, room: nat): State {
    var notes := |Of(s.notes, id)|;
    var pending := PendingFor(s.monitor, id);
    Go(s.(table := Appended(s.table, Subscriber(c, id), room), ops := s.ops + [Subscribe(Subscriber(c, id))]), c,
       Listed(id, snapshot, if pending && notes > 0 then notes - 1 else notes, |Of(s.polls, id)|, pending, Due))
  }

  /** A failed first send returns without a removal. */
  function OnGreet(s: State, c: nat, client: Client, ok: bool): State
    requires client.Listed?
  {
    if ok then
      Go(s.(handed := s.handed + [Handover(Subscriber(c, client.id), client.snapshot, true)]), c, client.(greeting := Sent))
    else Go(s, c, client.(greeting := Failed))
  }

  /** Some announcement was handed to this subscriber. */
  predicate WasHanded(handed: seq<Handover>, who: Subscriber) {
    exists i :: 0 <= i < |handed| && handed[i].to == who && !handed[i].greeting
  }

  /** The handler goes on when the send of an announcement has failed. */
  function OnLeave(s: State, c: nat, id: string): State {
    Go(s.(table := Removed(s.table, Subscriber(c, id)), ops := s.ops + [Remove(Subscriber(c, id))]), c, Gone(id))
  }

  function OnPoll(s: State, id: string, ok: bool, left: set<string>): State {
    if !ok || id !in s.rows then s.(monitor := Polling(left - {id}))
    else
      var x := Sighting(id, s.rows[id]);
      var announces := id in s.last && s.last[id] != x.status;
      s.(polls := s.polls + [x], last := s.last[id := x.status], notes := Noted(s.last, s.notes, x),
         monitor := if announces then Announcing(x, left - {id}) else Polling(left - {id}))
  }

  /** subs[id], read under the lock: the header, not the cells. */
  function OnReadList(s: State, x: Sighting, left: set<string>): State {
    var r := if x.id in s.table.subs then s.table.subs[x.id] else Ref(0, 0);
    s.(monitor := Handing(x, r.buf, r.len, 0, left))
  }

  /** The cells that the loop has yet to read, as they are now. */
  function Unread(s: State): seq<Subscriber> {
    if s.monitor.Handing? then
      var items := At(s.table, s.monitor.buf).items;
      if s.monitor.next <= s.monitor.len <= |items| then items[s.monitor.next..s.monitor.len] else []
    else []
  }

  /** The next cell is read and its subscriber handed the update, or the loop is over. */
  function OnHand(s: State): State
    requires s.monitor.Handing?
  {
    var m := s.monitor;
    if Unread(s) == [] then s.(monitor := Polling(m.left))
    else s.(handed := s.handed + [Handover(Unread(s)[0], m.x.status, false)], monitor := m.(next := m.next + 1))
  }

  function ClientStep(s: State, c: nat, client: Client, l: Label): State {
    match client
    case Registering(id, snapshot) => if l.Register? then OnRegister(s, c, id, snapshot, l.room) else s
    case Listed(id, _, _, _, _, greeting) =>
      if l.Greet? && greeting.Due? then OnGreet(s, c, client, l.ok)
      else if l.Leave? && greeting.Sent? && WasHanded(s.handed, Subscriber(c, id)) then OnLeave(s, c, id)
      else s
    case _ => s
  }

  function MonitorStep(s: State, l: Label): State {
    match s.monitor
    case Polling(left) =>
      if l.StartRound? && left == {} then s.(monitor := Polling(s.table.subs.Keys))
      else if l.Poll? && l.id in left then OnPoll(s, l.id, l.ok, left)
      else s
    case Announcing(x, left) => if l.ReadList? then OnReadList(s, x, left) else s
    case Handing(_, _, _, _, _) => if l.Hand? then OnHand(s) else s
  }

  function Next(s: State, l: Label): State {
    if l.SetRow? then s.(rows := s.rows[l.id := l.status])
    else if l.Open? then OnOpen(s, l.client, l.id, l.ok)
    else if l.Register? || l.Greet? || l.Leave? then
      if l.client in s.clients then ClientStep(s, l.client, s.clients[l.client], l) else s
    else MonitorStep(s, l)
  }

  function Exec(s: State, trace: seq<Label>): State {
    if trace == [] then s
    else Next(Exec(s, trace[..|trace| - 1]), trace[|trace| - 1])
  }

  lemma ExecStep(s: State, trace: seq<Label>, l: Label)
    ensures Exec(s, trace + [l]) == Next(Exec(s, trace), l)
  {
    assert (trace + [l])[..|trace|] == trace;
  }

  // ----- What has been handed to one subscriber ---------------------------------------------------

  /** The statuses handed to this subscriber, in order: its first send, or the announcements. */
  function Got(handed: seq<Handover>, who: Subscriber, greeting: bool): seq<T.OrderStatus> {
    if handed == [] then []
    else
      var h := handed[|handed| - 1];
      Got(handed[..|handed| - 1], who, greeting) + if h.to == who && h.greeting == greeting then [h.status] else []
  }

  lemma GotGrows(handed: seq<Handover>, h: Handover, who: Subscriber, greeting: bool)
    ensures Got(handed + [h], who, greeting) ==
            Got(handed, who, greeting) + if h.to == who && h.greeting == greeting then [h.status] else []
  {
    assert (handed + [h])[..|handed|] == handed;
  }

  /** The announcement on its way to this subscriber. */
  function InFlight(s: State, who: Subscriber): seq<T.OrderStatus> {
    match s.monitor
    case Polling(_) => []
    case Announcing(x, _) => if x.id == who.orderId then [x.status] else []
    case Handing(x, _, _, _, _) => if who in Unread(s) then [x.status] else []
  }

  // ----- The invariant --------------------------------------------------------------------------

  predicate KnownAs(s: State, who: Subscriber) {
    who.handle in s.clients &&
    match s.clients[who.handle]
    case Listed(id, _, _, _, _, _) => id == who.orderId
    case Gone(id) => id == who.orderId
    case _ => false
  }

  predicate IsListed(s: State, who: Subscriber) {
    KnownAs(s, who) && s.clients[who.handle].Listed?
  }

  /** The registry lists exactly the listed clients, each added once. */
  ghost predicate RegistryFits(s: State) {
    AddedOnce(s.ops) && (forall i :: 0 <= i < |s.ops| && s.ops[i].Subscribe? ==> KnownAs(s, s.ops[i].who)) &&
    forall who: Subscriber :: who in ListOf(ApplyAll(s.ops), who.orderId) <==> IsListed(s, who)
  }

  /** Whatever a cell of any array holds was added once. */
  predicate CellsKnown(s: State) {
    forall k, i :: 0 <= k < |s.table.arrays| && 0 <= i < |s.table.arrays[k].items| ==> KnownAs(s, s.table.arrays[k].items[i])
  }

  ghost predicate TableFits(s: State) {
    Shows(s.table, ApplyAll(s.ops)) && CellsKnown(s)
  }

  /** The slice that the loop runs over lies in an array of its order. */
  predicate MonitorFits(s: State) {
    match s.monitor
    case Polling(_) => true
    case Announcing(x, _) => Of(s.notes, x.id) != [] && Of(s.notes, x.id)[|Of(s.notes, x.id)| - 1] == x.status
    case Handing(x, k, len, next, _) =>
      next <= len && (len > 0 ==> k < |s.table.arrays| && s.table.arrays[k].owner == x.id && len <= |s.table.arrays[k].items|)
  }

  predicate HandedFits(s: State) {
    forall i :: 0 <= i < |s.handed| ==> KnownAs(s, s.handed[i].to)
  }

  predicate Recorded(s: State, client: Client)
    requires client.Listed?
  {
    var polled := Of(s.polls, client.id);
    client.seen <= |polled| && client.told + (if client.pending then 1 else 0) == |Tail(Changes(polled[..client.seen]))|
  }

  predicate Greeted(s: State, c: nat, client: Client)
    requires client.Listed?
  {
    Got(s.handed, Subscriber(c, client.id), true) == if client.greeting.Sent? then [client.snapshot] else []
  }

  predicate ClientsFit(s: State) {
    forall c :: c in s.clients && s.clients[c].Listed? ==> Recorded(s, s.clients[c]) && Greeted(s, c, s.clients[c])
  }

  ghost predicate Fits(s: State) {
    Memory(s.last, s.notes) == After(s.polls) && RegistryFits(s) && TableFits(s) && MonitorFits(s) && HandedFits(s) && ClientsFit(s)
  }

  // ----- Steps: the registry --------------------------------------------------------------------

  lemma {:induction false} DropFirstMembers(list: seq<Subscriber>, who: Subscriber, x: Subscriber)
    requires Distinct(list)
    ensures x in DropFirst(list, who) <==> x in list && x != who
  {
    if list != [] {
      DropFirstMembers(list[1..], who, x);
      assert x in list <==> x == list[0] || x in list[1..];
    }
  }

  lemma AppliedLast(ops: seq<Op>, op: Op)
    ensures ApplyAll(ops + [op]) == Apply(ApplyAll(ops), op)
  {
    assert (ops + [op])[..|ops|] == ops;
  }

  lemma SubscribeLists(v: View, who: Subscriber, x: Subscriber)
    ensures x in ListOf(Apply(v, Subscribe(who)), x.orderId) <==> x in ListOf(v, x.orderId) || x == who
  {
  }

  lemma RemoveLists(v: View, who: Subscriber, x: Subscriber)
    requires Distinct(ListOf(v, who.orderId))
    ensures x in ListOf(Apply(v, Remove(who)), x.orderId) <==> x in ListOf(v, x.orderId) && x != who
  {
    DropFirstMembers(ListOf(v, who.orderId), who, x);
    hide DropFirst, Distinct;
  }

  lemma ListsAreDistinct(s: State, id: string)
    requires RegistryFits(s)
    ensures var list := ListOf(ApplyAll(s.ops), id);
      Distinct(list) && forall i :: 0 <= i < |list| ==> list[i].orderId == id && KnownAs(s, list[i])
  {
    hide ApplyAll, AddedOnce, Survivors;
    RegistryHoldsSurvivors(s.ops);
    var list := ListOf(ApplyAll(s.ops), id);
    assert Holds(ApplyAll(s.ops), id, Survivors(s.ops, id));
    assert list == Survivors(s.ops, id);
    forall i | 0 <= i < |list| ensures list[i].orderId == id && KnownAs(s, list[i]) {
      assert list[i] in list;
    }
  }

  lemma RegisterRegistry(s: State, c: nat, id: string, snapshot: T.OrderStatus, room: nat)
    requires RegistryFits(s) && c in s.clients && s.clients[c] == Registering(id, snapshot)
    ensures RegistryFits(OnRegister(s, c, id, snapshot, room))
  {
    hide ApplyAll, Apply, ListOf, Of;
    var t, who := OnRegister(s, c, id, snapshot, room), Subscriber(c, id);
    AppliedLast(s.ops, Subscribe(who));
    forall x: Subscriber ensures x in ListOf(ApplyAll(t.ops), x.orderId) <==> IsListed(t, x) {
      SubscribeLists(ApplyAll(s.ops), who, x);
    }
    assert !KnownAs(s, who);
  }

  lemma LeaveKnows(s: State, c: nat, id: string, x: Subscriber)
    requires c in s.clients && s.clients[c].Listed? && s.clients[c].id == id
    ensures var t := OnLeave(s, c, id);
      (KnownAs(t, x) <==> KnownAs(s, x)) && (IsListed(t, x) <==> IsListed(s, x) && x != Subscriber(c, id))
  {
  }

  lemma LeaveRegistry(s: State, c: nat, id: string)
    requires RegistryFits(s) && c in s.clients && s.clients[c].Listed? && s.clients[c].id == id
    ensures RegistryFits(OnLeave(s, c, id))
  {
    ListsAreDistinct(s, id);
    hide ApplyAll, Apply, ListOf, Distinct, KnownAs, IsListed;
    var t, who := OnLeave(s, c, id), Subscriber(c, id);
    AppliedLast(s.ops, Remove(who));
    forall x: Subscriber ensures x in ListOf(ApplyAll(t.ops), x.orderId) <==> IsListed(t, x) {
      RemoveLists(ApplyAll(s.ops), who, x);
      LeaveKnows(s, c, id, x);
    }
    forall i | 0 <= i < |t.ops| && t.ops[i].Subscribe? ensures KnownAs(t, t.ops[i].who) {
      LeaveKnows(s, c, id, s.ops[i].who);
    }
    LeaveAddsNothing(s.ops, who);
  }

  lemma LeaveAddsNothing(ops: seq<Op>, who: Subscriber)
    requires AddedOnce(ops)
    ensures AddedOnce(ops + [Remove(who)])
  {
  }

  /** A client that moves without being added or removed. */
  lemma SameRegistry(s: State, t: State)
    requires RegistryFits(s) && t.ops == s.ops
    requires forall who :: (KnownAs(t, who) <==> KnownAs(s, who)) && (IsListed(t, who) <==> IsListed(s, who))
    ensures RegistryFits(t)
  {
    hide ApplyAll, KnownAs, IsListed, AddedOnce, ListOf;
  }

  // ----- Steps: the arrays ----------------------------------------------------------------------

  lemma KnownStays(s: State, t: State)
    requires CellsKnown(s) && HandedFits(s) && t.table == s.table && t.handed == s.handed
    requires forall who :: KnownAs(s, who) ==> KnownAs(t, who)
    ensures CellsKnown(t) && HandedFits(t)
  {
    hide KnownAs;
  }

  lemma RegisterKnows(s: State, c: nat, id: string, snapshot: T.OrderStatus, room: nat)
    requires CellsKnown(s) && Shows(s.table, ApplyAll(s.ops)) && c in s.clients && s.clients[c] == Registering(id, snapshot)
    ensures CellsKnown(OnRegister(s, c, id, snapshot, room))
  {
    hide ApplyAll, Of, Written;
    var t, who := OnRegister(s, c, id, snapshot, room), Subscriber(c, id);
    assert KnownAs(t, who) && forall x :: KnownAs(s, x) ==> KnownAs(t, x);
    assert t.table == Appended(s.table, who, room);
    hide KnownAs, OnRegister;
    forall k, i | 0 <= k < |t.table.arrays| && 0 <= i < |t.table.arrays[k].items| ensures KnownAs(t, t.table.arrays[k].items[i]) {
      if k < |s.table.arrays| {
        AppendedCell(s.table, ApplyAll(s.ops), who, room, k, i);
      } else {
        assert RefFits(s.table, id, ApplyAll(s.ops));
      }
    }
  }

  lemma LeaveCells(s: State, c: nat, id: string)
    requires CellsKnown(s) && Shows(s.table, ApplyAll(s.ops)) && c in s.clients && s.clients[c].Listed? && s.clients[c].id == id
    ensures CellsKnown(OnLeave(s, c, id))
  {
    hide ApplyAll, Removed, Shifts, Shows;
    var t, who := OnLeave(s, c, id), Subscriber(c, id);
    assert forall x :: KnownAs(s, x) ==> KnownAs(t, x);
    assert t.table == Removed(s.table, who);
    hide KnownAs, OnLeave;
    if s.table.arrays == [] {
      NothingRemoved(s.table, ApplyAll(s.ops), who);
    } else {
      RemovedArray(s.table, ApplyAll(s.ops), who, 0);
    }
    forall k, i | 0 <= k < |t.table.arrays| && 0 <= i < |t.table.arrays[k].items| ensures KnownAs(t, t.table.arrays[k].items[i]) {
      RemovedArray(s.table, ApplyAll(s.ops), who, k);
      RemovedCell(s.table, ApplyAll(s.ops), who, k, i);
    }
  }

  lemma NothingRemoved(t: Table, v: View, who: Subscriber)
    requires Shows(t, v) && t.arrays == []
    ensures Removed(t, who) == t
  {
    assert RefFits(t, who.orderId, v);
  }

  /** The loop's slice stays inside its array. */
  lemma RegisterMonitor(s: State, c: nat, id: string, snapshot: T.OrderStatus, room: nat)
    requires MonitorFits(s) && Shows(s.table, ApplyAll(s.ops))
    ensures MonitorFits(OnRegister(s, c, id, snapshot, room))
  {
    hide ApplyAll, Of, Appended, Shows;
    if s.monitor.Handing? && s.monitor.len > 0 {
      AppendedArray(s.table, ApplyAll(s.ops), Subscriber(c, id), room, s.monitor.buf);
    }
  }

  lemma LeaveMonitor(s: State, c: nat, id: string)
    requires MonitorFits(s) && Shows(s.table, ApplyAll(s.ops))
    ensures MonitorFits(OnLeave(s, c, id))
  {
    hide ApplyAll, Of, Removed, Shows;
    if s.monitor.Handing? && s.monitor.len > 0 {
      RemovedArray(s.table, ApplyAll(s.ops), Subscriber(c, id), s.monitor.buf);
    }
  }

  lemma RegisterTable(s: State, c: nat, id: string, snapshot: T.OrderStatus, room: nat)
    requires TableFits(s) && c in s.clients && s.clients[c] == Registering(id, snapshot)
    ensures TableFits(OnRegister(s, c, id, snapshot, room))
  {
    hide Shows, CellsKnown, ApplyAll, Apply, Of, Appended;
    RegisterKnows(s, c, id, snapshot, room);
    AppendedShows(s.table, ApplyAll(s.ops), Subscriber(c, id), room);
    AppliedLast(s.ops, Subscribe(Subscriber(c, id)));
  }

  lemma LeaveTable(s: State, c: nat, id: string)
    requires TableFits(s) && c in s.clients && s.clients[c].Listed? && s.clients[c].id == id
    ensures TableFits(OnLeave(s, c, id))
  {
    hide Shows, CellsKnown, ApplyAll, Apply, Of, Removed;
    LeaveCells(s, c, id);
    RemovedShows(s.table, ApplyAll(s.ops), Subscriber(c, id));
    AppliedLast(s.ops, Remove(Subscriber(c, id)));
  }

  // ----- Steps: the clients ---------------------------------------------------------------------

  lemma {:induction false} GotNothing(handed: seq<Handover>, who: Subscriber, greeting: bool)
    requires forall i :: 0 <= i < |handed| ==> handed[i].to != who
    ensures Got(handed, who, greeting) == []
  {
    if handed != [] {
      GotNothing(handed[..|handed| - 1], who, greeting);
    }
  }

  lemma NotesAreChanges(s: State, id: string)
    requires Memory(s.last, s.notes) == After(s.polls)
    ensures Of(s.notes, id) == Tail(Changes(Of(s.polls, id)))
    ensures if id in s.last then Of(s.polls, id) != [] && s.last[id] == Of(s.polls, id)[|Of(s.polls, id)| - 1] else Of(s.polls, id) == []
  {
    ChangesAreAnnounced(s.polls);
    hide After, Of, Changes;
    assert TracksOne(s.polls, s.last, s.notes, id);
  }

  lemma RegisterClient(s: State, c: nat, id: string, snapshot: T.OrderStatus, room: nat)
    requires Memory(s.last, s.notes) == After(s.polls) && MonitorFits(s) && HandedFits(s)
    requires c in s.clients && s.clients[c] == Registering(id, snapshot)
    ensures var t := OnRegister(s, c, id, snapshot, room);
      t.clients[c].Listed? && Recorded(t, t.clients[c]) && Greeted(t, c, t.clients[c])
  {
    hide After, Of, Changes, Got, Appended;
    NotesAreChanges(s, id);
    assert !KnownAs(s, Subscriber(c, id));
    GotNothing(s.handed, Subscriber(c, id), true);
    var polled := Of(s.polls, id);
    assert polled[..|polled|] == polled;
  }

  lemma OthersStay(s: State, t: State, c: nat)
    requires ClientsFit(s) && t.polls == s.polls
    requires forall d :: d in t.clients && d != c ==> d in s.clients && t.clients[d] == s.clients[d]
    requires c in t.clients && t.clients[c].Listed? ==> Recorded(t, t.clients[c]) && Greeted(t, c, t.clients[c])
    requires forall d, id :: d != c ==> Got(t.handed, Subscriber(d, id), true) == Got(s.handed, Subscriber(d, id), true)
    ensures ClientsFit(t)
  {
    hide Of, Changes, Got;
  }

  lemma RegisterFits(s: State, c: nat, id: string, snapshot: T.OrderStatus, room: nat)
    requires Fits(s) && c in s.clients && s.clients[c] == Registering(id, snapshot)
    ensures Fits(OnRegister(s, c, id, snapshot, room))
  {
    var t := OnRegister(s, c, id, snapshot, room);
    RegisterRegistry(s, c, id, snapshot, room);
    RegisterTable(s, c, id, snapshot, room);
    RegisterMonitor(s, c, id, snapshot, room);
    RegisterClient(s, c, id, snapshot, room);
    hide RegistryFits, TableFits, MonitorFits, After, Of, Recorded, Greeted, Appended;
    OthersStay(s, t, c);
    hide ClientsFit;
    assert forall who :: KnownAs(s, who) ==> KnownAs(t, who);
  }

  lemma GreetFits(s: State, c: nat, ok: bool)
    requires Fits(s) && c in s.clients && s.clients[c].Listed? && s.clients[c].greeting.Due?
    ensures Fits(OnGreet(s, c, s.clients[c], ok))
  {
    hide After, Of, Changes, Got, ApplyAll, Shows;
    var client, t := s.clients[c], OnGreet(s, c, s.clients[c], ok);
    var h := Handover(Subscriber(c, client.id), client.snapshot, true);
    assert Recorded(s, client) && Greeted(s, c, client);
    forall d, id ensures Got(s.handed + [h], Subscriber(d, id), true) ==
                         Got(s.handed, Subscriber(d, id), true) + if d == c && id == client.id then [client.snapshot] else [] {
      GotGrows(s.handed, h, Subscriber(d, id), true);
    }
    SameRegistry(s, t);
    hide RegistryFits;
    assert forall who :: KnownAs(s, who) ==> KnownAs(t, who);
    forall d, id | d != c ensures Got(t.handed, Subscriber(d, id), true) == Got(s.handed, Subscriber(d, id), true) {
      assert Got(s.handed, Subscriber(d, id), true) + [] == Got(s.handed, Subscriber(d, id), true);
    }
    OthersStay(s, t, c);
  }

  lemma LeaveFits(s: State, c: nat)
    requires Fits(s) && c in s.clients && s.clients[c].Listed?
    ensures Fits(OnLeave(s, c, s.clients[c].id))
  {
    var t := OnLeave(s, c, s.clients[c].id);
    LeaveRegistry(s, c, s.clients[c].id);
    LeaveTable(s, c, s.clients[c].id);
    LeaveMonitor(s, c, s.clients[c].id);
    hide RegistryFits, TableFits, MonitorFits, After, Of, Recorded, Greeted, Removed;
    OthersStay(s, t, c);
    hide ClientsFit;
    assert forall who :: KnownAs(s, who) ==> KnownAs(t, who);
  }

  lemma OpenFits(s: State, c: nat, id: string, ok: bool)
    requires Fits(s)
    ensures Fits(OnOpen(s, c, id, ok))
  {
    var t := OnOpen(s, c, id, ok);
    if c !in s.clients {
      SameRegistry(s, t);
      assert forall who :: KnownAs(s, who) ==> KnownAs(t, who);
      KnownStays(s, t);
      hide RegistryFits, Shows, CellsKnown, After, Of, Recorded, Greeted, KnownAs, HandedFits;
      OthersStay(s, t, c);
    }
  }

  // ----- Steps: the monitor ---------------------------------------------------------------------

  /** Only the monitor's side has moved. */
  lemma MonitorMoved(s: State, t: State)
    requires Fits(s) && t.table == s.table && t.ops == s.ops && t.clients == s.clients
    requires Memory(t.last, t.notes) == After(t.polls) && MonitorFits(t) && HandedFits(t)
    requires forall c :: c in s.clients && s.clients[c].Listed? ==> Recorded(t, s.clients[c]) && Greeted(t, c, s.clients[c])
    ensures Fits(t)
  {
    hide Recorded, Greeted, MonitorFits, HandedFits, After, Shows;
    SameRegistry(s, t);
    hide RegistryFits;
  }

  lemma ClientFits(s: State, c: nat)
    requires Fits(s) && c in s.clients && s.clients[c].Listed?
    ensures Recorded(s, s.clients[c]) && Greeted(s, c, s.clients[c])
  {
    hide Recorded, Greeted, MonitorFits, HandedFits, RegistryFits, TableFits, After;
  }

  function Polled(s: State, x: Sighting, left: set<string>): State {
    var announces := x.id in s.last && s.last[x.id] != x.status;
    s.(polls := s.polls + [x], last := s.last[x.id := x.status], notes := Noted(s.last, s.notes, x),
       monitor := if announces then Announcing(x, left) else Polling(left))
  }

  lemma PolledRecorded(s: State, x: Sighting, left: set<string>, c: nat, client: Client)
    requires client.Listed? && Recorded(s, client) && Greeted(s, c, client)
    ensures Recorded(Polled(s, x, left), client) && Greeted(Polled(s, x, left), c, client)
  {
    OfGrows(s.polls, x, client.id);
    hide Of, Changes, Got;
    var polled := Of(s.polls, client.id);
    var more := if x.id == client.id then [x.status] else [];
    assert (polled + more)[..client.seen] == polled[..client.seen];
  }

  lemma PollFits(s: State, id: string, ok: bool, left: set<string>)
    requires Fits(s) && s.monitor == Polling(left)
    ensures Fits(OnPoll(s, id, ok, left))
  {
    hide Recorded, Greeted, RegistryFits, TableFits, After, Of, Got;
    var t := OnPoll(s, id, ok, left);
    if ok && id in s.rows {
      var x := Sighting(id, s.rows[id]);
      assert t == Polled(s, x, left - {id});
      AfterOneMore(s.polls, x);
      OfGrows(s.notes, x, id);
      forall c | c in s.clients && s.clients[c].Listed? ensures Recorded(t, s.clients[c]) && Greeted(t, c, s.clients[c]) {
        ClientFits(s, c);
        PolledRecorded(s, x, left - {id}, c, s.clients[c]);
      }
      MonitorMoved(s, t);
    } else {
      StillFits(s, t);
    }
  }

  /** Nothing but the rows, the monitor's place and the hand-overs of announcements. */
  lemma StillFits(s: State, t: State)
    requires Fits(s) && t == s.(rows := t.rows, monitor := t.monitor, handed := t.handed) && MonitorFits(t) && HandedFits(t)
    requires forall who :: Got(t.handed, who, true) == Got(s.handed, who, true)
    ensures Fits(t)
  {
    hide MonitorFits, HandedFits, After, RegistryFits, TableFits;
    forall c | c in s.clients && s.clients[c].Listed? ensures Recorded(t, s.clients[c]) && Greeted(t, c, s.clients[c]) {
      ClientFits(s, c);
      hide Of, Changes, Got;
    }
    hide Recorded, Greeted;
    MonitorMoved(s, t);
  }

  lemma ReadListFits(s: State, x: Sighting, left: set<string>)
    requires Fits(s) && s.monitor == Announcing(x, left)
    ensures Fits(OnReadList(s, x, left))
  {
    hide After, Of, ApplyAll, RegistryFits, ClientsFit, CellsKnown;
    assert RefFits(s.table, x.id, ApplyAll(s.ops));
    hide Shows;
    StillFits(s, OnReadList(s, x, left));
  }

  lemma UnreadKnown(s: State)
    requires MonitorFits(s) && TableFits(s)
    ensures forall i :: 0 <= i < |Unread(s)| ==> KnownAs(s, Unread(s)[i]) && Unread(s)[i].orderId == s.monitor.x.id
  {
    hide KnownAs, ApplyAll, RefFits;
  }

  lemma HandFits(s: State)
    requires Fits(s) && s.monitor.Handing?
    ensures Fits(OnHand(s))
  {
    UnreadKnown(s);
    hide After, Of, RegistryFits, TableFits, ClientsFit;
    var t := OnHand(s);
    forall who ensures Got(t.handed, who, true) == Got(s.handed, who, true) {
      if Unread(s) != [] {
        GotGrows(s.handed, Handover(Unread(s)[0], s.monitor.x.status, false), who, true);
        assert Got(s.handed, who, true) + [] == Got(s.handed, who, true);
      }
    }
    assert HandedFits(t) by { hide Got, Unread; }
    hide Got, KnownAs;
    StillFits(s, t);
  }

  lemma FitsStep(s: State, l: Label)
    requires Fits(s)
    ensures Fits(Next(s, l))
  {
    hide Fits, OnOpen, OnRegister, OnGreet, OnLeave, OnPoll, OnReadList, OnHand, ApplyAll, ListOf;
    if l.SetRow? {
      RowFits(s, l.id, l.status);
    } else if l.Open? {
      OpenFits(s, l.client, l.id, l.ok);
    } else if l.Register? || l.Greet? || l.Leave? {
      if l.client in s.clients {
        var client := s.clients[l.client];
        if client.Registering? && l.Register? {
          RegisterFits(s, l.client, client.id, client.snapshot, l.room);
        } else if client.Listed? && l.Greet? && client.greeting.Due? {
          GreetFits(s, l.client, l.ok);
        } else if client.Listed? && l.Leave? && client.greeting.Sent? && WasHanded(s.handed, Subscriber(l.client, client.id)) {
          LeaveFits(s, l.client);
        }
      }
    } else {
      match s.monitor
      case Polling(left) =>
        if l.StartRound? && left == {} {
          RoundFits(s);
        } else if l.Poll? && l.id in left {
          PollFits(s, l.id, l.ok, left);
        }
      case Announcing(x, left) =>
        if l.ReadList? {
          ReadListFits(s, x, left);
        }
      case Handing(_, _, _, _, _) =>
        if l.Hand? {
          HandFits(s);
        }
    }
  }

  lemma RowFits(s: State, id: string, status: T.OrderStatus)
    requires Fits(s)
    ensures Fits(s.(rows := s.rows[id := status]))
  {
    hide After, Of, ApplyAll, RegistryFits, ClientsFit, CellsKnown, Shows;
    StillFits(s, s.(rows := s.rows[id := status]));
  }

  lemma RoundFits(s: State)
    requires Fits(s) && s.monitor.Polling?
    ensures Fits(s.(monitor := Polling(s.table.subs.Keys)))
  {
    hide After, Of, ApplyAll, RegistryFits, ClientsFit, CellsKnown, Shows;
    StillFits(s, s.(monitor := Polling(s.table.subs.Keys)));
  }

  lemma {:induction false} FitsAlong(s: State, trace: seq<Label>)
    requires Fits(s)
    ensures Fits(Exec(s, trace))
  {
    hide Next, Fits;
    if trace != [] {
      FitsAlong(s, trace[..|trace| - 1]);
      FitsStep(Exec(s, trace[..|trace| - 1]), trace[|trace| - 1]);
    }
  }

  lemma AlwaysFits(trace: seq<Label>)
    ensures Fits(Exec(Initial(), trace))
  {
    assert Fits(Initial());
    hide Fits;
    FitsAlong(Initial(), trace);
  }

  // ----- What every run keeps -------------------------------------------------------------------

  /** In every run the registry lists a client exactly from its registration to its removal, so for good when its first send
      has failed; each once, under its own order, in order of registration; it has no empty list; and the slices, whichever
      arrays they lie in, show just these lists. */
  lemma ListedExactly(trace: seq<Label>, who: Subscriber)
    ensures var s := Exec(Initial(), trace);
      Shows(s.table, ApplyAll(s.ops)) && (who in ListOf(ApplyAll(s.ops), who.orderId) <==> IsListed(s, who)) &&
      (forall id :: Holds(ApplyAll(s.ops), id, Survivors(s.ops, id)) && Distinct(Survivors(s.ops, id))) &&
      forall id, x :: x in Survivors(s.ops, id) ==> x.orderId == id
  {
    hide Exec, MonitorFits, HandedFits, ClientsFit, After, ApplyAll, Survivors, Holds, Distinct, IsListed, Shows;
    AlwaysFits(trace);
    RegistryHoldsSurvivors(Exec(Initial(), trace).ops);
  }

  /** In every run the statuses announced for an order are its polled statuses with consecutive repeats removed and the first dropped, and
      the status remembered is the latest one polled, whatever subscriptions come and go between the polls. */
  lemma AnnouncesChanges(trace: seq<Label>, id: string)
    ensures var s := Exec(Initial(), trace);
      Of(s.notes, id) == Tail(Changes(Of(s.polls, id))) &&
      (id in s.last <==> Of(s.polls, id) != []) &&
      (id in s.last ==> s.last[id] == Of(s.polls, id)[|Of(s.polls, id)| - 1])
  {
    hide Exec, MonitorFits, HandedFits, ClientsFit, After, RegistryFits, TableFits, Of, Changes;
    AlwaysFits(trace);
    NotesAreChanges(Exec(Initial(), trace), id);
  }

  // ----- Rows stay ------------------------------------------------------------------------------

  /** A client's order is stored. */
  predicate RowThere(s: State, client: Client) {
    match client
    case Registering(id, _) => id in s.rows
    case Listed(id, _, _, _, _, _) => id in s.rows
    case _ => true
  }

  predicate RowsThere(s: State) {
    forall c :: c in s.clients ==> RowThere(s, s.clients[c])
  }

  lemma RowsThereStep(s: State, l: Label)
    requires RowsThere(s)
    ensures RowsThere(Next(s, l)) && s.rows.Keys <= Next(s, l).rows.Keys
  {
    hide Of, Noted, Appended, Removed, Unread;
  }

  lemma {:induction false} AlwaysRowsThere(trace: seq<Label>)
    ensures RowsThere(Exec(Initial(), trace))
  {
    hide Next;
    if trace != [] {
      AlwaysRowsThere(trace[..|trace| - 1]);
      RowsThereStep(Exec(Initial(), trace[..|trace| - 1]), trace[|trace| - 1]);
    }
  }

  /** In every run, every order that has subscribers is stored. */
  lemma RowsAreThere(trace: seq<Label>)
    ensures var s := Exec(Initial(), trace); s.table.subs.Keys <= s.rows.Keys
  {
    hide Exec, ApplyAll, Survivors, MonitorFits, HandedFits, ClientsFit, CellsKnown, After, AddedOnce, Distinct;
    var s := Exec(Initial(), trace);
    AlwaysFits(trace);
    AlwaysRowsThere(trace);
    RegistryHoldsSurvivors(s.ops);
    forall id | id in s.table.subs ensures id in s.rows {
      assert RefFits(s.table, id, ApplyAll(s.ops));
      var list := ListOf(ApplyAll(s.ops), id);
      assert Holds(ApplyAll(s.ops), id, Survivors(s.ops, id));
      var who := list[0];
      assert who in ListOf(ApplyAll(s.ops), who.orderId);
      assert IsListed(s, who);
      assert RowThere(s, s.clients[who.handle]);
    }
  }

  // ----- Where statuses come from ---------------------------------------------------------------

  /** Label n read this status in the order's row. */
  predicate PolledAt(trace: seq<Label>, n: int, x: Sighting) {
    0 <= n < |trace| && trace[n] == Poll(x.id, true) &&
    var s := Exec(Initial(), trace[..n]); x.id in s.rows && s.rows[x.id] == x.status
  }

  lemma OneMorePoll(s: State, l: Label)
    ensures var t := Next(s, l);
      t.polls == s.polls || (l.Poll? && l.ok && l.id in s.rows && t.polls == s.polls + [Sighting(l.id, s.rows[l.id])])
  {
    hide Of, Noted, Appended, Removed, Unread;
  }

  /** In every run, each status that the monitor has seen was in the order's row when it looked. */
  lemma {:induction false} PollsReadTheRow(trace: seq<Label>, i: nat) returns (n: int)
    ensures i < |Exec(Initial(), trace).polls| ==> PolledAt(trace, n, Exec(Initial(), trace).polls[i])
    decreases |trace|
  {
    hide Next;
    n := 0;
    if trace != [] {
      var before, l := trace[..|trace| - 1], trace[|trace| - 1];
      var s := Exec(Initial(), before);
      OneMorePoll(s, l);
      if i < |s.polls| {
        n := PollsReadTheRow(before, i);
        assert trace[..n] == before[..n];
      } else {
        n := |trace| - 1;
      }
    }
  }

  /** Label n read this status in the order's row for this client. */
  predicate OpenedAt(trace: seq<Label>, n: int, c: nat, id: string, snapshot: T.OrderStatus) {
    0 <= n < |trace| && trace[n] == Open(c, id, true) && id != "" &&
    var s := Exec(Initial(), trace[..n]); c !in s.clients && id in s.rows && s.rows[id] == snapshot
  }

  predicate ReadAs(client: Client, id: string, snapshot: T.OrderStatus) {
    (client.Registering? || client.Listed?) && client.id == id && client.snapshot == snapshot
  }

  lemma SnapshotStep(s: State, l: Label, c: nat, id: string, snapshot: T.OrderStatus)
    requires c in Next(s, l).clients && ReadAs(Next(s, l).clients[c], id, snapshot)
    ensures (c in s.clients && ReadAs(s.clients[c], id, snapshot)) ||
            (l == Open(c, id, true) && id != "" && c !in s.clients && id in s.rows && s.rows[id] == snapshot)
  {
    hide Of, Noted, Appended, Removed, Unread;
  }

  /** In every run, what a client is to be sent first was in the order's row when its stream was opened. */
  lemma {:induction false} SnapshotsReadTheRow(trace: seq<Label>, c: nat) returns (n: int)
    ensures var s := Exec(Initial(), trace);
      c in s.clients && (s.clients[c].Registering? || s.clients[c].Listed?) ==> OpenedAt(trace, n, c, s.clients[c].id, s.clients[c].snapshot)
    decreases |trace|
  {
    hide Next;
    n := 0;
    if trace != [] {
      var before, l := trace[..|trace| - 1], trace[|trace| - 1];
      var s, t := Exec(Initial(), before), Exec(Initial(), trace);
      if c in t.clients && (t.clients[c].Registering? || t.clients[c].Listed?) {
        SnapshotStep(s, l, c, t.clients[c].id, t.clients[c].snapshot);
        n := SnapshotsReadTheRow(before, c);
        if c in s.clients && ReadAs(s.clients[c], t.clients[c].id, t.clients[c].snapshot) {
          assert trace[..n] == before[..n];
        } else {
          n := |trace| - 1;
        }
      }
    }
  }
}
