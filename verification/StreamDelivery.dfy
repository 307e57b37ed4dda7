/** What a streaming client is handed: everything announced for its order, each announcement once and in order, as long as no
    removal or registration overwrites a cell that a running hand-over loop has yet to read. The first time that
    happens, some client gets too much or too little. */
module StreamDelivery {
  import opened Subscriptions
  import opened StreamProtocol
  import T = OrderTransactions

  // ----- What disturbs a loop -------------------------------------------------------------------

  /** The handler can be about to remove its client: one of the announcements handed to it may not have gone through. */
  predicate Leaves(s: State, c: nat, id: string) {
    c in s.clients && s.clients[c].Listed? && s.clients[c].id == id && s.clients[c].greeting.Sent? &&
    WasHanded(s.handed, Subscriber(c, id))
  }

  /** The handler is about to add its client. */
  predicate Registers(s: State, c: nat, id: string) {
    c in s.clients && s.clients[c].Registering? && s.clients[c].id == id
  }

  /** A removal from this order's list, or a registration in it, that overwrites a cell which the loop handing out an announcement of the
      order has yet to read: a removal shifts the cells from the removed one to the last but one, an append in place
      takes over the cell behind the last. */
  predicate Disturbs(s: State, l: Label, id: string) {
    s.monitor.Handing? && s.monitor.x.id == id &&
    if l.Leave? then
      Leaves(s, l.client, id) &&
      exists i :: s.monitor.next <= i < s.monitor.len && Shifts(s.table, Subscriber(l.client, id), s.monitor.buf, i)
    else
      l.Register? && Registers(s, l.client, id) &&
      exists i :: s.monitor.next <= i < s.monitor.len && Overwrites(s.table, id, s.monitor.buf, i)
  }

  /** No step from `s` on disturbs a loop of this order. */
  predicate Undisturbed(s: State, trace: seq<Label>, id: string) {
    trace == [] ||
    (Undisturbed(s, trace[..|trace| - 1], id) && !Disturbs(Exec(s, trace[..|trace| - 1]), trace[|trace| - 1], id))
  }

  lemma UnreadSame(s: State, t: State)
    requires MonitorFits(s) && s.monitor.Handing? && t.monitor == s.monitor
    requires s.monitor.len > 0 ==>
      s.monitor.buf < |t.table.arrays| && |s.table.arrays[s.monitor.buf].items| <= |t.table.arrays[s.monitor.buf].items| &&
      forall i :: s.monitor.next <= i < s.monitor.len ==>
        t.table.arrays[s.monitor.buf].items[i] == s.table.arrays[s.monitor.buf].items[i]
    ensures Unread(t) == Unread(s)
  {
  }

  lemma RegisterUnread(s: State, c: nat, id: string, snapshot: T.OrderStatus, room: nat)
    requires MonitorFits(s) && TableFits(s) && s.monitor.Handing? && c in s.clients && s.clients[c] == Registering(id, snapshot)
    requires !Disturbs(s, Register(c, room), id)
    ensures Unread(OnRegister(s, c, id, snapshot, room)) == Unread(s)
  {
    hide CellsKnown, ApplyAll, Of, Appended, Unread;
    var t, m, who := OnRegister(s, c, id, snapshot, room), s.monitor, Subscriber(c, id);
    assert t.monitor == m && t.table == Appended(s.table, who, room);
    hide OnRegister;
    if m.len > 0 {
      AppendedArray(s.table, ApplyAll(s.ops), who, room, m.buf);
      assert RefFits(s.table, id, ApplyAll(s.ops));
      forall i | m.next <= i < m.len ensures t.table.arrays[m.buf].items[i] == s.table.arrays[m.buf].items[i] {
        AppendedCell(s.table, ApplyAll(s.ops), who, room, m.buf, i);
      }
    }
    UnreadSame(s, t);
  }

  lemma LeaveUnread(s: State, c: nat, id: string)
    requires MonitorFits(s) && TableFits(s) && s.monitor.Handing? && Leaves(s, c, id) && !Disturbs(s, Leave(c), id)
    ensures Unread(OnLeave(s, c, id)) == Unread(s)
  {
    hide CellsKnown, ApplyAll, Removed, Unread, IndexOf;
    var t, m, who := OnLeave(s, c, id), s.monitor, Subscriber(c, id);
    assert t.monitor == m && t.table == Removed(s.table, who);
    hide OnLeave;
    if m.len > 0 {
      RemovedArray(s.table, ApplyAll(s.ops), who, m.buf);
      assert RefFits(s.table, id, ApplyAll(s.ops));
      forall i | m.next <= i < m.len ensures t.table.arrays[m.buf].items[i] == s.table.arrays[m.buf].items[i] {
        RemovedCell(s.table, ApplyAll(s.ops), who, m.buf, i);
      }
    }
    UnreadSame(s, t);
  }

  // ----- What is owed to a client ---------------------------------------------------------------

  /** A client's account from some point on: how much it had been handed by then, and how many announcements of its order were made before. */
  datatype Account = Account(who: Subscriber, had: nat, told: nat)

  /** The account of a listed client since its registration. */
  function SinceListed(c: nat, client: Client): Account
    requires client.Listed?
  {
    Account(Subscriber(c, client.id), 0, client.told)
  }

  /** What was handed over since and what is on its way are the announcements made since, and the loop comes to the client once at most. */
  predicate Owed(s: State, a: Account) {
    var got, notes := Got(s.handed, a.who, false), Of(s.notes, a.who.orderId);
    a.had <= |got| && a.told <= |notes| && got[a.had..] + InFlight(s, a.who) == notes[a.told..] && multiset(Unread(s))[a.who] <= 1
  }

  /** The label is a row's or a handler's. */
  predicate NotMonitors(l: Label) {
    l.SetRow? || l.Open? || l.Register? || l.Greet? || l.Leave?
  }

  lemma HandlersLeaveMonitor(s: State, l: Label)
    requires NotMonitors(l)
    ensures var t := Next(s, l); t.monitor == s.monitor && t.notes == s.notes && t.polls == s.polls
  {
    hide Of, Appended, Removed;
  }

  lemma HandlersAnnounceNothing(s: State, l: Label, who: Subscriber)
    requires NotMonitors(l)
    ensures Got(Next(s, l).handed, who, false) == Got(s.handed, who, false)
  {
    hide Of, Appended, Removed, Got;
    var t := Next(s, l);
    if t.handed != s.handed {
      var h := t.handed[|t.handed| - 1];
      assert t.handed == s.handed + [h] && h.greeting;
      GotGrows(s.handed, h, who, false);
      assert Got(s.handed, who, false) + [] == Got(s.handed, who, false);
    }
  }

  /** Only a disturbance changes the cells that a loop has yet to read. */
  lemma SameUnread(s: State, l: Label)
    requires MonitorFits(s) && TableFits(s) && NotMonitors(l) && s.monitor.Handing? && !Disturbs(s, l, s.monitor.x.id)
    ensures Unread(Next(s, l)) == Unread(s)
  {
    hide Unread, Of, TableFits, MonitorFits, OnRegister, OnLeave, Shifts, Overwrites;
    if (l.Register? || l.Leave?) && l.client in s.clients {
      var client := s.clients[l.client];
      if l.Register? && client.Registering? {
        RegisterUnread(s, l.client, client.id, client.snapshot, l.room);
      } else if l.Leave? && client.Listed? && client.greeting.Sent? && WasHanded(s.handed, Subscriber(l.client, client.id)) {
        LeaveUnread(s, l.client, client.id);
      }
    } else {
      assert Unread(Next(s, l)) == Unread(s) by { UnchangedTable(s, Next(s, l)); }
    }
  }

  lemma UnchangedTable(s: State, t: State)
    requires t.table == s.table && t.monitor == s.monitor
    ensures Unread(t) == Unread(s)
  {
  }

  /** A handler's step leaves what is on its way to a client alone, unless it disturbs a loop of the client's order. */
  lemma SameInFlight(s: State, l: Label, who: Subscriber)
    requires Fits(s) && NotMonitors(l) && !Disturbs(s, l, who.orderId)
    ensures InFlight(Next(s, l), who) == InFlight(s, who) && multiset(Unread(Next(s, l)))[who] == multiset(Unread(s))[who]
  {
    hide Next, Disturbs, Fits, Unread;
    var t := Next(s, l);
    FitsStep(s, l);
    HandlersLeaveMonitor(s, l);
    if !s.monitor.Handing? {
      NotHanding(s);
      NotHanding(t);
    } else if s.monitor.x.id == who.orderId {
      MonitorAndTableFit(s);
      SameUnread(s, l);
    } else {
      UnreadOfOrder(s, who);
      UnreadOfOrder(t, who);
    }
  }

  lemma MonitorAndTableFit(s: State)
    requires Fits(s)
    ensures MonitorFits(s) && TableFits(s)
  {
    hide RegistryFits, TableFits, MonitorFits, HandedFits, ClientsFit, After;
  }

  lemma UnreadOfOrder(s: State, who: Subscriber)
    requires Fits(s) && s.monitor.Handing? && s.monitor.x.id != who.orderId
    ensures who !in Unread(s)
  {
    MonitorAndTableFit(s);
    UnreadKnown(s);
    hide Fits, Unread, KnownAs;
  }

  lemma OwedHandler(s: State, l: Label, a: Account)
    requires Fits(s) && NotMonitors(l) && Owed(s, a) && !Disturbs(s, l, a.who.orderId)
    ensures Owed(Next(s, l), a)
  {
    hide Fits, Disturbs, Of, Got, InFlight, Unread;
    SameInFlight(s, l, a.who);
    HandlersLeaveMonitor(s, l);
    HandlersAnnounceNothing(s, l, a.who);
    hide Next;
  }

  /** A listed client keeps what it was listed with. */
  lemma ListedStays(s: State, l: Label, c: nat)
    requires c in s.clients && s.clients[c].Listed? && c in Next(s, l).clients && Next(s, l).clients[c].Listed?
    ensures var was, now := s.clients[c], Next(s, l).clients[c]; now == was.(greeting := now.greeting)
  {
    hide Of, Appended, Removed, Unread, Noted;
  }

  /** Nothing is owed to a client that has just been added, but an announcement on its way to the list. */
  lemma OwedNewcomer(s: State, c: nat, id: string, snapshot: T.OrderStatus, room: nat)
    requires Fits(s) && c in s.clients && s.clients[c] == Registering(id, snapshot) && !Disturbs(s, Register(c, room), id)
    ensures var t := OnRegister(s, c, id, snapshot, room); t.clients[c].Listed? && Owed(t, SinceListed(c, t.clients[c]))
  {
    var t, who, notes := OnRegister(s, c, id, snapshot, room), Subscriber(c, id), Of(s.notes, id);
    hide Disturbs, Of, RegistryFits, ClientsFit, After, Appended;
    assert !KnownAs(s, who);
    GotNothing(s.handed, who, false);
    if s.monitor.Handing? {
      UnreadKnown(s);
      RegisterUnread(s, c, id, snapshot, room);
    }
    hide Got, KnownAs, TableFits;
    if PendingFor(s.monitor, id) {
      assert notes[|notes| - 1..] == [notes[|notes| - 1]];
    } else {
      assert who !in Unread(t);
      assert InFlight(t, who) == [];
    }
  }

  // ----- The monitor's steps --------------------------------------------------------------------

  lemma DropMore(a: seq<T.OrderStatus>, b: seq<T.OrderStatus>, k: nat)
    requires k <= |a|
    ensures (a + b)[k..] == a[k..] + b
  {
  }

  /** The announcement that a poll makes, and puts on its way, for a subscriber of this order. */
  function Made(s: State, x: Sighting, id: string): seq<T.OrderStatus> {
    if x.id == id && x.id in s.last && s.last[x.id] != x.status then [x.status] else []
  }

  lemma PolledMakes(s: State, x: Sighting, left: set<string>, who: Subscriber)
    requires s.monitor.Polling?
    ensures Of(Polled(s, x, left).notes, who.orderId) == Of(s.notes, who.orderId) + Made(s, x, who.orderId)
    ensures InFlight(Polled(s, x, left), who) == Made(s, x, who.orderId) && Unread(Polled(s, x, left)) == []
  {
    OfGrows(s.notes, x, who.orderId);
    hide Of;
    assert Of(s.notes, who.orderId) + [] == Of(s.notes, who.orderId);
  }

  lemma PolledOwes(s: State, x: Sighting, left: set<string>, a: Account)
    requires Owed(s, a) && s.monitor.Polling?
    ensures Owed(Polled(s, x, left), a)
  {
    PolledMakes(s, x, left, a.who);
    hide Of, Got, Made, Noted, Unread;
    DropMore(Of(s.notes, a.who.orderId), Made(s, x, a.who.orderId), a.told);
    assert Got(s.handed, a.who, false)[a.had..] + [] == Got(s.handed, a.who, false)[a.had..];
  }

  lemma OnceEach(list: seq<Subscriber>, who: Subscriber)
    requires Distinct(list)
    ensures multiset(list)[who] <= 1
  {
    if list != [] {
      OnceEach(list[1..], who);
      assert list == [list[0]] + list[1..];
    }
  }

  /** Every listed client of the order is in the slice that is read, and nobody else. */
  lemma ReadListOwes(s: State, x: Sighting, left: set<string>, a: Account)
    requires Fits(s) && s.monitor == Announcing(x, left) && IsListed(s, a.who) && Owed(s, a)
    ensures Owed(OnReadList(s, x, left), a)
  {
    hide After, Of, ApplyAll, Got, CellsKnown, HandedFits, ClientsFit, AddedOnce;
    var t, list := OnReadList(s, x, left), ListOf(ApplyAll(s.ops), x.id);
    ListsAreDistinct(s, x.id);
    assert RefFits(s.table, x.id, ApplyAll(s.ops));
    assert Unread(t) == list;
    OnceEach(list, a.who);
    assert a.who in ListOf(ApplyAll(s.ops), a.who.orderId);
  }

  lemma UnreadAfter(s: State)
    requires s.monitor.Handing? && Unread(s) != []
    ensures Unread(OnHand(s)) == Unread(s)[1..]
  {
  }

  /** One hand-over moves a status from the way to what was handed, for its receiver and nobody else. */
  lemma HandOwes(s: State, a: Account)
    requires s.monitor.Handing? && Owed(s, a)
    ensures Owed(OnHand(s), a)
  {
    hide Of, Got, Unread;
    var t, x := OnHand(s), s.monitor.x;
    if Unread(s) != [] {
      var got, first, rest := Got(s.handed, a.who, false), Unread(s)[0], Unread(s)[1..];
      UnreadAfter(s);
      GotGrows(s.handed, Handover(first, x.status, false), a.who, false);
      assert Unread(s) == [first] + rest;
      assert multiset(Unread(s))[a.who] == multiset(rest)[a.who] + if a.who == first then 1 else 0;
      DropMore(got, if a.who == first then [x.status] else [], a.had);
      assert got[a.had..] + [x.status] + [] == got[a.had..] + [x.status] && got[a.had..] + [] == got[a.had..];
    } else {
      assert Unread(t) == [] by { NotHanding(t); }
    }
  }

  lemma NotHanding(s: State)
    requires !s.monitor.Handing?
    ensures Unread(s) == []
  {
  }

  /** A change of the monitor's place while it hands out nothing. */
  lemma RestOwes(s: State, t: State, a: Account)
    requires Owed(s, a) && s.monitor.Polling? && t.monitor.Polling? && t == s.(monitor := t.monitor)
    ensures Owed(t, a)
  {
    hide Of, Got;
  }

  lemma OwedMonitor(s: State, l: Label, a: Account)
    requires Fits(s) && !NotMonitors(l) && IsListed(s, a.who) && Owed(s, a)
    ensures Owed(Next(s, l), a)
  {
    hide Fits, Owed, OnReadList, OnHand;
    match s.monitor
    case Polling(left) =>
      if l.StartRound? && left == {} {
        RestOwes(s, Next(s, l), a);
      } else if l.Poll? && l.id in left {
        if l.ok && l.id in s.rows {
          PolledOwes(s, Sighting(l.id, s.rows[l.id]), left - {l.id}, a);
          assert Next(s, l) == Polled(s, Sighting(l.id, s.rows[l.id]), left - {l.id});
        } else {
          RestOwes(s, Next(s, l), a);
        }
      }
    case Announcing(x, left) =>
      if l.ReadList? {
        ReadListOwes(s, x, left, a);
      }
    case Handing(_, _, _, _, _) =>
      if l.Hand? {
        HandOwes(s, a);
      }
  }

  lemma MonitorKeepsClients(s: State, l: Label)
    requires !NotMonitors(l)
    ensures Next(s, l).clients == s.clients
  {
    hide Noted, Unread;
  }

  lemma OwedStep(s: State, l: Label, a: Account)
    requires Fits(s) && IsListed(s, a.who) && Owed(s, a) && !Disturbs(s, l, a.who.orderId)
    ensures Owed(Next(s, l), a)
  {
    hide Fits, Owed, Next, Disturbs;
    if NotMonitors(l) {
      OwedHandler(s, l, a);
    } else {
      OwedMonitor(s, l, a);
      MonitorKeepsClients(s, l);
    }
  }

  predicate ListedFor(s: State, c: nat, id: string) {
    c in s.clients && s.clients[c].Listed? && s.clients[c].id == id
  }

  lemma BecomesListed(s: State, l: Label, c: nat, id: string)
    requires ListedFor(Next(s, l), c, id) && !ListedFor(s, c, id)
    ensures l.Register? && l.client == c && c in s.clients && s.clients[c].Registering? && s.clients[c].id == id
    ensures Next(s, l) == OnRegister(s, c, id, s.clients[c].snapshot, l.room)
  {
    hide Of, Appended, Removed, Noted, Unread;
  }

  /** A client registered after `s` gets what it is owed, as long as nothing disturbs the loops of its order. */
  lemma {:induction false} OwedAlong(s: State, trace: seq<Label>, c: nat, id: string)
    requires Fits(s) && !ListedFor(s, c, id) && Undisturbed(s, trace, id)
    ensures var t := Exec(s, trace); ListedFor(t, c, id) ==> Owed(t, SinceListed(c, t.clients[c]))
  {
    hide Fits, Owed, Next, Disturbs;
    if trace != [] {
      var before, l := trace[..|trace| - 1], trace[|trace| - 1];
      var m := Exec(s, before);
      FitsAlong(s, before);
      OwedAlong(s, before, c, id);
      if ListedFor(Next(m, l), c, id) {
        if ListedFor(m, c, id) {
          OwedStep(m, l, SinceListed(c, m.clients[c]));
          ListedStays(m, l, c);
        } else {
          BecomesListed(m, l, c, id);
          OwedNewcomer(m, c, id, m.clients[c].snapshot, l.room);
        }
      }
    }
  }

  /** In every run, for a client registered after `before`: as long as no loop of its order has been disturbed since, what it has been
      handed, with what is on its way to it, is every announcement of the order since its registration (or on its way to the
      list at that moment), each once and in order; and its first status once if that send went through. */
  lemma HandsOverEveryAnnouncement(before: seq<Label>, after: seq<Label>, c: nat, id: string)
    requires var s := Exec(Initial(), before); !ListedFor(s, c, id) && Undisturbed(s, after, id)
    ensures var t := Exec(Exec(Initial(), before), after);
      ListedFor(t, c, id) ==>
        var client, who := t.clients[c], Subscriber(c, id);
        client.told <= |Of(t.notes, id)| &&
        Got(t.handed, who, false) + InFlight(t, who) == Of(t.notes, id)[client.told..] &&
        Got(t.handed, who, true) == (if client.greeting.Sent? then [client.snapshot] else [])
  {
    hide Exec, MonitorFits, HandedFits, After, RegistryFits, TableFits, Of, Changes, Got, InFlight, Unread, Undisturbed;
    var s := Exec(Initial(), before);
    AlwaysFits(before);
    FitsAlong(s, after);
    OwedAlong(s, after, c, id);
  }

  lemma KnownForGood(s: State, l: Label, who: Subscriber)
    requires KnownAs(s, who)
    ensures KnownAs(Next(s, l), who) && (IsListed(Next(s, l), who) ==> IsListed(s, who))
  {
    hide Of, Appended, Removed, Noted, Unread;
  }

  lemma {:induction false} OwedOn(s: State, trace: seq<Label>, a: Account)
    requires Fits(s) && KnownAs(s, a.who) && (IsListed(s, a.who) ==> Owed(s, a)) && Undisturbed(s, trace, a.who.orderId)
    ensures var t := Exec(s, trace); KnownAs(t, a.who) && (IsListed(t, a.who) ==> Owed(t, a))
  {
    hide Fits, Owed, Next, Disturbs;
    if trace != [] {
      var before, l := trace[..|trace| - 1], trace[|trace| - 1];
      FitsAlong(s, before);
      OwedOn(s, before, a);
      KnownForGood(Exec(s, before), l, a.who);
      if IsListed(Next(Exec(s, before), l), a.who) {
        OwedStep(Exec(s, before), l, a);
      }
    }
  }

  lemma StepGrows(s: State, l: Label)
    ensures s.handed <= Next(s, l).handed && s.notes <= Next(s, l).notes
  {
    hide Of, Appended, Removed, Unread;
  }

  lemma {:induction false} RunGrows(s: State, trace: seq<Label>)
    ensures s.handed <= Exec(s, trace).handed && s.notes <= Exec(s, trace).notes
  {
    hide Next;
    if trace != [] {
      RunGrows(s, trace[..|trace| - 1]);
      StepGrows(Exec(s, trace[..|trace| - 1]), trace[|trace| - 1]);
    }
  }

  lemma {:induction false} GotPrefix(was: seq<Handover>, handed: seq<Handover>, who: Subscriber)
    requires was <= handed
    ensures Got(was, who, false) <= Got(handed, who, false)
  {
    if was != handed {
      assert was <= handed[..|handed| - 1];
      GotPrefix(was, handed[..|handed| - 1], who);
    }
  }

  lemma {:induction false} OfPrefix(was: seq<Sighting>, seen: seq<Sighting>, id: string)
    requires was <= seen
    ensures Of(was, id) <= Of(seen, id)
  {
    if was != seen {
      assert was <= seen[..|seen| - 1];
      OfPrefix(was, seen[..|seen| - 1], id);
    }
  }

  /** Whatever has gone wrong before: from any point of any run at which no loop of its order is under way, a client that stays listed is
      handed the announcements made from then on (and the one on its way to the list at that point), each once and in
      order, as long as no loop of its order is disturbed. */
  lemma HandsOverFromAnyPoint(before: seq<Label>, after: seq<Label>, c: nat, id: string)
    requires var s := Exec(Initial(), before);
      ListedFor(s, c, id) && !(s.monitor.Handing? && s.monitor.x.id == id) && Undisturbed(s, after, id)
    ensures var s := Exec(Initial(), before);
      var t, who := Exec(s, after), Subscriber(c, id);
      ListedFor(t, c, id) ==>
        Got(s.handed, who, false) <= Got(t.handed, who, false) && Of(s.notes, id) <= Of(t.notes, id) &&
        Got(t.handed, who, false)[|Got(s.handed, who, false)|..] + InFlight(t, who) ==
        InFlight(s, who) + Of(t.notes, id)[|Of(s.notes, id)|..]
  {
    hide Exec, Undisturbed, Of, Got, Unread, InFlight, Fits, KnownAs, Owed;
    var s := Exec(Initial(), before);
    var t, who, notes := Exec(s, after), Subscriber(c, id), Of(s.notes, id);
    AlwaysFits(before);
    var a := FromHere(s, who);
    assert KnownAs(s, who) by { ThenListed(s, c, id); }
    OwedOn(s, after, a);
    RunGrows(s, after);
    GotPrefix(s.handed, t.handed, who);
    OfPrefix(s.notes, t.notes, id);
    if ListedFor(t, c, id) {
      ThenListed(t, c, id);
      OwedMeans(t, a);
      assert Of(t.notes, id)[a.told..] == notes[a.told..] + Of(t.notes, id)[|notes|..];
    }
  }

  lemma OwedMeans(s: State, a: Account)
    requires Owed(s, a)
    ensures var got, notes := Got(s.handed, a.who, false), Of(s.notes, a.who.orderId);
      a.had <= |got| && a.told <= |notes| && got[a.had..] + InFlight(s, a.who) == notes[a.told..]
  {
    hide Got, Of, InFlight, Unread;
  }

  /** The account that a client opens here. */
  lemma FromHere(s: State, who: Subscriber) returns (a: Account)
    requires Fits(s) && !(s.monitor.Handing? && s.monitor.x.id == who.orderId)
    ensures a.who == who && a.had == |Got(s.handed, who, false)| && a.told <= |Of(s.notes, who.orderId)| && Owed(s, a)
    ensures InFlight(s, who) == Of(s.notes, who.orderId)[a.told..]
  {
    hide Of, Got, RegistryFits, HandedFits, ClientsFit, After;
    var notes, pending := Of(s.notes, who.orderId), PendingFor(s.monitor, who.orderId);
    a := Account(who, |Got(s.handed, who, false)|, if pending && notes != [] then |notes| - 1 else |notes|);
    UnreadKnown(s);
    hide TableFits, KnownAs;
    if pending {
      assert notes[|notes| - 1..] == [notes[|notes| - 1]];
    }
  }

  lemma ThenListed(s: State, c: nat, id: string)
    requires ListedFor(s, c, id)
    ensures IsListed(s, Subscriber(c, id))
  {
  }

  // ----- The exact condition --------------------------------------------------------------------

  /** The state when the hand-over under way is over and nothing else has happened. */
  function Finished(s: State): State
    decreases if s.monitor.Announcing? then 1 else 0, |Unread(s)|
  {
    match s.monitor
    case Polling(_) => s
    case Announcing(x, left) => HandedOut(OnReadList(s, x, left))
    case Handing(_, _, _, _, _) => HandedOut(s)
  }

  function HandedOut(s: State): State
    requires s.monitor.Handing?
    decreases |Unread(s)|
  {
    if Unread(s) == [] then OnHand(s) else HandedOut(OnHand(s))
  }

  /** Every client of this order has been handed what was announced since its registration, each announcement once and in order. */
  predicate Served(s: State, id: string) {
    forall c :: c in s.clients && ListedFor(s, c, id) ==>
      s.clients[c].told <= |Of(s.notes, id)| && Got(s.handed, Subscriber(c, id), false) == Of(s.notes, id)[s.clients[c].told..]
  }

  /** At whatever point of the run the hand-over under way is finished, the clients of this order have been served. */
  ghost predicate ServedThroughout(trace: seq<Label>, id: string) {
    forall k :: 0 <= k <= |trace| ==> Served(Finished(Exec(Initial(), trace[..k])), id)
  }

  lemma HandedOutOwes(s: State, a: Account)
    requires s.monitor.Handing? && Owed(s, a)
    ensures var t := HandedOut(s); t.clients == s.clients && t.monitor.Polling? && Owed(t, a)
    decreases |Unread(s)|
  {
    HandOwes(s, a);
    hide Owed;
    if Unread(s) != [] {
      HandedOutOwes(OnHand(s), a);
    }
  }

  lemma FinishedServes(s: State, a: Account)
    requires Fits(s) && IsListed(s, a.who) && Owed(s, a)
    ensures var t := Finished(s); t.clients == s.clients && t.monitor.Polling? && Owed(t, a)
  {
    hide Owed, Fits;
    match s.monitor
    case Polling(_) =>
    case Announcing(x, left) =>
      ReadListOwes(s, x, left, a);
      HandedOutOwes(OnReadList(s, x, left), a);
    case Handing(_, _, _, _, _) => HandedOutOwes(s, a);
  }

  lemma FinishedKeepsClients(s: State)
    ensures Finished(s).clients == s.clients && Finished(s).notes == s.notes
  {
    if s.monitor.Announcing? {
      HandedOutCounts(OnReadList(s, s.monitor.x, s.monitor.left), Subscriber(0, ""));
    } else if s.monitor.Handing? {
      HandedOutCounts(s, Subscriber(0, ""));
    }
  }

  /** The loop hands the announcement to a subscriber as often as it comes to it. */
  lemma HandedOutCounts(s: State, who: Subscriber)
    requires s.monitor.Handing?
    ensures var t := HandedOut(s);
      t.clients == s.clients && t.notes == s.notes && |Got(t.handed, who, false)| == |Got(s.handed, who, false)| + multiset(Unread(s))[who]
    decreases |Unread(s)|
  {
    hide Got, Unread;
    if Unread(s) != [] {
      var first, rest := Unread(s)[0], Unread(s)[1..];
      UnreadAfter(s);
      assert Unread(s) == [first] + rest;
      GotGrows(s.handed, Handover(first, s.monitor.x.status, false), who, false);
      HandedOutCounts(OnHand(s), who);
    }
  }

  lemma {:induction false} UndisturbedPrefix(s: State, trace: seq<Label>, id: string, k: nat)
    requires Undisturbed(s, trace, id) && k <= |trace|
    ensures Undisturbed(s, trace[..k], id)
  {
    hide Disturbs;
    if k < |trace| {
      UndisturbedPrefix(s, trace[..|trace| - 1], id, k);
      assert trace[..|trace| - 1][..k] == trace[..k];
    } else {
      assert trace[..k] == trace;
    }
  }

  lemma UndisturbedServes(trace: seq<Label>, id: string)
    requires Undisturbed(Initial(), trace, id)
    ensures Served(Finished(Exec(Initial(), trace)), id)
  {
    hide Exec, Fits, Undisturbed, Finished, Of, Got;
    var s := Exec(Initial(), trace);
    var t := Finished(s);
    FinishedKeepsClients(s);
    AlwaysFits(trace);
    AlwaysFits([]);
    assert Exec(Initial(), []) == Initial() by { ExecNothing(); }
    forall c | ListedFor(t, c, id)
      ensures t.clients[c].told <= |Of(t.notes, id)| && Got(t.handed, Subscriber(c, id), false) == Of(t.notes, id)[t.clients[c].told..]
    {
      OwedAlong(Initial(), trace, c, id);
      FinishedServes(s, SinceListed(c, s.clients[c]));
      assert Got(t.handed, Subscriber(c, id), false) + [] == Got(t.handed, Subscriber(c, id), false);
    }
  }

  lemma ExecNothing()
    ensures Exec(Initial(), []) == Initial()
  {
  }

  // A disturbance shows: some client is counted once too often

  /** The client gets more than it is owed when the loop is finished. */
  predicate Overserved(s: State, c: nat, id: string) {
    ListedFor(s, c, id) &&
    s.clients[c].told + |Got(s.handed, Subscriber(c, id), false)| + multiset(Unread(s))[Subscriber(c, id)] > |Of(s.notes, id)|
  }

  lemma OverservedShows(s: State, c: nat, id: string)
    requires s.monitor.Handing? && Overserved(s, c, id)
    ensures !Served(Finished(s), id)
  {
    hide Of, Got, Unread, HandedOut;
    HandedOutCounts(s, Subscriber(c, id));
    assert ListedFor(Finished(s), c, id);
  }

  lemma InTwice(list: seq<Subscriber>, i: nat, j: nat)
    requires i < j < |list| && list[i] == list[j]
    ensures multiset(list)[list[i]] >= 2
  {
    assert list == list[..j] + list[j..];
    assert list[i] in list[..j] && list[j..][0] == list[i];
    assert list[i] in list[j..];
  }

  lemma UnreadAt(s: State, i: nat)
    requires MonitorFits(s) && s.monitor.Handing? && s.monitor.next <= i < s.monitor.len
    ensures i - s.monitor.next < |Unread(s)| && Unread(s)[i - s.monitor.next] == s.table.arrays[s.monitor.buf].items[i]
  {
  }

  lemma NewcomerOverserved(s: State, c: nat, id: string, snapshot: T.OrderStatus, room: nat)
    requires Fits(s) && c in s.clients && s.clients[c] == Registering(id, snapshot) && Disturbs(s, Register(c, room), id)
    ensures Overserved(OnRegister(s, c, id, snapshot, room), c, id)
  {
    hide Of, RegistryFits, ClientsFit, After, Appended, Unread, ApplyAll, Shows, CellsKnown, HandedFits;
    var t, who, m := OnRegister(s, c, id, snapshot, room), Subscriber(c, id), s.monitor;
    var i :| m.next <= i < m.len && Overwrites(s.table, id, m.buf, i);
    AppendedArray(s.table, ApplyAll(s.ops), who, room, m.buf);
    AppendedCell(s.table, ApplyAll(s.ops), who, room, m.buf, i);
    RegisterMonitor(s, c, id, snapshot, room);
    UnreadAt(t, i);
    assert who in Unread(t);
    assert !PendingFor(m, id);
  }

  /** The list of the order, in the cells of its array. */
  lemma CellsAreList(s: State, id: string, i: nat)
    requires RegistryFits(s) && TableFits(s) && id in s.table.subs && i < s.table.subs[id].len
    ensures var r := s.table.subs[id]; r.buf < |s.table.arrays| && r.len <= |s.table.arrays[r.buf].items|
    ensures var r, list := s.table.subs[id], ListOf(ApplyAll(s.ops), id);
      |list| == r.len && Distinct(list) && Elements(s.table, r) == list && list[i] == s.table.arrays[r.buf].items[i] && list[i].orderId == id &&
      IsListed(s, list[i])
  {
    hide ApplyAll, AddedOnce, CellsKnown;
    ListsAreDistinct(s, id);
    assert RefFits(s.table, id, ApplyAll(s.ops));
    var list := ListOf(ApplyAll(s.ops), id);
    assert list[i] in list;
  }

  /** The client in cell `i` of the list, which is not the one that leaves, stays listed and has got what it had. */
  lemma StaysInList(s: State, c: nat, id: string, d: nat)
    requires ListedFor(s, c, id) && ListedFor(s, d, id) && c != d && Owed(s, SinceListed(d, s.clients[d])) && s.monitor.Handing? && s.monitor.x.id == id
    ensures var t := OnLeave(s, c, id);
      ListedFor(t, d, id) && t.clients[d].told + |Got(t.handed, Subscriber(d, id), false)| + (if Subscriber(d, id) in Unread(s) then 1 else 0) == |Of(t.notes, id)|
  {
    hide Of, Got, Removed, Unread;
    var who := Subscriber(d, id);
    assert |Got(s.handed, who, false)| + |InFlight(s, who)| == |Of(s.notes, id)[s.clients[d].told..]|;
  }

  /** The removal reaches the end of what the loop will read: the last of the list is there twice now. */
  lemma LastIsTwice(s: State, c: nat, id: string, i: nat)
    requires Fits(s) && Leaves(s, c, id) && s.monitor.Handing? && s.monitor.x.id == id
    requires s.monitor.next <= i < s.monitor.len && Shifts(s.table, Subscriber(c, id), s.monitor.buf, i)
    requires s.table.subs[id].len <= s.monitor.len
    ensures var t, last := OnLeave(s, c, id), s.table.arrays[s.monitor.buf].items[s.table.subs[id].len - 1];
      s.monitor.buf < |s.table.arrays| && multiset(Unread(t))[last] >= 2
  {
    hide Of, RegistryFits, ClientsFit, After, Removed, Unread, ApplyAll, Shows, CellsKnown, HandedFits, IndexOf;
    var t, m, who, n := OnLeave(s, c, id), s.monitor, Subscriber(c, id), s.table.subs[id].len;
    var v := ApplyAll(s.ops);
    LeaveMonitor(s, c, id);
    RemovedArray(s.table, v, who, m.buf);
    assert Shifts(s.table, who, m.buf, n - 2) && !Shifts(s.table, who, m.buf, n - 1);
    RemovedCell(s.table, v, who, m.buf, n - 2);
    RemovedCell(s.table, v, who, m.buf, n - 1);
    UnreadAt(t, n - 2);
    UnreadAt(t, n - 1);
    InTwice(Unread(t), n - 2 - m.next, n - 1 - m.next);
  }

  /** The list has grown behind what the loop will read: one of the newcomers is moved into it. */
  lemma NewcomerMovesIn(s: State, c: nat, id: string, i: nat)
    requires Fits(s) && Leaves(s, c, id) && s.monitor.Handing? && s.monitor.x.id == id
    requires s.monitor.next <= i < s.monitor.len && Shifts(s.table, Subscriber(c, id), s.monitor.buf, i)
    requires s.table.subs[id].len > s.monitor.len
    ensures s.monitor.buf < |s.table.arrays| && s.monitor.len < |s.table.arrays[s.monitor.buf].items|
    ensures var t, moved := OnLeave(s, c, id), s.table.arrays[s.monitor.buf].items[s.monitor.len];
      moved in Unread(t) && moved !in Unread(s)
  {
    hide Of, ClientsFit, After, Removed, Unread, ApplyAll, Shows, CellsKnown, HandedFits, IndexOf;
    var t, m, who := OnLeave(s, c, id), s.monitor, Subscriber(c, id);
    var v := ApplyAll(s.ops);
    CellsAreList(s, id, m.len);
    hide RegistryFits;
    LeaveMonitor(s, c, id);
    RemovedArray(s.table, v, who, m.buf);
    RemovedCell(s.table, v, who, m.buf, m.len - 1);
    UnreadAt(t, m.len - 1);
    NotBefore(s, id);
  }

  lemma NotBefore(s: State, id: string)
    requires RegistryFits(s) && TableFits(s) && MonitorFits(s) && s.monitor.Handing? && id in s.table.subs
    requires s.table.subs[id].buf == s.monitor.buf && s.monitor.len < s.table.subs[id].len
    ensures s.monitor.buf < |s.table.arrays| && s.monitor.len < |s.table.arrays[s.monitor.buf].items|
    ensures s.table.arrays[s.monitor.buf].items[s.monitor.len] !in Unread(s)
  {
    hide ApplyAll, CellsKnown, Shows, RegistryFits;
    var m := s.monitor;
    CellsAreList(s, id, m.len);
    var items, list := s.table.arrays[m.buf].items, ListOf(ApplyAll(s.ops), id);
    hide TableFits, ListOf;
    forall k | 0 <= k < |Unread(s)| ensures Unread(s)[k] != items[m.len] {
      assert Unread(s)[k] == list[m.next + k];
    }
  }

  lemma LeaverShows(s: State, c: nat, id: string) returns (d: nat)
    requires Fits(s) && Leaves(s, c, id) && Disturbs(s, Leave(c), id)
    requires forall d :: ListedFor(s, d, id) ==> Owed(s, SinceListed(d, s.clients[d]))
    ensures Overserved(OnLeave(s, c, id), d, id)
  {
    hide Of, Got, Unread, Removed, ApplyAll, Shows, CellsKnown, HandedFits, After, ClientsFit, AddedOnce, Owed, IndexOf;
    var m, who := s.monitor, Subscriber(c, id);
    var i :| m.next <= i < m.len && Shifts(s.table, who, m.buf, i);
    var n := s.table.subs[id].len;
    if n <= m.len {
      CellsAreList(s, id, n - 1);
      LastIsTwice(s, c, id, i);
      var last := s.table.arrays[m.buf].items[n - 1];
      d := last.handle;
      assert last == Subscriber(d, id);
      assert c != d by { NotTheLast(s, c, id); }
      StaysInList(s, c, id, d);
    } else {
      CellsAreList(s, id, m.len);
      NewcomerMovesIn(s, c, id, i);
      var moved := s.table.arrays[m.buf].items[m.len];
      d := moved.handle;
      assert moved == Subscriber(d, id);
      assert c != d by { NotBehind(s, c, id, m.len, i); }
      StaysInList(s, c, id, d);
    }
  }

  lemma NotTheLast(s: State, c: nat, id: string)
    requires id in s.table.subs && IndexOf(Elements(s.table, s.table.subs[id]), Subscriber(c, id)) < s.table.subs[id].len - 1
    requires Distinct(Elements(s.table, s.table.subs[id])) && |Elements(s.table, s.table.subs[id])| == s.table.subs[id].len
    ensures Elements(s.table, s.table.subs[id])[s.table.subs[id].len - 1] != Subscriber(c, id)
  {
  }

  lemma NotBehind(s: State, c: nat, id: string, k: nat, i: nat)
    requires id in s.table.subs && IndexOf(Elements(s.table, s.table.subs[id]), Subscriber(c, id)) <= i < k < s.table.subs[id].len
    requires Distinct(Elements(s.table, s.table.subs[id])) && |Elements(s.table, s.table.subs[id])| == s.table.subs[id].len
    ensures Elements(s.table, s.table.subs[id])[k] != Subscriber(c, id)
  {
  }

  /** The first disturbance of an order's loops leaves one of its clients with too many announcements. */
  lemma DisturbanceShows(s: State, l: Label, id: string)
    requires Fits(s) && Disturbs(s, l, id)
    requires forall c :: ListedFor(s, c, id) ==> Owed(s, SinceListed(c, s.clients[c]))
    ensures !Served(Finished(Next(s, l)), id)
  {
    hide Fits, Owed, Served, Finished, OnRegister, OnLeave, Shifts, Overwrites, Overserved;
    HandlersLeaveMonitor(s, l);
    if l.Leave? {
      var d := LeaverShows(s, l.client, id);
      OverservedShows(OnLeave(s, l.client, id), d, id);
    } else {
      var client := s.clients[l.client];
      NewcomerOverserved(s, l.client, id, client.snapshot, l.room);
      OverservedShows(OnRegister(s, l.client, id, client.snapshot, l.room), l.client, id);
    }
  }

  lemma {:induction false} SomeDisturbanceShows(trace: seq<Label>, id: string) returns (k: nat)
    requires !Undisturbed(Initial(), trace, id)
    ensures k <= |trace| && !Served(Finished(Exec(Initial(), trace[..k])), id)
  {
    hide Fits, Owed, Served, Finished, Disturbs;
    var before, l := trace[..|trace| - 1], trace[|trace| - 1];
    if !Undisturbed(Initial(), before, id) {
      k := SomeDisturbanceShows(before, id);
      assert before[..k] == trace[..k];
    } else {
      k := |trace|;
      AlwaysFits(before);
      AlwaysFits([]);
      var s := Exec(Initial(), before);
      forall c | ListedFor(s, c, id) ensures Owed(s, SinceListed(c, s.clients[c])) {
        OwedAlong(Initial(), before, c, id);
      }
      hide Next;
      DisturbanceShows(s, l, id);
      assert trace[..k] == trace;
    }
  }

  /** In every run: wherever in it one stops and lets the hand-over under way finish, the clients of an order have been handed every
      announcement since their registration, each once and in order, exactly if no removal or registration has
      overwritten a cell that a loop of this order had yet to read. */
  lemma ServedIffUndisturbed(trace: seq<Label>, id: string)
    ensures ServedThroughout(trace, id) <==> Undisturbed(Initial(), trace, id)
  {
    hide Undisturbed, Served, Finished, Exec;
    if Undisturbed(Initial(), trace, id) {
      forall k | 0 <= k <= |trace| ensures Served(Finished(Exec(Initial(), trace[..k])), id) {
        UndisturbedPrefix(Initial(), trace, id, k);
        UndisturbedServes(trace[..k], id);
      }
    } else {
      var k := SomeDisturbanceShows(trace, id);
    }
  }

  lemma HandedOutRuns(trace: seq<Label>, s: State) returns (more: seq<Label>)
    requires s == Exec(Initial(), trace) && s.monitor.Handing?
    ensures HandedOut(s) == Exec(Initial(), trace + more)
    decreases |Unread(s)|
  {
    hide Exec, Unread;
    ExecStep(Initial(), trace, Hand);
    more := [Hand];
    assert Next(s, Hand) == OnHand(s);
    if Unread(s) != [] {
      UnreadAfter(s);
      var rest := HandedOutRuns(trace + [Hand], OnHand(s));
      assert trace + [Hand] + rest == trace + ([Hand] + rest);
      more := [Hand] + rest;
    }
  }

  /** Finishing is a run itself: the slice is read if it was not yet, and its cells are handed out. */
  lemma FinishedIsARun(trace: seq<Label>) returns (more: seq<Label>)
    ensures Finished(Exec(Initial(), trace)) == Exec(Initial(), trace + more)
  {
    hide Exec, OnHand, OnReadList;
    var s := Exec(Initial(), trace);
    if s.monitor.Polling? {
      more := [];
      assert trace + more == trace;
    } else if s.monitor.Announcing? {
      ExecStep(Initial(), trace, ReadList);
      assert Next(s, ReadList) == OnReadList(s, s.monitor.x, s.monitor.left);
      assert OnReadList(s, s.monitor.x, s.monitor.left).monitor.Handing? by { ReadsOn(s, s.monitor.x, s.monitor.left); }
      var rest := HandedOutRuns(trace + [ReadList], OnReadList(s, s.monitor.x, s.monitor.left));
      assert trace + [ReadList] + rest == trace + ([ReadList] + rest);
      more := [ReadList] + rest;
    } else {
      more := HandedOutRuns(trace, s);
    }
  }

  lemma ReadsOn(s: State, x: Sighting, left: set<string>)
    ensures OnReadList(s, x, left).monitor.Handing?
  {
  }

  // ----- What a client can miss -----------------------------------------------------------------

  /** Everything handed to this subscriber, by its handler or by the monitor. */
  function Received(s: State, who: Subscriber): set<T.OrderStatus> {
    (set i | 0 <= i < |Got(s.handed, who, true)| :: Got(s.handed, who, true)[i]) +
    (set i | 0 <= i < |Got(s.handed, who, false)| :: Got(s.handed, who, false)[i])
  }

  /** The poll against which changes are announced to a client registered after `seen` polls. */
  function BaselineAt(seen: nat): nat {
    if seen > 0 then seen - 1 else 0
  }

  predicate ChangedSince(polled: seq<T.OrderStatus>, base: nat) {
    base < |polled| && exists i :: base < i < |polled| && polled[i] != polled[base]
  }

  lemma ChangedByLast(polled: seq<T.OrderStatus>, base: nat)
    requires base + 2 <= |polled|
    ensures var n := |polled|;
      ChangedSince(polled, base) <==> ChangedSince(polled[..n - 1], base) || polled[n - 1] != polled[n - 2]
  {
    var n := |polled|;
    var before := polled[..n - 1];
    assert forall i :: 0 <= i < n - 1 ==> before[i] == polled[i];
    if ChangedSince(polled, base) {
      var i :| base < i < |polled| && polled[i] != polled[base];
      if i < n - 1 {
        assert before[i] != before[base];
      } else if n - 2 > base && polled[n - 1] == polled[n - 2] {
        assert before[n - 2] != before[base];
      }
    }
    if ChangedSince(before, base) {
      var i :| base < i < |before| && before[i] != before[base];
      assert polled[i] != polled[base];
    } else if polled[n - 1] != polled[n - 2] {
      assert n - 2 > base ==> before[n - 2] == before[base];
      assert polled[n - 1] != polled[base];
    }
  }

  lemma {:induction false} MoreChanges(polled: seq<T.OrderStatus>, seen: nat)
    requires seen <= |polled|
    ensures |Tail(Changes(polled[..seen]))| <= |Tail(Changes(polled))|
    ensures |Tail(Changes(polled[..seen]))| < |Tail(Changes(polled))| <==> ChangedSince(polled, BaselineAt(seen))
    decreases |polled| - seen
  {
    var n := |polled|;
    if seen == n {
      assert polled[..seen] == polled;
    } else {
      var before := polled[..n - 1];
      assert before + [polled[n - 1]] == polled && before[..seen] == polled[..seen];
      MoreChanges(before, seen);
      if n == 1 {
        assert before == [] && polled == [polled[0]];
      } else {
        ChangesGrow(before, polled[n - 1]);
        ChangedByLast(polled, BaselineAt(seen));
        hide Changes, ChangedSince;
      }
    }
  }

  /** For a client registered after `before`, as long as no loop of its order has been disturbed since: once it has been sent its first
      status and nothing is on its way to it, the latest polled status is among what it was handed exactly when it was
      that first status, or an announcement was on its way to the list at the registration, or some later poll
      differed from the one before the registration (from the first poll, if none was before). Otherwise the change has
      fallen between the client's own reading and the baseline. */
  lemma CaughtUpIff(before: seq<Label>, after: seq<Label>, c: nat, id: string)
    requires var s := Exec(Initial(), before); !ListedFor(s, c, id) && Undisturbed(s, after, id)
    ensures var t := Exec(Exec(Initial(), before), after);
      ListedFor(t, c, id) && t.clients[c].greeting.Sent? && id in t.last && InFlight(t, Subscriber(c, id)) == [] ==>
        var client := t.clients[c];
        t.last[id] in Received(t, Subscriber(c, id)) <==>
          client.snapshot == t.last[id] || client.pending || ChangedSince(Of(t.polls, id), BaselineAt(client.seen))
  {
    hide Exec, MonitorFits, HandedFits, After, RegistryFits, TableFits, Of, Changes, Got, InFlight, Received, Undisturbed;
    var s := Exec(Initial(), before);
    var t := Exec(s, after);
    AlwaysFits(before);
    FitsAlong(s, after);
    HandsOverEveryAnnouncement(before, after, c, id);
    if ListedFor(t, c, id) && t.clients[c].greeting.Sent? && id in t.last && InFlight(t, Subscriber(c, id)) == [] {
      var client, who, polled, notes := t.clients[c], Subscriber(c, id), Of(t.polls, id), Of(t.notes, id);
      NotesAreChanges(t, id);
      MoreChanges(polled, client.seen);
      var got := Got(t.handed, who, false);
      assert got + [] == got;
      assert got == notes[client.told..];
      ReceivedIs(t, who, client.snapshot, t.last[id]);
      LatestIsLast(polled, got, client.told);
    }
  }

  lemma ReceivedIs(s: State, who: Subscriber, snapshot: T.OrderStatus, status: T.OrderStatus)
    requires Got(s.handed, who, true) == [snapshot]
    ensures status in Received(s, who) <==> snapshot == status || status in Got(s.handed, who, false)
  {
    hide Got;
    var got := Got(s.handed, who, false);
    if status in got {
      var i :| 0 <= i < |got| && got[i] == status;
    }
    assert Got(s.handed, who, true)[0] == snapshot;
  }

  /** The announcements from `told` on, if there are any, end on the latest poll. */
  lemma LatestIsLast(polled: seq<T.OrderStatus>, got: seq<T.OrderStatus>, told: nat)
    requires polled != [] && told <= |Tail(Changes(polled))| && got == Tail(Changes(polled))[told..]
    ensures told < |Tail(Changes(polled))| ==> polled[|polled| - 1] in got
    ensures told == |Tail(Changes(polled))| ==> got == []
  {
    ChangesEnd(polled);
    hide Changes;
    if told < |Tail(Changes(polled))| {
      assert got[|got| - 1] == Changes(polled)[|Changes(polled)| - 1];
    }
  }

  // ----- Runs that show it ----------------------------------------------------------------------

  lemma Extend(trace: seq<Label>, s: State, l: Label) returns (trace': seq<Label>, s': State)
    requires s == Exec(Initial(), trace)
    ensures trace' == trace + [l] && s' == Exec(Initial(), trace') && s' == Next(s, l)
  {
    trace', s' := trace + [l], Next(s, l);
    ExecStep(Initial(), trace, l);
  }

  function Client0(): Subscriber { Subscriber(0, "o") }
  function Client1(): Subscriber { Subscriber(1, "o") }
  function Client2(): Subscriber { Subscriber(2, "o") }

  /** One order, one array with four cells, this list in it. */
  function OneArray(list: seq<Subscriber>): Table {
    Table([Cells("o", list, 4)], map["o" := Ref(0, |list|)])
  }

  lemma FirstInArray()
    ensures Appended(Table([], map[]), Client0(), 3) == OneArray([Client0()])
  {
    assert [] + [Client0()] == [Client0()];
    assert [] + [Cells("o", [Client0()], 4)] == [Cells("o", [Client0()], 4)];
  }

  lemma NextInArray(list: seq<Subscriber>, who: Subscriber)
    requires 0 < |list| < 4 && who.orderId == "o"
    ensures Appended(OneArray(list), who, 0) == OneArray(list + [who])
  {
    var t := OneArray(list);
    assert Written(list, |list|, who) == list + [who];
    assert t.arrays[0 := Cells("o", list + [who], 4)] == [Cells("o", list + [who], 4)];
    assert t.subs["o" := Ref(0, |list| + 1)] == map["o" := Ref(0, |list| + 1)];
  }

  lemma OfOne(x: Sighting, id: string)
    ensures Of([], id) == [] && Of([x], id) == if x.id == id then [x.status] else []
  {
    OfGrows([], x, id);
    assert [] + [x] == [x];
  }

  /** A client opens its stream and is added to the array. */
  lemma Joins(trace: seq<Label>, s: State, c: nat, list: seq<Subscriber>) returns (trace': seq<Label>, s': State)
    requires s == Exec(Initial(), trace) && c !in s.clients && "o" in s.rows && s.monitor.Polling?
    requires s.table == if list == [] then Table([], map[]) else OneArray(list)
    requires if list == [] then c == 0 else |list| < 4
    ensures s' == Exec(Initial(), trace')
    ensures s' == s.(table := OneArray(list + [Subscriber(c, "o")]), ops := s'.ops,
                     clients := s.clients[c := Listed("o", s.rows["o"], |Of(s.notes, "o")|, |Of(s.polls, "o")|, false, Due)])
  {
    var room := if list == [] then 3 else 0;
    if list == [] {
      FirstInArray();
      assert list + [Subscriber(c, "o")] == [Client0()];
    } else {
      NextInArray(list, Subscriber(c, "o"));
    }
    hide Exec, Of, Appended, Removed, Unread, OneArray;
    trace', s' := Extend(trace, s, Open(c, "o", true));
    assert s' == s.(clients := s.clients[c := Registering("o", s.rows["o"])]);
    var t := s';
    trace', s' := Extend(trace', s', Register(c, room));
    assert s' == OnRegister(t, c, "o", s.rows["o"], room);
    hide Next;
    assert s'.clients == s.clients[c := Listed("o", s.rows["o"], |Of(s.notes, "o")|, |Of(s.polls, "o")|, false, Due)];
  }

  lemma Greets(trace: seq<Label>, s: State, c: nat) returns (trace': seq<Label>, s': State)
    requires s == Exec(Initial(), trace) && ListedFor(s, c, "o") && s.clients[c].greeting.Due?
    ensures s' == Exec(Initial(), trace')
    ensures s' == s.(handed := s.handed + [Handover(Subscriber(c, "o"), s.clients[c].snapshot, true)],
                     clients := s.clients[c := s.clients[c].(greeting := Sent)])
  {
    hide Exec, Of, Appended, Removed, Unread;
    trace', s' := Extend(trace, s, Greet(c, true));
  }

  lemma TakesBaseline(trace: seq<Label>, s: State) returns (trace': seq<Label>, s': State)
    requires s == Exec(Initial(), trace) && s.monitor == Polling({}) && s.table.subs.Keys == {"o"} && "o" in s.rows && s.last == map[]
    ensures s' == Exec(Initial(), trace')
    ensures s' == s.(polls := s.polls + [Sighting("o", s.rows["o"])], last := map["o" := s.rows["o"]])
  {
    hide Exec;
    trace', s' := Extend(trace, s, StartRound);
    assert s'.monitor == Polling({"o"});
    trace', s' := Extend(trace', s', Poll("o", true));
  }

  lemma RowStored() returns (trace: seq<Label>, s: State)
    ensures s == Exec(Initial(), trace) && s == Initial().(rows := map["o" := T.Pending])
  {
    ExecNothing();
    hide Exec;
    trace, s := Extend([], Initial(), SetRow("o", T.Pending));
    assert map[]["o" := T.Pending] == map["o" := T.Pending];
  }

  /** The order is stored, one client joins, and the monitor takes its baseline. */
  lemma OneClient() returns (trace: seq<Label>, s: State)
    ensures s == Exec(Initial(), trace)
    ensures s.rows == map["o" := T.Pending] && s.table == OneArray([Client0()])
    ensures s.clients == map[0 := Listed("o", T.Pending, 0, 0, false, Due)]
    ensures s.monitor == Polling({}) && s.last == map["o" := T.Pending] && s.polls == [Sighting("o", T.Pending)] && s.notes == [] && s.handed == []
  {
    trace, s := RowStored();
    assert [] + [Client0()] == [Client0()];
    assert |Of(s.notes, "o")| == 0 && |Of(s.polls, "o")| == 0;
    hide Exec, Of;
    trace, s := Joins(trace, s, 0, []);
    assert s.clients == map[0 := Listed("o", T.Pending, 0, 0, false, Due)];
    trace, s := TakesBaseline(trace, s);
  }

  /** Two clients of one order, not yet sent their first status, and a baseline. */
  lemma TwoClients() returns (trace: seq<Label>, s: State)
    ensures s == Exec(Initial(), trace)
    ensures s.rows == map["o" := T.Pending] && s.table == OneArray([Client0(), Client1()])
    ensures s.clients == map[0 := Listed("o", T.Pending, 0, 0, false, Due), 1 := Listed("o", T.Pending, 0, 1, false, Due)]
    ensures s.monitor == Polling({}) && s.last == map["o" := T.Pending] && s.polls == [Sighting("o", T.Pending)] && s.notes == [] && s.handed == []
  {
    trace, s := OneClient();
    OfOne(Sighting("o", T.Pending), "o");
    assert [Client0()] + [Client1()] == [Client0(), Client1()];
    hide Exec, Of, OneArray;
    trace, s := Joins(trace, s, 1, [Client0()]);
  }

  /** A change is polled and the slice with these subscribers is read. */
  lemma ChangeRead(trace: seq<Label>, s: State, list: seq<Subscriber>) returns (trace': seq<Label>, s': State)
    requires s == Exec(Initial(), trace) && s.monitor == Polling({}) && s.last == map["o" := T.Pending] && s.table == OneArray(list)
    ensures s' == Exec(Initial(), trace')
    ensures s' == s.(rows := s.rows["o" := T.Paid], monitor := Handing(Sighting("o", T.Paid), 0, |list|, 0, {}), last := map["o" := T.Paid],
                     polls := s.polls + [Sighting("o", T.Paid)], notes := s.notes + [Sighting("o", T.Paid)])
  {
    hide Exec, Of, Appended, Removed, Unread;
    trace', s' := Extend(trace, s, SetRow("o", T.Paid));
    trace', s' := Extend(trace', s', StartRound);
    assert s'.monitor == Polling({"o"});
    trace', s' := Extend(trace', s', Poll("o", true));
    assert s'.last == map["o" := T.Paid];
    assert s'.monitor == Announcing(Sighting("o", T.Paid), {});
    trace', s' := Extend(trace', s', ReadList);
  }

  /** The loop reads the next cell. */
  lemma HandsNext(trace: seq<Label>, s: State, who: Subscriber) returns (trace': seq<Label>, s': State)
    requires s == Exec(Initial(), trace) && s.monitor.Handing? && Unread(s) != [] && Unread(s)[0] == who
    ensures s' == Exec(Initial(), trace')
    ensures s' == s.(handed := s.handed + [Handover(who, s.monitor.x.status, false)], monitor := s.monitor.(next := s.monitor.next + 1))
  {
    trace', s' := Extend(trace, s, Hand);
  }

  lemma LoopEnds(trace: seq<Label>, s: State) returns (trace': seq<Label>, s': State)
    requires s == Exec(Initial(), trace) && s.monitor.Handing? && Unread(s) == []
    ensures s' == Exec(Initial(), trace') && s' == s.(monitor := Polling(s.monitor.left))
  {
    trace', s' := Extend(trace, s, Hand);
  }

  /** The handler's own first send can come after an announcement: the client was handed the latest status, and a stale one after it.
      The code promises no order between the two. */
  lemma SnapshotCanComeLast() returns (trace: seq<Label>)
    ensures var s := Exec(Initial(), trace);
      "o" in s.last && s.last["o"] == T.Paid && ListedFor(s, 1, "o") &&
      s.handed == [Handover(Client0(), T.Paid, false), Handover(Client1(), T.Paid, false), Handover(Client1(), T.Pending, true)]
  {
    var s;
    trace, s := TwoClients();
    hide Exec;
    trace, s := ChangeRead(trace, s, [Client0(), Client1()]);
    trace, s := HandsNext(trace, s, Client0());
    trace, s := HandsNext(trace, s, Client1());
    trace, s := Greets(trace, s, 1);
  }

  /** A client of the order that has read Pending and was registered after `seen` polls. */
  function Fresh(seen: nat): Client { Listed("o", T.Pending, 0, seen, false, Due) }

  /** All three are sent their first status. */
  lemma GreetsThree(trace: seq<Label>, s: State) returns (trace': seq<Label>, s': State)
    requires s == Exec(Initial(), trace) && s.handed == []
    requires s.clients == map[0 := Fresh(0), 1 := Fresh(1), 2 := Fresh(1)]
    ensures s' == Exec(Initial(), trace') && s' == s.(clients := s'.clients, handed := s'.handed)
    ensures s'.clients.Keys == {0, 1, 2} && forall c :: 0 <= c < 3 ==> ListedFor(s', c, "o") && s'.clients[c].greeting.Sent?
    ensures s'.handed == [Handover(Client0(), T.Pending, true), Handover(Client1(), T.Pending, true), Handover(Client2(), T.Pending, true)]
  {
    hide Exec;
    trace', s' := Greets(trace, s, 0);
    assert s'.handed == [Handover(Client0(), T.Pending, true)] && s'.clients[1] == Fresh(1) && s'.clients[2] == Fresh(1);
    trace', s' := Greets(trace', s', 1);
    assert s'.handed == [Handover(Client0(), T.Pending, true), Handover(Client1(), T.Pending, true)] && s'.clients[2] == Fresh(1);
    trace', s' := Greets(trace', s', 2);
  }

  /** Three clients of one order, all sent their first status, and a baseline. */
  lemma ThreeClients() returns (trace: seq<Label>, s: State)
    ensures s == Exec(Initial(), trace)
    ensures s.table == OneArray([Client0(), Client1(), Client2()]) && s.clients.Keys == {0, 1, 2}
    ensures forall c :: 0 <= c < 3 ==> ListedFor(s, c, "o") && s.clients[c].greeting.Sent?
    ensures s.monitor == Polling({}) && s.last == map["o" := T.Pending]
    ensures s.handed == [Handover(Client0(), T.Pending, true), Handover(Client1(), T.Pending, true), Handover(Client2(), T.Pending, true)]
  {
    trace, s := TwoClients();
    assert [Client0(), Client1()] + [Client2()] == [Client0(), Client1(), Client2()];
    OfOne(Sighting("o", T.Pending), "o");
    hide Exec, Of, OneArray, ListedFor;
    trace, s := Joins(trace, s, 2, [Client0(), Client1()]);
    assert s.clients == map[0 := Fresh(0), 1 := Fresh(1), 2 := Fresh(1)];
    trace, s := GreetsThree(trace, s);
  }

  lemma FirstLeavesArray()
    ensures Removed(OneArray([Client0(), Client1(), Client2()]), Client0()) ==
            Table([Cells("o", [Client1(), Client2(), Client2()], 4)], map["o" := Ref(0, 2)])
  {
    var list := [Client0(), Client1(), Client2()];
    assert IndexOf(list, Client0()) == 0;
    assert Shifted(list, 0, 3) == [Client1(), Client2(), Client2()];
    var t := OneArray(list);
    assert t.arrays[0 := Cells("o", [Client1(), Client2(), Client2()], 4)] == [Cells("o", [Client1(), Client2(), Client2()], 4)];
    assert t.subs["o" := Ref(0, 2)] == map["o" := Ref(0, 2)];
  }

  lemma {:induction false} NeverGot(handed: seq<Handover>, who: Subscriber, status: T.OrderStatus)
    requires forall i :: 0 <= i < |handed| && handed[i].to == who ==> handed[i].status != status
    ensures status !in Got(handed, who, true) && status !in Got(handed, who, false)
  {
    if handed != [] {
      NeverGot(handed[..|handed| - 1], who, status);
    }
  }

  /** The first client leaves while the loop is at index 1. */
  lemma FirstLeaves(trace: seq<Label>, s: State) returns (trace': seq<Label>, s': State)
    requires s == Exec(Initial(), trace) && s.table == OneArray([Client0(), Client1(), Client2()]) && Leaves(s, 0, "o")
    requires s.monitor.Handing? && s.monitor.buf == 0 && s.monitor.len == 3 && s.monitor.next == 1
    ensures s' == Exec(Initial(), trace') && s'.monitor == s.monitor && s'.handed == s.handed && s'.last == s.last
    ensures s'.clients == s.clients[0 := Gone("o")] && Unread(s') == [Client2(), Client2()]
  {
    FirstLeavesArray();
    hide Exec, Removed;
    trace', s' := Extend(trace, s, Leave(0));
    assert s'.table.arrays[0].items == [Client1(), Client2(), Client2()];
    assert [Client1(), Client2(), Client2()][1..3] == [Client2(), Client2()];
  }

  /** The loop reads its last two cells and ends. */
  lemma LastTwo(trace: seq<Label>, s: State, a: Subscriber, b: Subscriber) returns (trace': seq<Label>, s': State)
    requires s == Exec(Initial(), trace) && s.monitor.Handing? && Unread(s) == [a, b]
    ensures s' == Exec(Initial(), trace') && s'.monitor.Polling? && s'.clients == s.clients && s'.last == s.last
    ensures s'.handed == s.handed + [Handover(a, s.monitor.x.status, false), Handover(b, s.monitor.x.status, false)]
  {
    hide Exec, Unread;
    var x := s.monitor.x.status;
    trace', s' := HandsNext(trace, s, a);
    UnreadAfter(s);
    assert s' == OnHand(s) && Unread(s') == [b];
    var t := s';
    trace', s' := HandsNext(trace', s', b);
    UnreadAfter(t);
    assert s' == OnHand(t) && Unread(s') == [];
    trace', s' := LoopEnds(trace', s');
    assert s.handed + [Handover(a, x, false)] + [Handover(b, x, false)] == s.handed + [Handover(a, x, false), Handover(b, x, false)];
  }

  /** A removal inside a hand-over loop: the first client's send has failed and its handler removes it while the loop is at index 1. The loop
      passes over the second client and comes to the third one twice. So nothing is on its way, the second client is still
      listed, a change was polled after its registration, and it has not been handed the latest status. */
  lemma RemovalSkipsAndRepeats() returns (trace: seq<Label>)
    ensures var s := Exec(Initial(), trace);
      s.monitor.Polling? && "o" in s.last && s.last["o"] == T.Paid && ListedFor(s, 1, "o") && ListedFor(s, 2, "o") &&
      |s.handed| == 6 && s.handed[3..] == [Handover(Client0(), T.Paid, false), Handover(Client2(), T.Paid, false), Handover(Client2(), T.Paid, false)] &&
      T.Paid !in Received(s, Client1())
  {
    var s;
    trace, s := ThreeClients();
    hide Exec;
    trace, s := ChangeRead(trace, s, [Client0(), Client1(), Client2()]);
    trace, s := HandsNext(trace, s, Client0());
    assert WasHanded(s.handed, Client0()) by { assert s.handed[3] == Handover(Client0(), T.Paid, false); }
    hide Unread, OneArray;
    trace, s := FirstLeaves(trace, s);
    trace, s := LastTwo(trace, s, Client2(), Client2());
    NeverGot(s.handed, Client1(), T.Paid);
    hide Got;
  }
}
