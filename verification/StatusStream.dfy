/** The stream server as it is written: the registry with its in-place deletion, the handler of a client in its parts, and the
    polling rounds of the monitor, whose hand-over loop reads the live array, with other handlers and status updates
    coming in between. The server carries its own run of the stream protocol as ghost history. */
module StatusStream {
  import opened Outside
  import opened Text
  import opened StreamProtocol
  import opened Subscriptions
  import T = OrderTransactions

  // ----- The registry, in place -----------------------------------------------------------------

  /** A slice: the first `len` elements of a backing array. */
  datatype Slice = Slice(buf: array<Subscriber>, len: nat)

  ghost predicate SliceFits(s: Slice) {
    s.len <= s.buf.Length
  }

  ghost function Items(s: Slice): seq<Subscriber>
    requires SliceFits(s)
    reads s.buf
  {
    s.buf[..s.len]
  }

  /** append of one element: in place while there is room, into a larger array otherwise. */
  method Append(s: Slice, who: Subscriber) returns (t: Slice)
    requires SliceFits(s)
    modifies s.buf
    ensures SliceFits(t) && t.len == s.len + 1 && Items(t) == old(Items(s)) + [who]
    ensures if s.len < s.buf.Length then t.buf == s.buf && s.buf[..] == old(s.buf[..])[s.len := who] else fresh(t.buf)
    ensures t.buf != s.buf ==> s.buf[..] == old(s.buf[..])
  {
    if s.len < s.buf.Length {
      s.buf[s.len] := who;
      t := Slice(s.buf, s.len + 1);
    } else {
      var larger := new Subscriber[2 * s.len + 1](_ => who);
      for i := 0 to s.len
        invariant larger[..i] == s.buf[..i] && s.buf[..] == old(s.buf[..])
        invariant larger[s.len] == who
      {
        larger[i] := s.buf[i];
      }
      t := Slice(larger, s.len + 1);
      assert larger[..s.len + 1] == larger[..s.len] + [larger[s.len]];
    }
  }

  /** append(s[:at], s[at+1:]...): the rest moves down one place in the same array, and the cells from the last one of the slice on keep
      what they hold. */
  method DeleteAt(s: Slice, at: nat) returns (t: Slice)
    requires SliceFits(s) && at < s.len
    modifies s.buf
    ensures SliceFits(t) && t.buf == s.buf && t.len == s.len - 1
    ensures Items(t) == old(Items(s))[..at] + old(Items(s))[at + 1..]
    ensures s.buf[..] == Shifted(old(s.buf[..]), at, s.len)
  {
    for j := at to s.len - 1
      invariant forall k :: 0 <= k < at ==> s.buf[k] == old(s.buf[k])
      invariant forall k :: at <= k < j ==> s.buf[k] == old(s.buf[k + 1])
      invariant forall k :: j <= k < s.buf.Length ==> s.buf[k] == old(s.buf[k])
    {
      s.buf[j] := s.buf[j + 1];
    }
    t := Slice(s.buf, s.len - 1);
    ghost var was := old(s.buf[..]);
    assert forall k :: 0 <= k < s.buf.Length ==> s.buf[k] == if at <= k < s.len - 1 then was[k + 1] else was[k];
    ShiftedCells(was, at, s.len);
    assert s.buf[..] == Shifted(was, at, s.len);
    assert was[..s.len] == old(s.buf[..s.len]);
    assert s.buf[..s.len - 1] == s.buf[..][..s.len - 1];
  }

  /** OrderServer's registry: the `subs` map and the locked sections that change it. */
  class Registry {
    var subs: map<string, Slice>
    ghost var arrays: set<object>
    ghost var heap: seq<array<Subscriber>>
    ghost var table: Table
    ghost var ops: seq<Op>

    constructor ()
      ensures Valid() && ops == [] && arrays == {} && table == Table([], map[])
    {
      subs, ops, arrays, heap, table := map[], [], {}, [], Table([], map[]);
    }

    /** An array holds these cells, and has this capacity. */
    ghost predicate Holds(k: nat)
      requires k < |heap| && k < |table.arrays|
      reads this`heap, this`table, heap[k]
    {
      heap[k].Length == table.arrays[k].cap && |table.arrays[k].items| <= table.arrays[k].cap &&
      heap[k][..|table.arrays[k].items|] == table.arrays[k].items
    }

    /** The headers are the table's, but for this order's. */
    ghost predicate HeadersBut(id: string)
      reads this`heap, this`subs, this`table
    {
      forall other :: other != id ==> HeaderHere(other)
    }

    ghost predicate HeaderHere(id: string)
      reads this`heap, this`subs, this`table
    {
      (id in subs <==> id in table.subs) &&
      (id in subs ==> table.subs[id].buf < |heap| && subs[id] == Slice(heap[table.subs[id].buf], table.subs[id].len))
    }

    /** The arrays other than `k` hold what the table says. */
    ghost predicate Rest(k: nat)
      reads this`heap, this`arrays, this`table, arrays
    {
      this !in arrays && |heap| == |table.arrays| && (forall j :: 0 <= j < |heap| ==> heap[j] in arrays && (j != k ==> Holds(j))) &&
      forall i, j :: 0 <= i < j < |heap| ==> heap[i] != heap[j]
    }

    /** `heap` are the arrays allocated so far, in order, and hold what the table says; the headers are the table's. */
    ghost predicate Mirrors()
      reads this`heap, this`arrays, this`table, this`subs, arrays
    {
      Rest(|heap|) && forall id :: HeaderHere(id)
    }

    ghost predicate Sliced()
      reads this`subs, this`arrays
    {
      forall id :: id in subs ==> subs[id].buf in arrays && SliceFits(subs[id])
    }

    ghost function Lists(): View
      requires Sliced()
      reads this`subs, this`arrays, arrays
    {
      map id | id in subs :: Items(subs[id])
    }

    /** The arrays hold what the operations so far amount to. */
    ghost predicate Valid()
      reads this, arrays
    {
      Mirrors() && AddedOnce(ops) && Shows(table, ApplyAll(ops)) && Sliced() && Lists() == ApplyAll(ops)
    }

    lemma HeaderIs(v: View, id: string)
      requires Mirrors() && Shows(table, v)
      ensures (id in subs <==> id in table.subs) && (id in subs <==> id in v)
      ensures id in subs ==>
        var r := table.subs[id];
        r.buf < |heap| && subs[id] == Slice(heap[r.buf], r.len) && heap[r.buf] in arrays && Holds(r.buf) && SliceFits(subs[id]) &&
        0 < r.len <= |table.arrays[r.buf].items| && Items(subs[id]) == v[id]
    {
      assert RefFits(table, id, v) && HeaderHere(id);
    }

    lemma ListsShow(v: View)
      requires Mirrors() && Shows(table, v)
      ensures Sliced() && Lists() == v
    {
      hide Mirrors, Shows, Holds;
      forall id ensures (id in subs <==> id in v) && (id in subs ==> subs[id].buf in arrays && SliceFits(subs[id]) && Items(subs[id]) == v[id]) {
        HeaderIs(v, id);
      }
    }

    lemma HeadersAre(id: string)
      requires Mirrors()
      ensures HeadersBut(id) && (id in subs <==> id in table.subs)
    {
      assert HeaderHere(id);
    }

    ghost method Did(op: Op)
      requires Mirrors() && AddedOnce(ops) && Shows(table, Apply(ApplyAll(ops), op))
      requires op.Subscribe? ==> forall i :: 0 <= i < |ops| && ops[i].Subscribe? ==> ops[i].who != op.who
      modifies this`ops
      ensures Valid() && ops == old(ops) + [op] && Lists() == Apply(ApplyAll(old(ops)), op)
    {
      assert this !in arrays;
      hide Apply, Shows, Mirrors, Lists, Sliced;
      ListsShow(Apply(ApplyAll(ops), op));
      assert (ops + [op])[..|ops|] == ops;
      ops := ops + [op];
    }

    /** Array `k` and the header of its order have changed as the table does. */
    ghost method Rewrote(k: nat, id: string, cells: Cells, u: Table)
      requires Rest(k) && k < |heap| && u.arrays == table.arrays[k := cells] && HeadersBut(id) && u.subs - {id} == table.subs - {id}
      requires heap[k].Length == cells.cap && |cells.items| <= cells.cap && heap[k][..|cells.items|] == cells.items
      requires (id in subs <==> id in u.subs) && (id in subs ==> u.subs[id].buf == k && subs[id] == Slice(heap[k], u.subs[id].len))
      modifies this`table
      ensures Mirrors() && table == u
    {
      assert forall j :: 0 <= j < |heap| && j != k ==> Holds(j);
      SameBut(table.subs, u.subs, id);
      table := u;
      forall j | 0 <= j < |heap| ensures Holds(j) {
      }
      forall other ensures HeaderHere(other) {
        assert other != id ==> old(HeaderHere(other));
      }
    }

    lemma SameBut(a: map<string, Ref>, b: map<string, Ref>, id: string)
      requires a - {id} == b - {id}
      ensures forall other :: other != id ==> (other in a <==> other in b) && (other in a ==> a[other] == b[other])
    {
      forall other | other != id ensures (other in a <==> other in b) && (other in a ==> a[other] == b[other]) {
        assert other in a <==> other in (a - {id});
        assert other in b <==> other in (b - {id});
        if other in a {
          assert (a - {id})[other] == a[other] && (b - {id})[other] == b[other];
        }
      }
    }

    /** A new array has come, and the header of its order has changed as the table does. */
    ghost method Allocated(id: string, t: Slice, cells: Cells, u: Table)
      requires Rest(|heap|) && t.buf !in arrays && HeadersBut(id)
      requires u.arrays == table.arrays + [cells] && u.subs == table.subs[id := Ref(|heap|, t.len)] && id in subs && subs[id] == t
      requires t.buf.Length == cells.cap && |cells.items| <= cells.cap && t.buf[..|cells.items|] == cells.items
      modifies this`table, this`heap, this`arrays
      ensures Mirrors() && table == u && heap == old(heap) + [t.buf] && arrays == old(arrays) + {t.buf}
    {
      assert forall j :: 0 <= j < |heap| ==> Holds(j);
      heap, arrays, table := heap + [t.buf], arrays + {t.buf}, u;
      forall j | 0 <= j < |heap| ensures Holds(j) {
      }
      forall other ensures HeaderHere(other) {
        assert other != id ==> old(HeaderHere(other));
      }
    }

    /** The append has taken over a cell of the order's own array. */
    ghost method StoredInPlace(who: Subscriber, room: nat, was: seq<Subscriber>)
      requires who.orderId in table.subs && table.subs[who.orderId].buf < |heap|
      requires var k, n := table.subs[who.orderId].buf, table.subs[who.orderId].len;
        Rest(k) && HeadersBut(who.orderId) && who.orderId in subs && subs[who.orderId] == Slice(heap[k], n + 1) &&
        n <= |table.arrays[k].items| <= |was| == heap[k].Length == table.arrays[k].cap && was[..|table.arrays[k].items|] == table.arrays[k].items &&
        n < |was| && heap[k][..] == was[n := who]
      modifies this`table
      ensures Mirrors() && table == Appended(old(table), who, room)
    {
      var k, n := table.subs[who.orderId].buf, table.subs[who.orderId].len;
      var cells := table.arrays[k];
      AppendedInPlace(table, who, room);
      WrittenInto(heap[k][..], was, cells.items, n, who);
      hide Appended, Written, Rest;
      var items := Written(cells.items, n, who);
      assert heap[k][..|items|] == heap[k][..][..|items|];
      Rewrote(k, who.orderId, cells.(items := items), Appended(table, who, room));
    }

    /** The append has copied the list to a new array. */
    ghost method StoredElsewhere(who: Subscriber, t: Slice, v: View)
      requires Shows(table, v) && Rest(|heap|) && HeadersBut(who.orderId) && t.buf !in arrays
      requires who.orderId in subs && subs[who.orderId] == t && SliceFits(t) && Items(t) == ListOf(v, who.orderId) + [who]
      requires who.orderId in table.subs ==>
        var r := table.subs[who.orderId]; r.buf < |table.arrays| && r.len >= table.arrays[r.buf].cap
      modifies this`table, this`heap, this`arrays
      ensures Mirrors() && table == Appended(old(table), who, t.buf.Length - t.len)
      ensures heap == old(heap) + [t.buf] && arrays == old(arrays) + {t.buf}
    {
      AppendedElsewhere(table, v, who, t.buf.Length - t.len);
      hide Appended, Shows, Rest;
      var cells := Cells(who.orderId, Items(t), t.buf.Length);
      Allocated(who.orderId, t, cells, Appended(table, who, t.buf.Length - t.len));
    }

    /** Registration, under the lock. */
    method Add(who: Subscriber) returns (ghost room: nat)
      requires Valid() && forall i :: 0 <= i < |ops| && ops[i].Subscribe? ==> ops[i].who != who
      modifies this, arrays
      ensures Valid() && ops == old(ops) + [Subscribe(who)] && table == Appended(old(table), who, room)
      ensures old(heap) <= heap && fresh(arrays - old(arrays))
      ensures Lists() == Apply(old(Lists()), Subscribe(who))
    {
      hide ApplyAll, AddedOnce, Apply, Shows, Appended, Written;
      var id := who.orderId;
      HeadersAre(id);
      HeaderIs(ApplyAll(ops), id);
      ListsShow(ApplyAll(ops));
      var s;
      if id in subs {
        s := subs[id];
      } else {
        var empty := new Subscriber[0];
        s := Slice(empty, 0);
      }
      ghost var was := s.buf[..];
      var t := Append(s, who);
      room := t.buf.Length - t.len;
      AppendedShows(table, ApplyAll(ops), who, room);
      subs := subs[id := t];
      forall other | other != id ensures HeaderHere(other) {
        assert old(HeaderHere(other));
      }
      if s.len < s.buf.Length {
        assert Rest(table.subs[id].buf);
        StoredInPlace(who, room, was);
      } else {
        assert Rest(|heap|);
        StoredElsewhere(who, t, ApplyAll(ops));
      }
      hide Rest, HeaderHere, HeadersBut;
      Did(Subscribe(who));
    }

    /** subs[id], read under the lock: the header only. */
    method Read(id: string) returns (s: Slice)
      requires Valid()
      ensures SliceFits(s) && s.len == (if id in table.subs then table.subs[id].len else 0)
      ensures s.len > 0 ==> id in table.subs && table.subs[id].buf < |heap| && s.buf == heap[table.subs[id].buf]
    {
      HeaderIs(ApplyAll(ops), id);
      if id in subs {
        s := subs[id];
      } else {
        var empty := new Subscriber[0];
        s := Slice(empty, 0);
      }
    }

    /** The orders that have subscribers. */
    method Orders() returns (ids: set<string>)
      requires Valid()
      ensures ids == table.subs.Keys == subs.Keys
    {
      forall id ensures id in subs <==> id in table.subs {
        assert HeaderHere(id);
      }
      ids := subs.Keys;
    }

    /** The search of removeSubscriber. */
    method Find(s: Slice, who: Subscriber) returns (i: nat)
      requires SliceFits(s)
      ensures i == IndexOf(Items(s), who)
    {
      i := 0;
      while i < s.len && s.buf[i] != who
        invariant i <= s.len && who !in s.buf[..i]
      {
        i := i + 1;
      }
      assert s.buf[..s.len][..i] == s.buf[..i];
      IndexIs(Items(s), who, i);
    }

    /** The deletion has shifted the cells of the order's array. */
    ghost method Shrank(who: Subscriber, at: nat, was: seq<Subscriber>)
      requires who.orderId in table.subs && table.subs[who.orderId].buf < |heap|
      requires var k, n := table.subs[who.orderId].buf, table.subs[who.orderId].len;
        Rest(k) && HeadersBut(who.orderId) && at < n <= |table.arrays[k].items| <= |was| == heap[k].Length == table.arrays[k].cap &&
        |Shifted(table.arrays[k].items, at, n)| == |table.arrays[k].items| &&
        heap[k][..] == Shifted(was, at, n) && Shifted(was, at, n)[..|table.arrays[k].items|] == Shifted(table.arrays[k].items, at, n) &&
        (if n == 1 then who.orderId !in subs else who.orderId in subs && subs[who.orderId] == Slice(heap[k], n - 1)) &&
        Removed(table, who).arrays == table.arrays[k := table.arrays[k].(items := Shifted(table.arrays[k].items, at, n))] &&
        Removed(table, who).subs == if n == 1 then table.subs - {who.orderId} else table.subs[who.orderId := Ref(k, n - 1)]
      modifies this`table
      ensures Mirrors() && table == Removed(old(table), who)
    {
      var k, n := table.subs[who.orderId].buf, table.subs[who.orderId].len;
      assert |heap| == |table.arrays|;
      hide Removed, Shifted, Rest;
      var items := Shifted(table.arrays[k].items, at, n);
      assert heap[k][..|items|] == heap[k][..][..|items|];
      assert Removed(table, who).subs - {who.orderId} == table.subs - {who.orderId};
      Rewrote(k, who.orderId, table.arrays[k].(items := items), Removed(table, who));
    }

    /** removeSubscriber, under the lock. */
    method RemoveSubscriber(who: Subscriber)
      requires Valid()
      modifies this, arrays
      ensures Valid() && ops == old(ops) + [Remove(who)] && table == Removed(old(table), who)
      ensures heap == old(heap) && arrays == old(arrays)
      ensures Lists() == Apply(old(Lists()), Remove(who))
    {
      hide ApplyAll, AddedOnce, Apply, Shows, Removed, Shifted, IndexOf;
      var id := who.orderId;
      ghost var v := ApplyAll(ops);
      HeadersAre(id);
      HeaderIs(v, id);
      RemovedShows(table, v, who);
      if id in subs {
        var s := subs[id];
        var i := Find(s, who);
        RemovedMeans(table, v, who);
        if i < s.len {
          ghost var was := s.buf[..];
          var t := DeleteAt(s, i);
          subs := if t.len == 0 then subs - {id} else subs[id := t];
          ShiftedInto(was, table.arrays[table.subs[id].buf].items, i, s.len);
          forall other | other != id ensures HeaderHere(other) {
            assert old(HeaderHere(other));
          }
          assert Rest(table.subs[id].buf);
          Shrank(who, i, was);
        }
      } else {
        NotThere(table, who);
      }
      hide Rest, HeaderHere, HeadersBut;
      Did(Remove(who));
    }
  }

  // ----- The server -----------------------------------------------------------------------------

  /** Where the handler of a client stands. */
  datatype Handler =
    | ToRegister(id: string, snapshot: T.OrderStatus)
    | ToGreet(id: string, snapshot: T.OrderStatus)
    | Waiting(id: string)
    | Over

  function StandsAt(client: Client): Handler {
    match client
    case Registering(id, snapshot) => ToRegister(id, snapshot)
    case Listed(id, snapshot, _, _, _, greeting) =>
      if greeting.Due? then ToGreet(id, snapshot) else if greeting.Sent? then Waiting(id) else Over
    case Gone(_) => Over
    case Refused => Over
  }

  /** Every handler stands where its client is, and handles are given out in order. */
  predicate Stand(handlers: map<nat, Handler>, clients: map<nat, Client>, next: nat) {
    handlers.Keys == clients.Keys && forall c :: c in handlers ==> handlers[c] == StandsAt(clients[c]) && c < next
  }

  lemma OneStands(handlers: map<nat, Handler>, clients: map<nat, Client>, next: nat, c: nat, client: Client, next': nat)
    requires Stand(handlers, clients, next) && next <= next' && c < next'
    ensures Stand(handlers[c := StandsAt(client)], clients[c := client], next')
  {
    hide StandsAt;
  }

  lemma ToRegisterIs(handlers: map<nat, Handler>, clients: map<nat, Client>, next: nat, c: nat)
    requires Stand(handlers, clients, next) && c in handlers && handlers[c].ToRegister?
    ensures c in clients && clients[c] == Registering(handlers[c].id, handlers[c].snapshot) && c < next
  {
  }

  lemma NotYetListed(s: State, c: nat, id: string)
    requires Fits(s) && c in s.clients && s.clients[c].Registering? && s.clients[c].id == id
    ensures forall i :: 0 <= i < |s.ops| && s.ops[i].Subscribe? ==> s.ops[i].who != Subscriber(c, id)
  {
    hide ApplyAll, ClientsFit, MonitorFits, HandedFits, After, AddedOnce;
    assert !KnownAs(s, Subscriber(c, id));
  }

  /** OrderServer, with the orders table that it reads and the streams that it hands updates to. */
  class OrderServer {
    const registry: Registry
    const env: Environment
    var rows: map<string, T.OrderStatus>
    var handlers: map<nat, Handler>
    var nextHandle: nat
    var lastStatuses: map<string, T.OrderStatus>
    var handed: seq<Handover>
    ghost var m: State
    ghost var run: seq<Label>

    constructor (env: Environment)
      ensures Valid() && m == Initial() && this.env == env && fresh(registry) && registry.arrays == {}
    {
      this.env := env;
      registry := new Registry();
      rows, handlers, nextHandle, lastStatuses, handed := map[], map[], 0, map[], [];
      m, run := Initial(), [];
    }

    /** What the server holds is what the run says. */
    ghost predicate Matches()
      reads this
    {
      m == Exec(Initial(), run) && rows == m.rows && lastStatuses == m.last && handed == m.handed &&
      Stand(handlers, m.clients, nextHandle)
    }

    ghost predicate Valid()
      reads this, registry, registry.arrays
    {
      Matches() && registry.Valid() && registry.ops == m.ops && registry.table == m.table && this !in registry.arrays && env !in registry.arrays
    }

    ghost method Did(l: Label)
      modifies this`m, this`run
      ensures m == Next(old(m), l) && run == old(run) + [l]
      ensures old(m) == Exec(Initial(), old(run)) ==> m == Exec(Initial(), run)
    {
      ExecStep(Initial(), run, l);
      m, run := Next(m, l), run + [l];
    }

    /** Somebody writes the row. */
    method SetStatus(id: string, status: T.OrderStatus)
      requires Valid()
      modifies this`rows, this`m, this`run
      ensures Valid() && m == Next(old(m), SetRow(id, status))
    {
      hide Exec, Registry.Valid;
      rows := rows[id := status];
      Did(SetRow(id, status));
    }

    /** getOrder */
    method GetOrder(id: string) returns (ok: bool, status: T.OrderStatus)
      modifies env`faultsLeft
      ensures ok ==> id in rows && status == rows[id]
      ensures id in rows ==> env.faultsLeft == old(env.faultsLeft) - if ok then 0 else 1
      ensures env.faultsLeft <= old(env.faultsLeft)
    {
      ok, status := false, T.Pending;
      if id in rows {
        var fails := env.Fails();
        ok := !fails;
        status := rows[id];
      }
    }

    // SubscribeToOrderUpdates, part by part; other goroutines may come in between

    /** The order must exist; its status is read before the client is registered. */
    method OpenStream(id: string) returns (c: nat, ok: bool)
      requires Valid()
      modifies this`handlers, this`nextHandle, this`m, this`run, env`faultsLeft
      ensures Valid() && c !in old(m).clients && m == OnOpen(old(m), c, id, ok)
      ensures env.faultsLeft <= old(env.faultsLeft)
      ensures (ok ==> id != "" && id in m.rows) && c in handlers && handlers[c] == if ok then ToRegister(id, m.rows[id]) else Over
      ensures id != "" && id in rows ==> (ok <==> env.faultsLeft == old(env.faultsLeft))
    {
      hide Exec, Registry.Valid;
      c := nextHandle;
      nextHandle := nextHandle + 1;
      var status := T.Pending;
      ok := false;
      if id != "" {
        ok, status := GetOrder(id);
      }
      OpenStep(m, c, id, ok);
      OneStands(handlers, m.clients, c, c, OnOpen(m, c, id, ok).clients[c], nextHandle);
      hide Next, OnOpen, Stand;
      handlers := handlers[c := if ok then ToRegister(id, status) else Over];
      Did(Open(c, id, ok));
    }

    /** The locked section that adds the client. */
    method RegisterStream(c: nat)
      requires Valid() && c in handlers && handlers[c].ToRegister?
      modifies this`handlers, this`m, this`run, registry, registry.arrays
      ensures Valid() && exists room :: m == OnRegister(old(m), c, old(handlers)[c].id, old(handlers)[c].snapshot, room)
      ensures fresh(registry.arrays - old(registry.arrays)) && old(registry.heap) <= registry.heap
    {
      hide Exec, Fits, Of, OnRegister, Registry.Valid, Appended, Stand, StandsAt;
      var id, snapshot := handlers[c].id, handlers[c].snapshot;
      ToRegisterIs(handlers, m.clients, nextHandle, c);
      assert forall i :: 0 <= i < |m.ops| && m.ops[i].Subscribe? ==> m.ops[i].who != Subscriber(c, id) by {
        AlwaysFits(run);
        NotYetListed(m, c, id);
      }
      ghost var room := registry.Add(Subscriber(c, id));
      RegisterStep(m, c, id, snapshot, room);
      OneStands(handlers, m.clients, nextHandle, c, OnRegister(m, c, id, snapshot, room).clients[c], nextHandle);
      hide Next;
      handlers := handlers[c := ToGreet(id, snapshot)];
      Did(Register(c, room));
    }

    /** The first send. When it fails the handler returns, and the client stays registered. */
    method SendSnapshot(c: nat) returns (ok: bool)
      requires Valid() && c in handlers && handlers[c].ToGreet?
      modifies this`handlers, this`handed, this`m, this`run, env`faultsLeft
      ensures Valid() && m == Next(old(m), Greet(c, ok)) && env.faultsLeft == old(env.faultsLeft) - if ok then 0 else 1
      ensures ok ==> handed == old(handed) + [Handover(Subscriber(c, old(handlers)[c].id), old(handlers)[c].snapshot, true)]
    {
      hide Exec, Registry.Valid;
      var id, snapshot := handlers[c].id, handlers[c].snapshot;
      var fails := env.Fails();
      ok := !fails;
      GreetStep(m, c, id, snapshot, ok);
      OneStands(handlers, m.clients, nextHandle, c, Next(m, Greet(c, ok)).clients[c], nextHandle);
      hide Next, Stand;
      if ok {
        handed := handed + [Handover(Subscriber(c, id), snapshot, true)];
      }
      handlers := handlers[c := if ok then Waiting(id) else Over];
      Did(Greet(c, ok));
    }

    /** After `done` is closed, by a failed send of an announcement. */
    method EndStream(c: nat)
      requires Valid() && c in handlers && handlers[c].Waiting? && WasHanded(handed, Subscriber(c, handlers[c].id))
      modifies this`handlers, this`m, this`run, registry, registry.arrays
      ensures Valid() && m == OnLeave(old(m), c, old(handlers)[c].id)
      ensures registry.arrays == old(registry.arrays) && registry.heap == old(registry.heap)
    {
      hide Exec, Registry.Valid;
      var id := handlers[c].id;
      LeaveStep(m, c, id);
      OneStands(handlers, m.clients, nextHandle, c, Gone(id), nextHandle);
      hide Next;
      registry.RemoveSubscriber(Subscriber(c, id));
      handlers := handlers[c := Over];
      Did(Leave(c));
    }

    /** Only handlers and rows have moved. */
    twostate predicate MonitorStill()
      reads this
    {
      m.monitor == old(m).monitor && m.last == old(m).last && m.polls == old(m).polls && m.notes == old(m).notes &&
      old(m).rows.Keys <= m.rows.Keys
    }

    /** One step of somebody else: a status update, or a part of a handler. */
    method OthersStep()
      requires Valid()
      modifies this, registry, registry.arrays, env`faultsLeft
      ensures Valid() && MonitorStill() && env.faultsLeft <= old(env.faultsLeft)
      ensures fresh(registry.arrays - old(registry.arrays)) && old(registry.heap) <= registry.heap
    {
      hide Exec, Stand, StandsAt, ApplyAll, Of, Registry.Valid;
      var update: bool, opening: bool := *, *;
      if update {
        var id, status := *, *;
        SetStatus(id, status);
      } else if opening {
        var id: string := *;
        var c, ok := OpenStream(id);
      } else if handlers.Keys != {} {
        var c :| c in handlers;
        match handlers[c]
        case ToRegister(_, _) => RegisterStream(c);
        case ToGreet(_, _) => var ok := SendSnapshot(c);
        case Waiting(id) =>
          if WasHanded(handed, Subscriber(c, id)) {
            EndStream(c);
          }
        case Over =>
      }
    }

    /** Any number of them. */
    method Interfere()
      requires Valid()
      modifies this, registry, registry.arrays, env`faultsLeft
      ensures Valid() && MonitorStill() && env.faultsLeft <= old(env.faultsLeft)
      ensures fresh(registry.arrays - old(registry.arrays)) && old(registry.heap) <= registry.heap
    {
      hide Exec, Matches, Registry.Valid;
      var steps: nat := *;
      while steps > 0
        invariant Valid() && MonitorStill() && env.faultsLeft <= old(env.faultsLeft)
        invariant fresh(registry.arrays - old(registry.arrays)) && old(registry.heap) <= registry.heap
      {
        OthersStep();
        steps := steps - 1;
      }
    }

    // The monitor

    /** One order's turn in checkForUpdates; an order that cannot be read is skipped. */
    method Observe(id: string, ghost left: set<string>) returns (announce: bool, x: Sighting)
      requires Valid() && m.monitor == Polling(left) && id in left
      modifies this`lastStatuses, this`m, this`run, env`faultsLeft
      ensures Valid() && exists ok :: m == OnPoll(old(m), id, ok, left) && (id in rows ==> (ok <==> env.faultsLeft == old(env.faultsLeft)))
      ensures m.monitor == if announce then Announcing(x, left - {id}) else Polling(left - {id})
      ensures env.faultsLeft <= old(env.faultsLeft)
      ensures if id in rows && env.faultsLeft == old(env.faultsLeft)
              then lastStatuses == old(lastStatuses)[id := rows[id]] && x == Sighting(id, rows[id]) &&
                   (announce <==> id in old(lastStatuses) && old(lastStatuses)[id] != rows[id])
              else lastStatuses == old(lastStatuses) && !announce
    {
      hide Exec, Stand, Registry.Valid;
      var ok, status := GetOrder(id);
      x := Sighting(id, status);
      announce := false;
      PollStep(m, id, ok, left);
      hide Next;
      ghost var before := m;
      if ok {
        if id !in lastStatuses {
          lastStatuses := lastStatuses[id := status];
        } else if status != lastStatuses[id] {
          lastStatuses := lastStatuses[id := status];
          announce := true;
        } else {
          assert lastStatuses[id := status] == lastStatuses;
        }
      }
      Did(Poll(id, ok));
    }

    /** The loop's next cell, read from the live array, is the protocol's. */
    lemma NextCell(x: Sighting, s: Slice, i: nat, k: nat, left: set<string>)
      requires Valid() && m.monitor == Handing(x, k, s.len, i, left) && i < s.len
      requires k < |registry.heap| && registry.heap[k] == s.buf
      ensures i < s.buf.Length && Unread(m) != [] && Unread(m)[0] == s.buf[i]
    {
      hide Exec, Stand, ApplyAll, RegistryFits, TableFits, ClientsFit, HandedFits, After;
      AlwaysFits(run);
      assert MonitorFits(m);
      assert registry.Holds(k);
    }

    /** One turn of the loop: the subscriber in the cell, as it is now, is handed the update. */
    method HandOver(x: Sighting, subscribers: Slice, i: nat, ghost k: nat, ghost left: set<string>)
      requires Valid() && m.monitor == Handing(x, k, subscribers.len, i, left) && i < subscribers.len
      requires k < |registry.heap| && registry.heap[k] == subscribers.buf
      modifies this`handed, this`m, this`run
      ensures Valid() && i < subscribers.buf.Length && handed == old(handed) + [Handover(subscribers.buf[i], x.status, false)]
      ensures m == old(m).(handed := handed, monitor := Handing(x, k, subscribers.len, i + 1, left))
    {
      hide Exec, Stand, Registry.Valid, Unread;
      NextCell(x, subscribers, i, k, left);
      var sub := subscribers.buf[i];
      HandStep(m);
      handed := handed + [Handover(sub, x.status, false)];
      Did(Hand);
    }

    /** notifySubscribers: the slice is read under the lock, and then the update is handed to the subscriber in each of its cells, as they are when
        the loop comes to them. */
    method NotifySubscribers(x: Sighting, ghost left: set<string>)
      requires Valid() && m.monitor == Announcing(x, left)
      modifies this, registry, registry.arrays, env`faultsLeft
      ensures Valid() && m.monitor == Polling(left) && m.polls == old(m).polls && m.notes == old(m).notes && m.last == old(m).last
      ensures env.faultsLeft <= old(env.faultsLeft) && old(m).rows.Keys <= m.rows.Keys
      ensures fresh(registry.arrays - old(registry.arrays)) && old(registry.heap) <= registry.heap
    {
      hide Exec, Stand, ApplyAll, Registry.Valid;
      Interfere();
      var subscribers := registry.Read(x.id);
      ReadStep(m, x, left);
      Did(ReadList);
      ghost var k := m.monitor.buf;
      var i := 0;
      while i < subscribers.len
        invariant Valid() && i <= subscribers.len && m.monitor == Handing(x, k, subscribers.len, i, left)
        invariant subscribers.len > 0 ==> k < |registry.heap| && registry.heap[k] == subscribers.buf
        invariant m.polls == old(m).polls && m.notes == old(m).notes && m.last == old(m).last
        invariant env.faultsLeft <= old(env.faultsLeft) && old(m).rows.Keys <= m.rows.Keys
        invariant fresh(registry.arrays - old(registry.arrays)) && old(registry.heap) <= registry.heap
      {
        Interfere();
        HandOver(x, subscribers, i, k, left);
        i := i + 1;
      }
      HandStep(m);
      Did(Hand);
    }

    /** One order's turn in a round, with whatever comes in between. */
    method Turn(id: string, ghost left: set<string>)
      requires Valid() && m.monitor == Polling(left) && id in left && id in m.rows
      modifies this, registry, registry.arrays, env`faultsLeft
      ensures Valid() && m.monitor == Polling(left - {id}) && old(m).notes <= m.notes && old(m).rows.Keys <= m.rows.Keys
      ensures (m.polls == old(m).polls && env.faultsLeft < old(env.faultsLeft)) ||
              (env.faultsLeft <= old(env.faultsLeft) && exists status :: m.polls == old(m).polls + [Sighting(id, status)])
      ensures fresh(registry.arrays - old(registry.arrays)) && old(registry.heap) <= registry.heap
    {
      hide Exec, Stand, ApplyAll, Registry.Valid;
      Interfere();
      ghost var before := m;
      var announce, x := Observe(id, left);
      if announce {
        NotifySubscribers(x, left - {id});
      }
    }

    /** checkForUpdates: every order that has subscribers when the round starts is polled once, in any order, unless it cannot
        be read; subscriptions and rows may change at any point in between. */
    method CheckForUpdates()
      requires Valid() && m.monitor == Polling({})
      modifies this, registry, registry.arrays, env`faultsLeft
      ensures Valid() && m.monitor == Polling({})
      ensures old(m).polls <= m.polls && old(m).notes <= m.notes
      ensures |m.polls| - |old(m).polls| + old(env.faultsLeft) - env.faultsLeft >= |old(registry.subs)|
      ensures forall i :: |old(m).polls| <= i < |m.polls| ==> m.polls[i].id in old(registry.subs)
      ensures forall i, j :: |old(m).polls| <= i < j < |m.polls| ==> m.polls[i].id != m.polls[j].id
    {
      hide Exec, Stand, ApplyAll, Registry.Valid;
      var left := registry.Orders();
      ghost var ids := left;
      RowsAreThere(run);
      RoundStep(m);
      Did(StartRound);
      while left != {}
        invariant Valid() && m.monitor == Polling(left) && left <= ids <= m.rows.Keys
        invariant old(m).polls <= m.polls && old(m).notes <= m.notes
        invariant |m.polls| - |old(m).polls| + old(env.faultsLeft) - env.faultsLeft + |left| >= |ids|
        invariant forall i :: |old(m).polls| <= i < |m.polls| ==> m.polls[i].id in ids - left
        invariant forall i, j :: |old(m).polls| <= i < j < |m.polls| ==> m.polls[i].id != m.polls[j].id
        invariant fresh(registry.arrays - old(registry.arrays))
        decreases |left|
      {
        var id :| id in left;
        Turn(id, left);
        left := left - {id};
      }
    }
  }

  lemma PollStep(s: State, id: string, ok: bool, left: set<string>)
    requires s.monitor == Polling(left) && id in left
    ensures Next(s, Poll(id, ok)) == OnPoll(s, id, ok, left)
    ensures var t := OnPoll(s, id, ok, left);
      t == s.(polls := t.polls, last := t.last, notes := t.notes, monitor := t.monitor) && s.notes <= t.notes &&
      (if ok && id in s.rows then t.polls == s.polls + [Sighting(id, s.rows[id])] && t.last == s.last[id := s.rows[id]] else t.polls == s.polls && t.last == s.last) &&
      t.monitor == if ok && id in s.rows && id in s.last && s.last[id] != s.rows[id] then Announcing(Sighting(id, s.rows[id]), left - {id})
                   else Polling(left - {id})
  {
  }

  lemma ReadStep(s: State, x: Sighting, left: set<string>)
    requires s.monitor == Announcing(x, left)
    ensures Next(s, ReadList) == OnReadList(s, x, left)
    ensures var t := OnReadList(s, x, left);
      t == s.(monitor := t.monitor) && t.monitor.Handing? && t.monitor.x == x && t.monitor.next == 0 && t.monitor.left == left &&
      t.monitor.len == (if x.id in s.table.subs then s.table.subs[x.id].len else 0) &&
      (x.id in s.table.subs ==> t.monitor.buf == s.table.subs[x.id].buf)
  {
  }

  lemma HandStep(s: State)
    requires s.monitor.Handing?
    ensures Next(s, Hand) == OnHand(s)
    ensures Unread(s) == [] ==> OnHand(s) == s.(monitor := Polling(s.monitor.left))
    ensures Unread(s) != [] ==>
      OnHand(s) == s.(handed := s.handed + [Handover(Unread(s)[0], s.monitor.x.status, false)],
                      monitor := s.monitor.(next := s.monitor.next + 1))
    ensures s.monitor.next == s.monitor.len ==> Unread(s) == []
  {
  }

  lemma RoundStep(s: State)
    requires s.monitor == Polling({})
    ensures Next(s, StartRound) == s.(monitor := Polling(s.table.subs.Keys))
  {
  }

  lemma OpenStep(s: State, c: nat, id: string, ok: bool)
    requires c !in s.clients && (ok ==> id != "" && id in s.rows)
    ensures var t := OnOpen(s, c, id, ok);
      Next(s, Open(c, id, ok)) == t && t == s.(clients := s.clients[c := t.clients[c]]) &&
      StandsAt(t.clients[c]) == if ok then ToRegister(id, s.rows[id]) else Over
  {
  }

  lemma RegisterStep(s: State, c: nat, id: string, snapshot: T.OrderStatus, room: nat)
    requires c in s.clients && s.clients[c] == Registering(id, snapshot)
    ensures var t := OnRegister(s, c, id, snapshot, room);
      Next(s, Register(c, room)) == t && t == s.(table := Appended(s.table, Subscriber(c, id), room), ops := t.ops, clients := s.clients[c := t.clients[c]]) &&
      t.ops == s.ops + [Subscribe(Subscriber(c, id))] && StandsAt(t.clients[c]) == ToGreet(id, snapshot)
  {
    hide Of, Appended;
  }

  lemma GreetStep(s: State, c: nat, id: string, snapshot: T.OrderStatus, ok: bool)
    requires c in s.clients && StandsAt(s.clients[c]) == ToGreet(id, snapshot)
    ensures var t := Next(s, Greet(c, ok));
      c in t.clients && t == s.(handed := t.handed, clients := s.clients[c := t.clients[c]]) &&
      t.handed == (if ok then s.handed + [Handover(Subscriber(c, id), snapshot, true)] else s.handed) &&
      StandsAt(t.clients[c]) == if ok then Waiting(id) else Over
  {
  }

  lemma LeaveStep(s: State, c: nat, id: string)
    requires c in s.clients && StandsAt(s.clients[c]) == Waiting(id) && WasHanded(s.handed, Subscriber(c, id))
    ensures Next(s, Leave(c)) == OnLeave(s, c, id) == s.(table := Removed(s.table, Subscriber(c, id)),
                                                         ops := s.ops + [Remove(Subscriber(c, id))], clients := s.clients[c := Gone(id)])
  {
    hide Removed;
  }
}
