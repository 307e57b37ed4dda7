/** The registry of subscribers, twice: as the lists that subscriptions and removals amount to, and as the slices over shared backing
    arrays that the server keeps, where a removal shifts the cells of an array in place and an append may reuse a
    cell. A loop that reads such an array cell by cell sees both. */
module Subscriptions {
  /** `handle` stands for the subscriber's address: a new subscriber has one never used before. */
  datatype Subscriber = Subscriber(handle: nat, orderId: string)

  // ----- The registry, as values ----------------------------------------------------------------

  type View = map<string, seq<Subscriber>>

  datatype Op = Subscribe(who: Subscriber) | Remove(who: Subscriber)

  function ListOf(v: View, id: string): seq<Subscriber> {
    if id in v then v[id] else []
  }

  /** The list without the first occurrence. */
  function DropFirst(list: seq<Subscriber>, who: Subscriber): seq<Subscriber> {
    if list == [] then []
    else if list[0] == who then list[1..]
    else [list[0]] + DropFirst(list[1..], who)
  }

  function Apply(v: View, op: Op): View {
    match op
    case Subscribe(who) => v[who.orderId := ListOf(v, who.orderId) + [who]]
    case Remove(who) =>
      var rest := DropFirst(ListOf(v, who.orderId), who);
      if rest == [] then v - {who.orderId} else v[who.orderId := rest]
  }

  function ApplyAll(ops: seq<Op>): View {
    if ops == [] then map[] else Apply(ApplyAll(ops[..|ops| - 1]), ops[|ops| - 1])
  }

  /** A subscriber is added at most once. */
  predicate AddedOnce(ops: seq<Op>) {
    forall i, j :: 0 <= i < j < |ops| && ops[i].Subscribe? && ops[j].Subscribe? ==> ops[i].who != ops[j].who
  }

  /** Those subscribed for the order and not removed afterwards, in order of subscription. */
  function Survivors(ops: seq<Op>, id: string): seq<Subscriber> {
    if ops == [] then []
    else
      (if ops[0].Subscribe? && ops[0].who.orderId == id && Remove(ops[0].who) !in ops[1..] then [ops[0].who] else []) +
      Survivors(ops[1..], id)
  }

  function Without(list: seq<Subscriber>, who: Subscriber): seq<Subscriber> {
    if list == [] then [] else (if list[0] == who then [] else [list[0]]) + Without(list[1..], who)
  }

  predicate Distinct(list: seq<Subscriber>) {
    forall i, j :: 0 <= i < j < |list| ==> list[i] != list[j]
  }

  lemma {:induction false} WithoutAbsent(list: seq<Subscriber>, who: Subscriber)
    requires who !in list
    ensures Without(list, who) == list
  {
    if list != [] {
      WithoutAbsent(list[1..], who);
    }
  }

  lemma {:induction false} DropFirstIsWithout(list: seq<Subscriber>, who: Subscriber)
    requires Distinct(list)
    ensures DropFirst(list, who) == Without(list, who)
  {
    if list != [] {
      DropFirstIsWithout(list[1..], who);
      if list[0] == who {
        WithoutAbsent(list[1..], who);
      }
    }
  }

  lemma {:induction false} WithoutAppend(a: seq<Subscriber>, b: seq<Subscriber>, who: Subscriber)
    ensures Without(a + b, who) == Without(a, who) + Without(b, who)
  {
    if a == [] {
      assert a + b == b;
    } else {
      WithoutAppend(a[1..], b, who);
      assert (a + b)[1..] == a[1..] + b && (a + b)[0] == a[0];
      var head: seq<Subscriber> := if a[0] == who then [] else [a[0]];
      var x, y := Without(a[1..], who), Without(b, who);
      assert Without(a + b, who) == head + (x + y);
      assert head + (x + y) == (head + x) + y;
    }
  }

  /** The first of the survivors, if the first operation is a subscription that nothing undoes. */
  function First(ops: seq<Op>, id: string): seq<Subscriber>
    requires ops != []
  {
    if ops[0].Subscribe? && ops[0].who.orderId == id && Remove(ops[0].who) !in ops[1..] then [ops[0].who] else []
  }

  lemma FirstGrows(ops: seq<Op>, op: Op, id: string)
    requires ops != []
    ensures First(ops + [op], id) == if op.Remove? then Without(First(ops, id), op.who) else First(ops, id)
  {
    assert (ops + [op])[1..] == ops[1..] + [op];
    assert Remove(ops[0].who) in ops[1..] + [op] <==> Remove(ops[0].who) in ops[1..] || Remove(ops[0].who) == op;
    assert Without([], op.who) == [] && Without([ops[0].who], op.who) == if ops[0].who == op.who then [] else [ops[0].who];
  }

  /** One more operation at the end. */
  lemma {:induction false} SurvivorsGrow(ops: seq<Op>, op: Op, id: string)
    ensures Survivors(ops + [op], id) ==
            match op
            case Subscribe(who) => Survivors(ops, id) + if who.orderId == id then [who] else []
            case Remove(who) => Without(Survivors(ops, id), who)
  {
    if ops == [] {
      assert ops + [op] == [op] && [op][1..] == [];
    } else {
      SurvivorsGrow(ops[1..], op, id);
      FirstGrows(ops, op, id);
      assert (ops + [op])[1..] == ops[1..] + [op];
      var head, rest := First(ops, id), Survivors(ops[1..], id);
      assert Survivors(ops, id) == head + rest && Survivors(ops + [op], id) == First(ops + [op], id) + Survivors(ops[1..] + [op], id);
      hide Survivors, First;
      if op.Remove? {
        WithoutAppend(head, rest, op.who);
      } else {
        var tail := if op.who.orderId == id then [op.who] else [];
        assert head + (rest + tail) == (head + rest) + tail;
      }
    }
  }

  lemma {:induction false} SurvivorsAreThere(ops: seq<Op>, id: string)
    requires AddedOnce(ops)
    ensures forall s :: s in Survivors(ops, id) ==> s.orderId == id && Subscribe(s) in ops
    ensures Distinct(Survivors(ops, id))
  {
    if ops != [] {
      SurvivorsAreThere(ops[1..], id);
      if ops[0].Subscribe? {
        assert Subscribe(ops[0].who) !in ops[1..];
      }
    }
  }

  predicate Holds(v: View, id: string, list: seq<Subscriber>) {
    if list == [] then id !in v else id in v && v[id] == list
  }

  lemma HoldsOn(v: View, ops: seq<Op>, op: Op, id: string)
    requires Holds(v, id, Survivors(ops, id)) && AddedOnce(ops)
    ensures Holds(Apply(v, op), id, Survivors(ops + [op], id))
  {
    hide AddedOnce;
    SurvivorsGrow(ops, op, id);
    SurvivorsAreThere(ops, id);
    if op.Remove? {
      if id == op.who.orderId {
        DropFirstIsWithout(Survivors(ops, id), op.who);
      } else {
        WithoutAbsent(Survivors(ops, id), op.who);
      }
    }
  }

  /** After any sequence of subscriptions and removals, the registry lists for each order exactly the subscribers that are still
      there, each once, under its own order and in order of subscription; and it has no empty list. */
  lemma {:induction false} RegistryHoldsSurvivors(ops: seq<Op>)
    requires AddedOnce(ops)
    ensures forall id :: Holds(ApplyAll(ops), id, Survivors(ops, id))
    ensures forall id :: Distinct(Survivors(ops, id)) && forall s :: s in Survivors(ops, id) ==> s.orderId == id
  {
    if ops != [] {
      var before, op := ops[..|ops| - 1], ops[|ops| - 1];
      RegistryHoldsSurvivors(before);
      assert before + [op] == ops;
      hide Holds, Apply;
      forall id ensures Holds(ApplyAll(ops), id, Survivors(ops, id)) {
        HoldsOn(ApplyAll(before), before, op, id);
      }
    }
    forall id ensures Distinct(Survivors(ops, id)) && (forall s :: s in Survivors(ops, id) ==> s.orderId == id) {
      SurvivorsAreThere(ops, id);
    }
  }

  // ----- The registry, as slices over arrays ------------------------------------------------------

  /** A backing array: the cells written so far, and its capacity. `owner` is history: the order it was allocated for. */
  datatype Cells = Cells(owner: string, items: seq<Subscriber>, cap: nat)

  /** A slice header. */
  datatype Ref = Ref(buf: nat, len: nat)

  /** Every array ever allocated, and the header kept for each order that has subscribers. */
  datatype Table = Table(arrays: seq<Cells>, subs: map<string, Ref>)

  function At(t: Table, k: nat): Cells {
    if k < |t.arrays| then t.arrays[k] else Cells("", [], 0)
  }

  function Taken(items: seq<Subscriber>, len: nat): seq<Subscriber> {
    if len <= |items| then items[..len] else items
  }

  function Elements(t: Table, r: Ref): seq<Subscriber> {
    Taken(At(t, r.buf).items, r.len)
  }

  /** The first occurrence, or the length. */
  function IndexOf(list: seq<Subscriber>, who: Subscriber): (i: nat)
    ensures i <= |list| && who !in list[..i] && (i < |list| ==> list[i] == who)
  {
    if list == [] || list[0] == who then 0 else 1 + IndexOf(list[1..], who)
  }

  /** The cells after one more was written at `at`. */
  function Written(items: seq<Subscriber>, at: nat, who: Subscriber): seq<Subscriber> {
    if at < |items| then items[at := who] else items + [who]
  }

  /** subs[id] = append(subs[id], who): in the same array while there is room, in a new one with `room` cells to spare otherwise. */
  function Appended(t: Table, who: Subscriber, room: nat): Table {
    var id := who.orderId;
    var r := if id in t.subs then t.subs[id] else Ref(|t.arrays|, 0);
    var cells := At(t, r.buf);
    if r.buf < |t.arrays| && r.len < cells.cap then
      Table(t.arrays[r.buf := cells.(items := Written(cells.items, r.len, who))], t.subs[id := r.(len := r.len + 1)])
    else
      var list := Elements(t, r) + [who];
      Table(t.arrays + [Cells(id, list, |list| + room)], t.subs[id := Ref(|t.arrays|, |list|)])
  }

  /** The cells after append(subs[:at], subs[at+1:]...) on a slice of length `len`: the rest moves down one place, the cells from the last
      one of the slice on keep what they hold. */
  function Shifted(items: seq<Subscriber>, at: nat, len: nat): seq<Subscriber>
    requires at < len <= |items|
  {
    items[..at] + items[at + 1..len] + items[len - 1..]
  }

  /** removeSubscriber, and the deletion of an empty list. */
  function Removed(t: Table, who: Subscriber): Table {
    var id := who.orderId;
    if id !in t.subs then t
    else
      var r := t.subs[id];
      var list := Elements(t, r);
      var at := IndexOf(list, who);
      if at < |list| && r.buf < |t.arrays| then
        var cells := t.arrays[r.buf];
        Table(t.arrays[r.buf := cells.(items := Shifted(cells.items, at, |list|))],
              if |list| == 1 then t.subs - {id} else t.subs[id := Ref(r.buf, |list| - 1)])
      else t
  }

  predicate CellsFit(cells: Cells) {
    |cells.items| <= cells.cap && forall i :: 0 <= i < |cells.items| ==> cells.items[i].orderId == cells.owner
  }

  /** The header of an order lies in an array of its own and shows this list, which is not empty. */
  predicate RefFits(t: Table, id: string, v: View) {
    if id in t.subs then
      var r := t.subs[id];
      id in v && r.buf < |t.arrays| && t.arrays[r.buf].owner == id && 0 < r.len <= |t.arrays[r.buf].items| &&
      t.arrays[r.buf].items[..r.len] == v[id]
    else id !in v
  }

  /** The slices show exactly these lists. */
  ghost predicate Shows(t: Table, v: View) {
    (forall k :: 0 <= k < |t.arrays| ==> CellsFit(t.arrays[k])) && forall id :: RefFits(t, id, v)
  }

  lemma WrittenShows(items: seq<Subscriber>, at: nat, who: Subscriber)
    requires at <= |items|
    ensures Written(items, at, who)[..at + 1] == items[..at] + [who]
    ensures |Written(items, at, who)| >= |items|
    ensures forall k :: 0 <= k < |Written(items, at, who)| ==> Written(items, at, who)[k] == if k == at then who else items[k]
  {
  }

  /** Only this order's header, list and arrays have changed. */
  predicate OnlyFor(t: Table, u: Table, id: string) {
    |t.arrays| <= |u.arrays| &&
    (forall k :: 0 <= k < |t.arrays| ==> u.arrays[k] == t.arrays[k] || t.arrays[k].owner == id) &&
    t.subs - {id} == u.subs - {id}
  }

  lemma OneListMoves(t: Table, u: Table, v: View, v': View, id: string)
    requires Shows(t, v) && OnlyFor(t, u, id) && v - {id} == v' - {id}
    requires RefFits(u, id, v') && forall k :: 0 <= k < |u.arrays| ==> CellsFit(u.arrays[k])
    ensures Shows(u, v')
  {
    hide CellsFit;
    forall other ensures RefFits(u, other, v') {
      if other != id {
        assert RefFits(t, other, v);
        assert other in t.subs <==> other in (t.subs - {id});
        assert other in u.subs <==> other in (u.subs - {id});
        assert other in v <==> other in (v - {id});
        assert other in v' <==> other in (v' - {id});
        if other in t.subs {
          assert (t.subs - {id})[other] == t.subs[other] && (u.subs - {id})[other] == u.subs[other];
          assert (v - {id})[other] == v[other] && (v' - {id})[other] == v'[other];
        }
      }
    }
  }

  lemma AppendedOnlyFor(t: Table, v: View, who: Subscriber, room: nat)
    requires Shows(t, v)
    ensures OnlyFor(t, Appended(t, who, room), who.orderId)
  {
    hide CellsFit, Written;
    assert RefFits(t, who.orderId, v);
  }

  /** An append adds the subscriber at the end of its list, in whichever array. */
  lemma AppendedShows(t: Table, v: View, who: Subscriber, room: nat)
    requires Shows(t, v)
    ensures Shows(Appended(t, who, room), Apply(v, Subscribe(who)))
  {
    var id, u, v' := who.orderId, Appended(t, who, room), Apply(v, Subscribe(who));
    AppendedOnlyFor(t, v, who, room);
    hide OnlyFor;
    assert v - {id} == v' - {id};
    assert RefFits(t, id, v);
    if id in t.subs {
      WrittenShows(t.arrays[t.subs[id].buf].items, t.subs[id].len, who);
    }
    hide Written;
    assert RefFits(u, id, v');
    OneListMoves(t, u, v, v', id);
  }

  lemma AppendedInPlace(t: Table, who: Subscriber, room: nat)
    requires who.orderId in t.subs
    requires t.subs[who.orderId].buf < |t.arrays| && t.subs[who.orderId].len < t.arrays[t.subs[who.orderId].buf].cap
    ensures var r := t.subs[who.orderId];
      Appended(t, who, room) == Table(t.arrays[r.buf := t.arrays[r.buf].(items := Written(t.arrays[r.buf].items, r.len, who))],
                                      t.subs[who.orderId := Ref(r.buf, r.len + 1)])
  {
  }

  lemma AppendedElsewhere(t: Table, v: View, who: Subscriber, room: nat)
    requires Shows(t, v)
    requires who.orderId in t.subs ==>
      t.subs[who.orderId].buf < |t.arrays| && t.subs[who.orderId].len >= t.arrays[t.subs[who.orderId].buf].cap
    ensures var list := ListOf(v, who.orderId);
      Appended(t, who, room) == Table(t.arrays + [Cells(who.orderId, list + [who], |list| + 1 + room)],
                                      t.subs[who.orderId := Ref(|t.arrays|, |list| + 1)])
  {
    assert RefFits(t, who.orderId, v);
  }

  /** Writing one cell of an array writes the same one among those that count. */
  lemma WrittenInto(now: seq<Subscriber>, was: seq<Subscriber>, items: seq<Subscriber>, n: nat, who: Subscriber)
    requires n < |was| && now == was[n := who] && n <= |items| <= |was| && was[..|items|] == items
    ensures |Written(items, n, who)| <= |was| && now[..|Written(items, n, who)|] == Written(items, n, who)
  {
  }

  lemma ShiftedCells(items: seq<Subscriber>, at: nat, len: nat)
    requires at < len <= |items|
    ensures |Shifted(items, at, len)| == |items|
    ensures forall k {:trigger Shifted(items, at, len)[k]} :: 0 <= k < |items| ==>
              Shifted(items, at, len)[k] == if at <= k < len - 1 then items[k + 1] else items[k]
    ensures Shifted(items, at, len)[..len - 1] == items[..len][..at] + items[..len][at + 1..]
  {
  }

  lemma ShiftedInto(was: seq<Subscriber>, items: seq<Subscriber>, at: nat, len: nat)
    requires at < len <= |items| <= |was| && was[..|items|] == items
    ensures |Shifted(items, at, len)| == |items| && |Shifted(was, at, len)| == |was|
    ensures Shifted(was, at, len)[..|items|] == Shifted(items, at, len)
  {
    ShiftedCells(items, at, len);
    ShiftedCells(was, at, len);
    hide Shifted;
    forall k | 0 <= k < |items| ensures Shifted(was, at, len)[k] == Shifted(items, at, len)[k] {
      assert was[..|items|][k] == was[k] && (k + 1 < |items| ==> was[..|items|][k + 1] == was[k + 1]);
    }
  }

  lemma {:induction false} IndexIs(list: seq<Subscriber>, who: Subscriber, i: nat)
    requires i <= |list| && who !in list[..i] && (i < |list| ==> list[i] == who)
    ensures IndexOf(list, who) == i
  {
    if i > 0 {
      assert list[0] == list[..i][0];
      assert list[1..][..i - 1] == list[..i][1..];
      IndexIs(list[1..], who, i - 1);
    }
  }

  lemma NotThere(t: Table, who: Subscriber)
    requires who.orderId !in t.subs
    ensures Removed(t, who) == t
  {
  }

  lemma {:induction false} DropFirstIsDeletion(list: seq<Subscriber>, who: Subscriber, at: nat)
    requires at < |list| && list[at] == who && who !in list[..at]
    ensures DropFirst(list, who) == list[..at] + list[at + 1..]
  {
    if at > 0 {
      assert list[0] in list[..at];
      assert list[1..][..at - 1] == list[1..at];
      forall x | x in list[1..at] ensures x in list[..at] {
        var k :| 0 <= k < |list[1..at]| && list[1..at][k] == x;
        assert list[..at][k + 1] == x;
      }
      DropFirstIsDeletion(list[1..], who, at - 1);
      assert list[1..][..at - 1] == list[1..at] && list[1..][at..] == list[at + 1..];
      assert [list[0]] + (list[1..at] + list[at + 1..]) == list[..at] + list[at + 1..];
    }
  }

  lemma {:induction false} DropFirstAbsent(list: seq<Subscriber>, who: Subscriber)
    requires who !in list
    ensures DropFirst(list, who) == list
  {
    if list != [] {
      DropFirstAbsent(list[1..], who);
    }
  }

  /** What a removal does to the slice of its order. */
  lemma RemovedMeans(t: Table, v: View, who: Subscriber)
    requires Shows(t, v) && who.orderId in t.subs
    ensures who.orderId in v
    ensures var id, r, u := who.orderId, t.subs[who.orderId], Removed(t, who);
      var at := IndexOf(v[id], who);
      r.buf < |t.arrays| && t.arrays[r.buf].owner == id && 0 < r.len == |v[id]| <= |t.arrays[r.buf].items| &&
      if at == |v[id]| then u == t
      else
        u.arrays == t.arrays[r.buf := t.arrays[r.buf].(items := Shifted(t.arrays[r.buf].items, at, r.len))] &&
        u.subs == if r.len == 1 then t.subs - {id} else t.subs[id := Ref(r.buf, r.len - 1)]
  {
    hide IndexOf, CellsFit;
    assert RefFits(t, who.orderId, v);
  }

  /** One array, and the header of its order, after a removal at `at`. */
  lemma ShiftedShows(t: Table, v: View, u: Table, id: string, at: nat)
    requires Shows(t, v) && id in t.subs && id in v
    requires var r := t.subs[id];
      r.buf < |t.arrays| && t.arrays[r.buf].owner == id && at < r.len == |v[id]| <= |t.arrays[r.buf].items| &&
      u.arrays == t.arrays[r.buf := t.arrays[r.buf].(items := Shifted(t.arrays[r.buf].items, at, r.len))] &&
      u.subs == if r.len == 1 then t.subs - {id} else t.subs[id := Ref(r.buf, r.len - 1)]
    ensures var rest := v[id][..at] + v[id][at + 1..];
      Shows(u, if rest == [] then v - {id} else v[id := rest])
  {
    var r, rest := t.subs[id], v[id][..at] + v[id][at + 1..];
    var v' := if rest == [] then v - {id} else v[id := rest];
    assert RefFits(t, id, v);
    ShiftedCells(t.arrays[r.buf].items, at, r.len);
    hide Shifted;
    assert v - {id} == v' - {id};
    assert t.subs - {id} == u.subs - {id};
    assert RefFits(u, id, v');
    assert CellsFit(u.arrays[r.buf]);
    OneListMoves(t, u, v, v', id);
  }

  /** A removal in place takes out the first occurrence and nothing else. */
  lemma RemovedShows(t: Table, v: View, who: Subscriber)
    requires Shows(t, v)
    ensures Shows(Removed(t, who), Apply(v, Remove(who)))
  {
    var id := who.orderId;
    assert RefFits(t, id, v);
    if id !in t.subs {
      assert v - {id} == v;
    } else {
      RemovedMeans(t, v, who);
      var at := IndexOf(v[id], who);
      hide IndexOf, Removed, Shifted, Shows, RefFits;
      if at < |v[id]| {
        DropFirstIsDeletion(v[id], who, at);
        hide DropFirst;
        ShiftedShows(t, v, Removed(t, who), id, at);
      } else {
        assert v[id][..at] == v[id];
        DropFirstAbsent(v[id], who);
        hide DropFirst;
        assert v[id := v[id]] == v;
      }
    }
  }

  // ----- Cell by cell ---------------------------------------------------------------------------

  /** The cell that an append takes over, if it is one that was written before. */
  predicate Overwrites(t: Table, id: string, k: nat, i: nat) {
    id in t.subs && t.subs[id] == Ref(k, i)
  }

  lemma AppendedArray(t: Table, v: View, who: Subscriber, room: nat, k: nat)
    requires Shows(t, v) && k < |t.arrays|
    ensures var u := Appended(t, who, room);
      k < |u.arrays| && u.arrays[k].owner == t.arrays[k].owner && |t.arrays[k].items| <= |u.arrays[k].items|
  {
    assert RefFits(t, who.orderId, v);
  }

  lemma AppendedCell(t: Table, v: View, who: Subscriber, room: nat, k: nat, i: nat)
    requires Shows(t, v) && k < |t.arrays|
    ensures var u := Appended(t, who, room);
      k < |u.arrays| && (i < |u.arrays[k].items| ==>
        u.arrays[k].items[i] == if i >= |t.arrays[k].items| || Overwrites(t, who.orderId, k, i) then who else t.arrays[k].items[i])
  {
    assert RefFits(t, who.orderId, v);
    assert CellsFit(t.arrays[k]);
    if who.orderId in t.subs && t.subs[who.orderId].buf == k {
      WrittenShows(t.arrays[k].items, t.subs[who.orderId].len, who);
    }
  }

  /** The cells that a removal overwrites: from the removed one on, but not the last of the slice. */
  predicate Shifts(t: Table, who: Subscriber, k: nat, i: nat) {
    who.orderId in t.subs &&
    var r := t.subs[who.orderId];
    r.buf == k && IndexOf(Elements(t, r), who) <= i < r.len - 1
  }

  lemma RemovedArray(t: Table, v: View, who: Subscriber, k: nat)
    requires Shows(t, v) && k < |t.arrays|
    ensures var u := Removed(t, who);
      |u.arrays| == |t.arrays| && u.arrays[k].owner == t.arrays[k].owner && |u.arrays[k].items| == |t.arrays[k].items|
  {
    hide IndexOf, Shifted;
    assert RefFits(t, who.orderId, v);
    if who.orderId in t.subs {
      RemovedMeans(t, v, who);
      var r := t.subs[who.orderId];
      if IndexOf(v[who.orderId], who) < r.len {
        ShiftedCells(t.arrays[r.buf].items, IndexOf(v[who.orderId], who), r.len);
      }
    }
  }

  lemma RemovedCell(t: Table, v: View, who: Subscriber, k: nat, i: nat)
    requires Shows(t, v) && k < |t.arrays| && i < |t.arrays[k].items|
    ensures Shifts(t, who, k, i) ==> i + 1 < |t.arrays[k].items|
    ensures var u := Removed(t, who);
      |u.arrays| == |t.arrays| && i < |u.arrays[k].items| &&
      u.arrays[k].items[i] == if Shifts(t, who, k, i) then t.arrays[k].items[i + 1] else t.arrays[k].items[i]
  {
    hide IndexOf, Shifted;
    assert RefFits(t, who.orderId, v);
    if who.orderId in t.subs {
      RemovedMeans(t, v, who);
      var r := t.subs[who.orderId];
      assert Elements(t, r) == v[who.orderId];
      if IndexOf(v[who.orderId], who) < r.len {
        var at, items := IndexOf(v[who.orderId], who), t.arrays[r.buf].items;
        ShiftedCells(items, at, r.len);
        if r.buf == k {
          assert Removed(t, who).arrays[k].items == Shifted(items, at, r.len);
          assert Shifted(items, at, r.len)[i] == if at <= i < r.len - 1 then items[i + 1] else items[i];
          assert Shifts(t, who, k, i) <==> at <= i < r.len - 1;
        }
      }
    } else {
      assert Removed(t, who) == t;
    }
  }
}
