/** _refresh_order_reads: working orders and executions, published together or not at all. */
module OrderReads {
  import opened Common

  // What visiting one slot meets. `connected` is the gateway's view and `alive` the session's own when its
  // orders are read; `working` are the orders TWS holds for it and `answers` whether the request, if made,
  // succeeds. The executions are read on the session held then; None if that raises or times out.
  datatype Visit<Row> =
    Visit(connected: bool, alive: bool, working: seq<Row>, answers: bool, fills: Option<seq<Row>>)

  datatype Round<Row> =
    | Failed
    | NoSlot
    | Book(orders: seq<Row>, fills: seq<Row>)

  // fetch_open_orders answers an empty list, without asking, on a session that is not connected.
  function OrdersOf<Row>(v: Visit<Row>): Option<seq<Row>> {
    if !v.alive then Some([]) else if v.answers then Some(v.working) else None
  }

  // One round over the slots in configuration order; it stops at the first failure.
  function ReadRound<Row>(visits: seq<Visit<Row>>): Round<Row> {
    if visits == [] then NoSlot
    else
      var before, v := ReadRound(visits[..|visits| - 1]), visits[|visits| - 1];
      if before.Failed? || !v.connected then before
      else if OrdersOf(v).None? || v.fills.None? then Failed
      else if before.NoSlot? then Book(OrdersOf(v).value, v.fills.value)
      else Book(before.orders + OrdersOf(v).value, before.fills + v.fills.value)
  }

  datatype Cache<Row> = Cache(openOrders: Option<seq<Row>>, executions: Option<seq<Row>>, at: real)

  const REFRESH_SEC := 60.0

  predicate Throttled<Row>(c: Cache<Row>, now: real) {
    now - c.at < REFRESH_SEC && c.openOrders.Some?
  }

  function AfterRound<Row>(c: Cache<Row>, now: real, visits: seq<Visit<Row>>): Cache<Row> {
    if Throttled(c, now) then c
    else
      match ReadRound(visits)
      case Failed => Cache(None, None, 0.0)
      case NoSlot => Cache(None, None, c.at)
      case Book(orders, fills) => Cache(Some(orders), Some(fills), now)
  }

  class OrderReader<Row> {
    var openOrders: Option<seq<Row>>
    var openOrdersAt: real
    var executions: Option<seq<Row>>
    var executionsAt: real

    constructor ()
      ensures Contents() == Cache(None, None, 0.0) && executionsAt == openOrdersAt
    {
      openOrders, openOrdersAt, executions, executionsAt := None, 0.0, None, 0.0;
    }

    function Contents(): Cache<Row>
      reads this
    {
      Cache(openOrders, executions, openOrdersAt)
    }

    // The awaited reads. The caches keep their old values throughout: nothing is written.
    method VisitSlots(visits: seq<Visit<Row>>) returns (ok: bool, sawSlot: bool, orders: seq<Row>, fills: seq<Row>)
      ensures !ok <==> ReadRound(visits).Failed?
      ensures ok ==> ReadRound(visits) == if sawSlot then Book(orders, fills) else NoSlot
    {
      ok, sawSlot, orders, fills := true, false, [], [];
      var i := 0;
      while i < |visits|
        invariant 0 <= i <= |visits|
        invariant ok && ReadRound(visits[..i]) == if sawSlot then Book(orders, fills) else NoSlot
        invariant !sawSlot ==> orders == [] && fills == []
      {
        assert visits[..i + 1][..i] == visits[..i];
        var v := visits[i];
        if v.connected {
          sawSlot := true;
          if OrdersOf(v).None? || v.fills.None? {
            FailureSticks(visits, i + 1);
            ok := false;
            return;
          }
          orders := orders + OrdersOf(v).value;
          fills := fills + v.fills.value;
        }
        i := i + 1;
      }
      assert visits[..|visits|] == visits;
    }

    method RefreshOrderReads(now: real, visits: seq<Visit<Row>>)
      requires executionsAt == openOrdersAt
      modifies this
      ensures executionsAt == openOrdersAt
      ensures Contents() == AfterRound(old(Contents()), now, visits)
    {
      if now - openOrdersAt < REFRESH_SEC && openOrders.Some? { return; }
      var ok, sawSlot, orders, fills := VisitSlots(visits);
      if !ok {
        openOrders, executions := None, None;
        openOrdersAt, executionsAt := 0.0, 0.0;
        return;
      }
      if !sawSlot {
        openOrders, executions := None, None;
        return;
      }
      openOrders, executions := Some(orders), Some(fills);
      openOrdersAt, executionsAt := now, now;
    }
  }

  lemma {:induction false} FailureSticks<Row>(visits: seq<Visit<Row>>, n: nat)
    requires n <= |visits| && ReadRound(visits[..n]).Failed?
    ensures ReadRound(visits).Failed?
    decreases |visits|
  {
    if n == |visits| {
      assert visits[..n] == visits;
    } else {
      var most := visits[..|visits| - 1];
      assert most[..n] == visits[..n];
      FailureSticks(most, n);
    }
  }

  // ---- What a complete round is ----

  predicate Good<Row>(v: Visit<Row>) {
    OrdersOf(v).Some? && v.fills.Some?
  }

  function Part<Row>(v: Visit<Row>, fills: bool): seq<Row> {
    if !v.connected || !Good(v) then [] else if fills then v.fills.value else OrdersOf(v).value
  }

  // The orders, or the fills, of the connected slots, in slot order.
  function Concat<Row>(visits: seq<Visit<Row>>, fills: bool): seq<Row> {
    if visits == [] then [] else Part(visits[0], fills) + Concat(visits[1..], fills)
  }

  lemma {:induction false} ConcatLast<Row>(visits: seq<Visit<Row>>, v: Visit<Row>, fills: bool)
    ensures Concat(visits + [v], fills) == Concat(visits, fills) + Part(v, fills)
  {
    if visits == [] {
      assert visits + [v] == [v];
    } else {
      assert (visits + [v])[1..] == visits[1..] + [v];
      ConcatLast(visits[1..], v, fills);
    }
  }

  // Which of the three a round gives.
  lemma {:induction false} KindOfRound<Row>(visits: seq<Visit<Row>>)
    ensures ReadRound(visits).Failed? <==> exists v | v in visits :: v.connected && !Good(v)
    ensures ReadRound(visits).NoSlot? <==> forall v | v in visits :: !v.connected
  {
    if visits != [] {
      var most, last := visits[..|visits| - 1], visits[|visits| - 1];
      KindOfRound(most);
      assert visits == most + [last];
      assert forall v :: v in visits <==> v in most || v == last;
    }
  }

  lemma {:induction false} BookIsConcat<Row>(visits: seq<Visit<Row>>)
    requires ReadRound(visits).Book?
    ensures ReadRound(visits) == Book(Concat(visits, false), Concat(visits, true))
  {
    var most, last := visits[..|visits| - 1], visits[|visits| - 1];
    assert visits == most + [last];
    ConcatLast(most, last, false);
    ConcatLast(most, last, true);
    if ReadRound(most).NoSlot? {
      KindOfRound(most);
      NoneConnected(most, false);
      NoneConnected(most, true);
    } else {
      BookIsConcat(most);
    }
  }

  // A round gives a book exactly when some slot was connected and no connected slot failed, and the
  // book is then the concatenation of what every connected slot's reads returned.
  lemma RoundIsWhole<Row>(visits: seq<Visit<Row>>)
    ensures ReadRound(visits).Failed? <==> exists v | v in visits :: v.connected && !Good(v)
    ensures ReadRound(visits).NoSlot? <==> forall v | v in visits :: !v.connected
    ensures ReadRound(visits).Book? ==>
      (forall v | v in visits && v.connected :: Good(v))
      && ReadRound(visits) == Book(Concat(visits, false), Concat(visits, true))
  {
    KindOfRound(visits);
    if ReadRound(visits).Book? { BookIsConcat(visits); }
  }

  lemma {:induction false} NoneConnected<Row>(visits: seq<Visit<Row>>, fills: bool)
    requires forall v | v in visits :: !v.connected
    ensures Concat(visits, fills) == []
  {
    if visits != [] { NoneConnected(visits[1..], fills); }
  }

  // ---- When a book is published ----

  // A read of the visit fails: the orders are asked for and not answered, or the executions do not come.
  predicate ReadFails<Row>(v: Visit<Row>) {
    (v.alive && !v.answers) || v.fills == None
  }

  // What the slots' order requests return, one after the other; a dead session returns nothing.
  function OrdersRead<Row>(visits: seq<Visit<Row>>): seq<Row> {
    if visits == [] then []
    else (if visits[0].connected && visits[0].alive then visits[0].working else []) + OrdersRead(visits[1..])
  }

  function FillsRead<Row>(visits: seq<Visit<Row>>): seq<Row> {
    if visits == [] then []
    else (if visits[0].connected then visits[0].fills.GetOr([]) else []) + FillsRead(visits[1..])
  }

  lemma {:induction false} ReadsAreConcat<Row>(visits: seq<Visit<Row>>)
    requires forall v | v in visits && v.connected :: !ReadFails(v)
    ensures Concat(visits, false) == OrdersRead(visits) && Concat(visits, true) == FillsRead(visits)
  {
    if visits != [] {
      assert forall v | v in visits[1..] :: v in visits;
      ReadsAreConcat(visits[1..]);
      assert visits[0] in visits;
    }
  }

  // A round told from its visits: it fails on any failed read of a connected slot, sees no slot if none is
  // connected, and is otherwise the whole of both reads.
  lemma RoundIs<Row>(visits: seq<Visit<Row>>)
    ensures ReadRound(visits) ==
      if exists v | v in visits :: v.connected && ReadFails(v) then Failed
      else if forall v | v in visits :: !v.connected then NoSlot
      else Book(OrdersRead(visits), FillsRead(visits))
  {
    RoundIsWhole(visits);
    assert forall v: Visit<Row> :: Good(v) <==> !ReadFails(v);
    if !exists v | v in visits :: v.connected && ReadFails(v) { ReadsAreConcat(visits); }
  }

  // ---- What a book leaves out ----

  // The orders TWS holds for the connected slots, in slot order.
  function AllWorking<Row>(visits: seq<Visit<Row>>): seq<Row> {
    if visits == [] then []
    else (if visits[0].connected then visits[0].working else []) + AllWorking(visits[1..])
  }

  // The slot's orders are missing from its read: the session was dead, so they were not asked for.
  predicate Misses<Row>(v: Visit<Row>) {
    v.connected && !v.alive && v.working != []
  }

  lemma {:induction false} ConcatOrWorking<Row>(visits: seq<Visit<Row>>)
    requires forall v | v in visits && v.connected :: Good(v)
    ensures |Concat(visits, false)| <= |AllWorking(visits)|
    ensures (exists v | v in visits :: Misses(v)) ==> |Concat(visits, false)| < |AllWorking(visits)|
    ensures !(exists v | v in visits :: Misses(v)) ==> Concat(visits, false) == AllWorking(visits)
  {
    if visits != [] {
      var v, rest := visits[0], visits[1..];
      assert visits == [v] + rest;
      assert forall u :: u in visits <==> u == v || u in rest;
      ConcatOrWorking(rest);
      assert !Misses(v) ==> Part(v, false) == if v.connected then v.working else [];
      if (exists u | u in rest :: Misses(u)) || Misses(v) {
        assert exists u | u in visits :: Misses(u);
      }
    }
  }

  // A book holds every order of every connected slot if and only if each of them was alive when its orders
  // were read, or had none.
  lemma BookIsCompleteIff<Row>(visits: seq<Visit<Row>>)
    requires ReadRound(visits).Book?
    ensures ReadRound(visits).orders == AllWorking(visits)
       <==> forall v | v in visits && v.connected :: v.alive || v.working == []
  {
    RoundIsWhole(visits);
    ConcatOrWorking(visits);
    if v :| v in visits && v.connected && !v.alive && v.working != [] {
      assert Misses(v);
    } else {
      assert !exists v | v in visits :: Misses(v);
    }
  }

  // A round over two slots, the second lost just before its orders are read and back for its executions.
  lemma BookCanBePartial<Row>(a: Row, b: Row)
    ensures var visits := [Visit(true, true, [a], true, Some([])), Visit(true, false, [b], true, Some([]))];
      ReadRound(visits) == Book([a], []) && AllWorking(visits) == [a, b]
  {
    var one := Visit(true, true, [a], true, Some([]));
    var visits := [one, Visit(true, false, [b], true, Some([]))];
    assert visits[..1] == [one] && [one][..0] == [];
    assert visits[1..] == [visits[1]] && [visits[1]][1..] == [];
    assert AllWorking([visits[1]]) == [b];
    assert ReadRound([one]) == Book([a], []);
  }

  // ---- Whole runs ----

  datatype Call<Row> = Call(now: real, visits: seq<Visit<Row>>)

  function After<Row>(calls: seq<Call<Row>>): Cache<Row> {
    if calls == [] then Cache(None, None, 0.0)
    else AfterRound(After(calls[..|calls| - 1]), calls[|calls| - 1].now, calls[|calls| - 1].visits)
  }

  // After any run the two caches are both absent or both present, and when present they are one whole
  // round: the one read at `at`.
  lemma {:induction false} CacheIsOneRound<Row>(calls: seq<Call<Row>>) returns (k: nat)
    ensures var c := After(calls);
      && (c.openOrders.Some? <==> c.executions.Some?)
      && (c.openOrders.Some? ==>
            k < |calls| && calls[k].now == c.at
            && ReadRound(calls[k].visits) == Book(c.openOrders.value, c.executions.value)
            && forall i | k < i < |calls| :: calls[i].now - c.at < REFRESH_SEC)
  {
    k := 0;
    if calls != [] {
      var most, last := calls[..|calls| - 1], calls[|calls| - 1];
      k := CacheIsOneRound(most);
      if !Throttled(After(most), last.now) { k := |calls| - 1; }
    }
  }

  // Call k is due: no book is cached, or the cached one is a minute old.
  predicate IsDue<Row>(c: Cache<Row>, now: real) {
    c.openOrders == None || now - c.at >= 60.0
  }

  // What call k of a run leaves: a due call publishes both lists with its own time exactly if some slot is
  // connected and no read of a connected slot fails, and otherwise leaves neither; a call that is not due
  // changes nothing.
  lemma CallPublishesIff<Row>(calls: seq<Call<Row>>, k: nat)
    requires k < |calls|
    ensures var before, after, v := After(calls[..k]), After(calls[..k + 1]), calls[k].visits;
      if !IsDue(before, calls[k].now) then after == before && after.openOrders != None && after.executions != None
      else if (exists x | x in v :: x.connected) && (forall x | x in v && x.connected :: !ReadFails(x))
      then after == Cache(Some(OrdersRead(v)), Some(FillsRead(v)), calls[k].now)
      else after.openOrders == None && after.executions == None
  {
    assert calls[..k + 1][..k] == calls[..k];
    RoundIs(calls[k].visits);
    var _ := CacheIsOneRound(calls[..k]);
  }
}
