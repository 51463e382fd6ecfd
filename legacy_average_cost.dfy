/** The older average cost (`src/perpetutal_inventory.rs`): only Buy and Sell
    rows are folded, sale quantities are negated first, and a row with a
    negative quantity keeps the average. There is no Split case. */
module LegacyAverageCost {
  import opened Orders
  import opened Series
  import opened Filter
  import opened Compute
  import opened AverageCost

  /** The rows the older fold sees (`filter(buy_and_sell())`). */
  predicate LegacyAction(o: Order) { BuyOrSell(o.action) }

  /** `negative_qty_on_sell`: the quantity of a row whose action names Sell
      is negated. */
  function Signed(o: Order): (r: Order)
    ensures r.ticker == o.ticker && r.action == o.action && r.price == o.price
    ensures IsSell(o.action) ==> r.qty == -o.qty
    ensures IsBuy(o.action) ==> r.qty == o.qty
  {
    NegationsMatchExactly(Schema.Action.Sell, o.qty);
    NegationsMatchExactly(Schema.Action.Buy, o.qty);
    o.(qty := NegativeQtyOnSell(o.action, o.qty))
  }

  /** The filtered rows with their quantities signed. */
  function LegacyRows(orders: seq<Order>): (r: seq<Order>)
    ensures forall o :: o in r ==> LegacyAction(o)
    ensures |r| == |Keep(orders, LegacyAction)|
    ensures forall i :: 0 <= i < |r| ==> r[i] == Signed(Keep(orders, LegacyAction)[i])
  {
    var kept := Keep(orders, LegacyAction);
    var r := MapSeq(kept, Signed);
    assert forall i :: 0 <= i < |r| ==> LegacyAction(r[i]) by {
      forall i | 0 <= i < |r| ensures LegacyAction(r[i]) { assert kept[i] in kept; }
    }
    r
  }

  /** One row of the older fold: the quantity always moves by the signed
      quantity; the average moves to the weighted mean unless the quantity is
      negative. */
  function LegacyStep(p: Position, o: Order): Position {
    var newQty := p.qty + o.qty;
    var average := if o.qty < 0.0 then p.average else Quotient(p.average * p.qty + o.price * o.qty, newQty);
    Position(average, newQty)
  }

  function LegacyFold(s: seq<Order>): Position {
    if |s| == 0 then Empty else LegacyStep(LegacyFold(s[..|s| - 1]), s[|s| - 1])
  }

  function LegacyTraceRow(rows: seq<Order>, i: nat): CostRow
    requires i < |rows|
  {
    var p := LegacyFold(Group(rows[..i + 1], TickerOf, rows[i].ticker));
    CostRow(rows[i], p.average, p.qty)
  }

  /** The older `with_cumulative().collect()`, as a specification. */
  function LegacyTrace(orders: seq<Order>): (r: seq<CostRow>)
    ensures |r| == |LegacyRows(orders)|
  {
    var rows := LegacyRows(orders);
    seq(|rows|, i requires 0 <= i < |rows| => LegacyTraceRow(rows, i))
  }

  /** The older `with_cumulative`, as one pass with a map of running states. */
  method LegacyWithCumulative(orders: seq<Order>) returns (trace: seq<CostRow>)
    ensures trace == LegacyTrace(orders)
  {
    var rows := LegacyRows(orders);
    var state: map<string, Position> := map[];
    trace := [];
    var i := 0;
    while i < |rows|
      invariant 0 <= i <= |rows|
      invariant forall t :: Current(state, t) == LegacyFold(Group(rows[..i], TickerOf, t))
      invariant |trace| == i
      invariant forall k :: 0 <= k < i ==> trace[k] == LegacyTraceRow(rows, k)
    {
      var o := rows[i];
      var p := LegacyStep(Current(state, o.ticker), o);
      LegacyStateStep(rows, i, state, p, state[o.ticker := p]);
      state := state[o.ticker := p];
      TraceAppend(trace, CostRow(o, p.average, p.qty), rows, i);
      trace := trace + [CostRow(o, p.average, p.qty)];
      i := i + 1;
    }
    LegacyTraceOf(orders, trace);
  }

  /** Appending the specification's next row keeps the trace in step. */
  lemma TraceAppend(trace: seq<CostRow>, x: CostRow, rows: seq<Order>, i: nat)
    requires i < |rows| && |trace| == i
    requires forall k :: 0 <= k < i ==> trace[k] == LegacyTraceRow(rows, k)
    requires x == LegacyTraceRow(rows, i)
    ensures forall k :: 0 <= k < i + 1 ==> (trace + [x])[k] == LegacyTraceRow(rows, k)
  {
    forall k | 0 <= k < i + 1 ensures (trace + [x])[k] == LegacyTraceRow(rows, k) {
      if k < i { assert (trace + [x])[k] == trace[k]; }
    }
  }

  /** A trace holding the specification's row at every position is the
      specification's trace. */
  lemma LegacyTraceOf(orders: seq<Order>, trace: seq<CostRow>)
    requires |trace| == |LegacyRows(orders)|
    requires forall k :: 0 <= k < |trace| ==> trace[k] == LegacyTraceRow(LegacyRows(orders), k)
    ensures trace == LegacyTrace(orders)
  {
  }

  /** The loop body keeps the map in step with the folds, and the row it
      appends is the specification's row. */
  lemma LegacyStateStep(rows: seq<Order>, i: nat, state: map<string, Position>, p: Position, next: map<string, Position>)
    requires i < |rows|
    requires forall t :: Current(state, t) == LegacyFold(Group(rows[..i], TickerOf, t))
    requires p == LegacyStep(Current(state, rows[i].ticker), rows[i]) && next == state[rows[i].ticker := p]
    ensures forall t :: Current(next, t) == LegacyFold(Group(rows[..i + 1], TickerOf, t))
    ensures CostRow(rows[i], p.average, p.qty) == LegacyTraceRow(rows, i)
  {
    forall t ensures Current(next, t) == LegacyFold(Group(rows[..i + 1], TickerOf, t)) {
      LegacyFoldStep(rows, i, t);
    }
    LegacyFoldStep(rows, i, rows[i].ticker);
  }

  lemma LegacyFoldStep(rows: seq<Order>, i: nat, t: string)
    requires i < |rows|
    ensures LegacyFold(Group(rows[..i + 1], TickerOf, t)) ==
      if rows[i].ticker == t then LegacyStep(LegacyFold(Group(rows[..i], TickerOf, t)), rows[i])
      else LegacyFold(Group(rows[..i], TickerOf, t))
  {
    var o := rows[i];
    assert rows[..i + 1] == rows[..i] + [o];
    GroupAddLast(rows[..i], o, TickerOf, t);
    if o.ticker == t {
      var g := Group(rows[..i + 1], TickerOf, t);
      assert g[..|g| - 1] == Group(rows[..i], TickerOf, t);
    }
  }

  /** The older state of ticker `t` after the whole ledger in row order. */
  function LegacyTickerFold(s: seq<Order>, t: string): Position
  {
    if |s| == 0 then Empty
    else
      var p := LegacyTickerFold(s[..|s| - 1], t);
      var o := s[|s| - 1];
      if LegacyAction(o) && o.ticker == t then LegacyStep(p, Signed(o)) else p
  }

  lemma {:induction false} LegacyTickerFoldIsGroupFold(s: seq<Order>, t: string)
    ensures LegacyFold(Group(LegacyRows(s), TickerOf, t)) == LegacyTickerFold(s, t)
    decreases |s|
  {
    if |s| > 0 {
      var init := s[..|s| - 1];
      var o := s[|s| - 1];
      assert s == init + [o];
      LegacyTickerFoldIsGroupFold(init, t);
      LegacyRowsAddLast(init, o);
      if LegacyAction(o) {
        GroupAddLast(LegacyRows(init), Signed(o), TickerOf, t);
        if o.ticker == t {
          var g := Group(LegacyRows(s), TickerOf, t);
          assert g[..|g| - 1] == Group(LegacyRows(init), TickerOf, t);
        }
      }
    }
  }

  lemma LegacyRowsAddLast(s: seq<Order>, o: Order)
    ensures LegacyRows(s + [o]) == LegacyRows(s) + if LegacyAction(o) then [Signed(o)] else []
  {
    KeepAddLast(s, o, LegacyAction);
  }

  // ------------------------------------------------------------ properties

  /** A row with a negative quantity (a sale) keeps the average; the quantity
      always moves by the row's quantity, and a non-negative quantity moves
      the cost basis by its amount. */
  lemma LegacyStepRule(p: Position, o: Order)
    ensures LegacyStep(p, o).qty == p.qty + o.qty
    ensures o.qty < 0.0 ==> LegacyStep(p, o).average == p.average
    ensures o.qty >= 0.0 && p.qty + o.qty != 0.0 ==>
      CostBasis(LegacyStep(p, o)) == CostBasis(p) + o.price * o.qty
  {
  }

  /** A row both folds accept, with a positive quantity on a sale and a
      non-negative one on a purchase. */
  predicate Agreeable(o: Order) {
    BuyOrSell(o.action) && (IsSell(o.action) ==> o.qty > 0.0) && (IsBuy(o.action) ==> o.qty >= 0.0)
  }

  lemma StepsAgree(p: Position, o: Order)
    requires Agreeable(o)
    ensures CostAction(o) && LegacyStep(p, Signed(o)) == Step(p, o)
  {
  }

  /** Without splits, the older fold over the signed rows of one ticker gives
      the state the newer fold gives over the unsigned rows. */
  lemma {:induction false} FoldsAgree(s: seq<Order>, t: string)
    requires forall o :: o in s ==> Agreeable(o)
    ensures AllCostActions(s)
    ensures LegacyFold(Group(MapSeq(s, Signed), TickerOf, t)) == Fold(Group(s, TickerOf, t))
    decreases |s|
  {
    if |s| > 0 {
      var init := s[..|s| - 1];
      var x := s[|s| - 1];
      assert s == init + [x];
      assert x in s;
      forall o | o in init ensures Agreeable(o) { assert o in s; }
      FoldsAgree(init, t);
      assert MapSeq(s, Signed) == MapSeq(init, Signed) + [Signed(x)];
      GroupAddLast(MapSeq(init, Signed), Signed(x), TickerOf, t);
      GroupAddLast(init, x, TickerOf, t);
      if x.ticker == t {
        var g := Group(s, TickerOf, t);
        assert g[..|g| - 1] == Group(init, TickerOf, t);
        var h := Group(MapSeq(s, Signed), TickerOf, t);
        assert h[..|h| - 1] == Group(MapSeq(init, Signed), TickerOf, t);
        StepsAgree(Fold(Group(init, TickerOf, t)), x);
      }
    }
  }

  /** On a ledger without Split rows, whose sales have positive and whose
      purchases non-negative quantities, both versions of `with_cumulative`
      produce the same rows with the same (average, accrued quantity); the
      older one shows the sales' quantities negated. */
  lemma TracesAgree(orders: seq<Order>)
    requires forall o :: o in orders ==> !IsSplit(o.action)
    requires forall o :: o in orders && BuyOrSell(o.action) ==> Agreeable(o)
    ensures |LegacyTrace(orders)| == |Trace(orders)|
    ensures forall i :: 0 <= i < |Trace(orders)| ==>
      LegacyTrace(orders)[i].average == Trace(orders)[i].average &&
      LegacyTrace(orders)[i].accrued == Trace(orders)[i].accrued &&
      LegacyTrace(orders)[i].order == Signed(Trace(orders)[i].order)
  {
    var kept := CostOrders(orders);
    KeepCongruent(orders, CostAction, LegacyAction);
    var rows := LegacyRows(orders);
    assert rows == MapSeq(kept, Signed);
    forall i | 0 <= i < |kept|
      ensures LegacyTraceRow(rows, i) == CostRow(Signed(kept[i]), TraceRow(kept, i).average, TraceRow(kept, i).accrued)
    {
      assert rows[..i + 1] == MapSeq(kept[..i + 1], Signed);
      forall o | o in kept[..i + 1] ensures Agreeable(o) { assert o in kept; }
      FoldsAgree(kept[..i + 1], kept[i].ticker);
    }
  }
}

/** The older average-cost figures of the test ledger. */
module LegacyAverageCostMock {
  import opened Orders
  import opened Series
  import opened Fixture
  import opened AverageCost
  import opened LegacyAverageCost

  lemma LegacyTickerFoldRow(s: seq<Order>, i: nat, t: string, before: Position, after: Position)
    requires i < |s| && LegacyTickerFold(s[..i], t) == before
    requires after == if LegacyAction(s[i]) && s[i].ticker == t then LegacyStep(before, Signed(s[i])) else before
    ensures LegacyTickerFold(s[..i + 1], t) == after
  {
    assert s[..i + 1][..i] == s[..i];
  }

  /** The older state of APPL after each prefix of the test ledger. */
  const LegacyApplStates: seq<Position> := [Empty, Position(0.0, 0.0), Position(0.0, 0.0), Position(0.0, 0.0), Position(0.0, 0.0), Position(0.0, 0.0), Position(0.0, 0.0), Position(0.0, 0.0), Position(107.48, 5.7), Position(107.48, 5.7), Position(107.48, 2.7), Position(98.03, 13.2), Position(98.03, 13.2), Position(98.03, 13.2), Position(98.03, 13.2)]

  lemma LegacyApplStatesStep(n: nat)
    requires 0 < n <= 14
    ensures LegacyApplStates[n] == var o := MockOrders()[n - 1];
      if LegacyAction(o) && o.ticker == "APPL" then LegacyStep(LegacyApplStates[n - 1], Signed(o)) else LegacyApplStates[n - 1]
  {
    if n <= 5 { LegacyApplStatesStepRows1To5(n); } else if n <= 10 { LegacyApplStatesStepRows6To10(n); } else { LegacyApplStatesStepRows11To14(n); }
  }

  lemma LegacyApplStatesStepRows1To5(n: nat)
    requires 1 <= n <= 5
    ensures LegacyApplStates[n] == var o := MockOrders()[n - 1];
      if LegacyAction(o) && o.ticker == "APPL" then LegacyStep(LegacyApplStates[n - 1], Signed(o)) else LegacyApplStates[n - 1]
  {
    if n == 1 {} else if n == 2 {} else if n == 3 {} else if n == 4 {} else {}
  }

  lemma LegacyApplStatesStepRows6To10(n: nat)
    requires 6 <= n <= 10
    ensures LegacyApplStates[n] == var o := MockOrders()[n - 1];
      if LegacyAction(o) && o.ticker == "APPL" then LegacyStep(LegacyApplStates[n - 1], Signed(o)) else LegacyApplStates[n - 1]
  {
    if n == 6 {} else if n == 7 {} else if n == 8 {} else if n == 9 {} else {}
  }

  lemma LegacyApplStatesStepRows11To14(n: nat)
    requires 11 <= n <= 14
    ensures LegacyApplStates[n] == var o := MockOrders()[n - 1];
      if LegacyAction(o) && o.ticker == "APPL" then LegacyStep(LegacyApplStates[n - 1], Signed(o)) else LegacyApplStates[n - 1]
  {
    if n == 11 {} else if n == 12 {} else if n == 13 {} else {}
  }

  lemma {:induction false} LegacyApplPrefixes(n: nat)
    requires n <= 14
    ensures LegacyTickerFold(MockOrders()[..n], "APPL") == LegacyApplStates[n]
  {
    if n > 0 {
      LegacyApplPrefixes(n - 1);
      LegacyApplStatesStep(n);
      LegacyTickerFoldRow(MockOrders(), n - 1, "APPL", LegacyApplStates[n - 1], LegacyApplStates[n]);
    }
  }

  /** APPL ends at (98.03, 13.2), as in the newer fold. */
  lemma MockLegacyAppl()
    ensures LegacyFold(Group(LegacyRows(MockOrders()), TickerOf, "APPL")) == Position(98.03, 13.2)
  {
    LegacyApplPrefixes(14);
    assert MockOrders()[..14] == MockOrders();
    LegacyTickerFoldIsGroupFold(MockOrders(), "APPL");
  }

  /** The older state of GOOGL after each prefix of the test ledger. */
  const LegacyGooglStates: seq<Position> := [Empty, Position(0.0, 0.0), Position(34.45, 8.0), Position(34.45, 8.0), Position(33.8, 12.0), Position(34.8, 22.0), Position(34.8, 18.0), Position(34.8, 10.0), Position(34.8, 10.0), Position(34.55, 20.0), Position(34.55, 20.0), Position(34.55, 20.0), Position(34.55, 20.0), Position(34.55, 20.0), Position(34.55, 20.0)]

  lemma LegacyGooglStatesStep(n: nat)
    requires 0 < n <= 14
    ensures LegacyGooglStates[n] == var o := MockOrders()[n - 1];
      if LegacyAction(o) && o.ticker == "GOOGL" then LegacyStep(LegacyGooglStates[n - 1], Signed(o)) else LegacyGooglStates[n - 1]
  {
    if n <= 3 { LegacyGooglStatesStepRows1To3(n); } else if n <= 5 { LegacyGooglStatesStepRows4To5(n); } else if n <= 10 { LegacyGooglStatesStepRows6To10(n); } else { LegacyGooglStatesStepRows11To14(n); }
  }

  lemma LegacyGooglStatesStepRows1To3(n: nat)
    requires 1 <= n <= 3
    ensures LegacyGooglStates[n] == var o := MockOrders()[n - 1];
      if LegacyAction(o) && o.ticker == "GOOGL" then LegacyStep(LegacyGooglStates[n - 1], Signed(o)) else LegacyGooglStates[n - 1]
  {
    if n == 1 {} else if n == 2 {} else {}
  }

  lemma LegacyGooglStatesStepRows4To5(n: nat)
    requires 4 <= n <= 5
    ensures LegacyGooglStates[n] == var o := MockOrders()[n - 1];
      if LegacyAction(o) && o.ticker == "GOOGL" then LegacyStep(LegacyGooglStates[n - 1], Signed(o)) else LegacyGooglStates[n - 1]
  {
    if n == 4 {} else {}
  }

  lemma LegacyGooglStatesStepRows6To10(n: nat)
    requires 6 <= n <= 10
    ensures LegacyGooglStates[n] == var o := MockOrders()[n - 1];
      if LegacyAction(o) && o.ticker == "GOOGL" then LegacyStep(LegacyGooglStates[n - 1], Signed(o)) else LegacyGooglStates[n - 1]
  {
    if n == 6 {} else if n == 7 {} else if n == 8 {} else if n == 9 {} else {}
  }

  lemma LegacyGooglStatesStepRows11To14(n: nat)
    requires 11 <= n <= 14
    ensures LegacyGooglStates[n] == var o := MockOrders()[n - 1];
      if LegacyAction(o) && o.ticker == "GOOGL" then LegacyStep(LegacyGooglStates[n - 1], Signed(o)) else LegacyGooglStates[n - 1]
  {
    if n == 11 {} else if n == 12 {} else if n == 13 {} else {}
  }

  lemma {:induction false} LegacyGooglPrefixes(n: nat)
    requires n <= 14
    ensures LegacyTickerFold(MockOrders()[..n], "GOOGL") == LegacyGooglStates[n]
  {
    if n > 0 {
      LegacyGooglPrefixes(n - 1);
      LegacyGooglStatesStep(n);
      LegacyTickerFoldRow(MockOrders(), n - 1, "GOOGL", LegacyGooglStates[n - 1], LegacyGooglStates[n]);
    }
  }

  /** GOOGL ends at (34.55, 20.0): the Split row is not seen, so the twenty
      shares held before it keep their average and their count. */
  lemma MockLegacyGoogl()
    ensures LegacyFold(Group(LegacyRows(MockOrders()), TickerOf, "GOOGL")) == Position(34.55, 20.0)
  {
    LegacyGooglPrefixes(14);
    assert MockOrders()[..14] == MockOrders();
    LegacyTickerFoldIsGroupFold(MockOrders(), "GOOGL");
  }
}
