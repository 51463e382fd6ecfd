/** The perpetual-inventory average cost (`AverageCost::with_cumulative`):
    the Buy, Sell and Split rows of a ledger are folded per ticker, in row
    order, into a running (average price, accrued quantity) pair, and every
    such row is tagged with the pair after it. */
module AverageCost {
  import opened Orders
  import opened Series
  import opened Filter
  import opened Compute

  /** The running state of one ticker: `cum_price` and `cum_qty`. */
  datatype Position = Position(average: real, qty: real)

  /** A ledger row tagged with AveragePrice and AccruedQty. */
  datatype CostRow = CostRow(order: Order, average: real, accrued: real)

  const Empty := Position(0.0, 0.0)

  function TickerOf(o: Order): string { o.ticker }

  predicate CostAction(o: Order) { BuyOrSellOrSplit(o.action) }

  predicate AllCostActions(s: seq<Order>) {
    forall o :: o in s ==> CostAction(o)
  }

  /** One row of the fold. A split of ratio `qty` divides the average and
      multiplies the quantity; a sale lowers the quantity; a purchase moves
      the average to the quantity-weighted mean of the old average and the
      purchase price. The source panics on any other action, which the
      preceding filter excludes. */
  function Step(p: Position, o: Order): Position
    requires CostAction(o)
  {
    if IsSplit(o.action) then Position(Quotient(p.average, o.qty), p.qty * o.qty)
    else if IsSell(o.action) then Position(p.average, p.qty - o.qty)
    else
      var newQty := p.qty + o.qty;
      Position(Quotient(p.average * p.qty + o.price * o.qty, newQty), newQty)
  }

  /** The state after folding the rows of one ticker, starting from (0, 0). */
  function Fold(s: seq<Order>): Position
    requires AllCostActions(s)
  {
    if |s| == 0 then Empty else Step(Fold(s[..|s| - 1]), s[|s| - 1])
  }

  /** The rows the fold sees (`filter(buy_or_sell_or_split)`). */
  function CostOrders(orders: seq<Order>): (r: seq<Order>)
    ensures AllCostActions(r)
    ensures forall o :: o in r <==> o in orders && CostAction(o)
  {
    Keep(orders, CostAction)
  }

  /** Row `i` of the result: the `i`-th kept order with the state of its
      ticker after the kept orders up to and including it. */
  function TraceRow(kept: seq<Order>, i: nat): CostRow
    requires AllCostActions(kept) && i < |kept|
  {
    var p := Fold(Group(kept[..i + 1], TickerOf, kept[i].ticker));
    CostRow(kept[i], p.average, p.qty)
  }

  /** `with_cumulative().collect()`, as a specification. */
  function Trace(orders: seq<Order>): (r: seq<CostRow>)
    ensures |r| == |CostOrders(orders)|
  {
    var kept := CostOrders(orders);
    seq(|kept|, i requires 0 <= i < |kept| => TraceRow(kept, i))
  }

  function Current(state: map<string, Position>, t: string): Position {
    if t in state then state[t] else Empty
  }

  /** `with_cumulative`: one pass over the kept rows, keeping each ticker's
      running state in a map. */
  method WithCumulative(orders: seq<Order>) returns (trace: seq<CostRow>)
    ensures trace == Trace(orders)
  {
    var kept := CostOrders(orders);
    var state: map<string, Position> := map[];
    trace := [];
    var i := 0;
    while i < |kept|
      invariant 0 <= i <= |kept|
      invariant forall t :: Current(state, t) == Fold(Group(kept[..i], TickerOf, t))
      invariant |trace| == i
      invariant forall k :: 0 <= k < i ==> trace[k] == TraceRow(kept, k)
    {
      var o := kept[i];
      var p := Step(Current(state, o.ticker), o);
      StateStep(kept, i, state, p, state[o.ticker := p]);
      state := state[o.ticker := p];
      trace := trace + [CostRow(o, p.average, p.qty)];
      i := i + 1;
    }
  }

  /** The loop body keeps the map in step with the folds, and the row it
      appends is the specification's row. */
  lemma StateStep(kept: seq<Order>, i: nat, state: map<string, Position>, p: Position, next: map<string, Position>)
    requires AllCostActions(kept) && i < |kept|
    requires forall t :: Current(state, t) == Fold(Group(kept[..i], TickerOf, t))
    requires p == Step(Current(state, kept[i].ticker), kept[i]) && next == state[kept[i].ticker := p]
    ensures forall t :: Current(next, t) == Fold(Group(kept[..i + 1], TickerOf, t))
    ensures CostRow(kept[i], p.average, p.qty) == TraceRow(kept, i)
  {
    forall t ensures Current(next, t) == Fold(Group(kept[..i + 1], TickerOf, t)) {
      FoldStep(kept, i, t);
    }
    FoldStep(kept, i, kept[i].ticker);
  }

  /** One more kept row changes the state of its own ticker only, by one step. */
  lemma FoldStep(kept: seq<Order>, i: nat, t: string)
    requires AllCostActions(kept) && i < |kept|
    ensures Fold(Group(kept[..i + 1], TickerOf, t)) ==
      if kept[i].ticker == t then Step(Fold(Group(kept[..i], TickerOf, t)), kept[i])
      else Fold(Group(kept[..i], TickerOf, t))
  {
    var o := kept[i];
    assert kept[..i + 1] == kept[..i] + [o];
    GroupAddLast(kept[..i], o, TickerOf, t);
    if o.ticker == t {
      var g := Group(kept[..i + 1], TickerOf, t);
      assert g[..|g| - 1] == Group(kept[..i], TickerOf, t);
    }
  }

  /** `collect_latest`: for each ticker, the state on its last row. */
  function CollectLatest(trace: seq<CostRow>): (r: map<string, Position>)
    ensures forall t :: t in r <==> exists k :: 0 <= k < |trace| && trace[k].order.ticker == t
  {
    if |trace| == 0 then map[]
    else
      var last := trace[|trace| - 1];
      var init := trace[..|trace| - 1];
      var r := CollectLatest(init)[last.order.ticker := Position(last.average, last.accrued)];
      assert forall k :: 0 <= k < |init| ==> init[k] == trace[k];
      r
  }

  /** The state `collect_latest` reports for a ticker is the fold of all of
      that ticker's Buy, Sell and Split rows. */
  lemma LatestIsFold(orders: seq<Order>, t: string)
    requires t in CollectLatest(Trace(orders))
    ensures CollectLatest(Trace(orders))[t] == Fold(Group(CostOrders(orders), TickerOf, t))
  {
    var kept := CostOrders(orders);
    LatestOfPrefix(kept, |kept|, t);
    assert kept[..|kept|] == kept;
  }

  /** `collect_latest` reports, for each ticker it lists, the state on the
      last row of that ticker. */
  lemma {:induction false} LatestIsLastRow(trace: seq<CostRow>, t: string) returns (k: nat)
    requires t in CollectLatest(trace)
    ensures k < |trace| && trace[k].order.ticker == t
    ensures CollectLatest(trace)[t] == Position(trace[k].average, trace[k].accrued)
    ensures forall j :: k < j < |trace| ==> trace[j].order.ticker != t
    decreases |trace|
  {
    var last := trace[|trace| - 1];
    var init := trace[..|trace| - 1];
    if last.order.ticker == t {
      k := |trace| - 1;
    } else {
      k := LatestIsLastRow(init, t);
    }
  }

  function TracePrefix(kept: seq<Order>, n: nat): (r: seq<CostRow>)
    requires AllCostActions(kept) && n <= |kept|
    ensures |r| == n
  {
    seq(n, i requires 0 <= i < n => TraceRow(kept, i))
  }

  lemma {:induction false} LatestOfPrefix(kept: seq<Order>, n: nat, t: string)
    requires AllCostActions(kept) && n <= |kept|
    ensures t in CollectLatest(TracePrefix(kept, n)) ==>
      CollectLatest(TracePrefix(kept, n))[t] == Fold(Group(kept[..n], TickerOf, t))
    ensures t !in CollectLatest(TracePrefix(kept, n)) ==> Group(kept[..n], TickerOf, t) == []
    decreases n
  {
    if n > 0 {
      var o := kept[n - 1];
      LatestStep(kept, n);
      if o.ticker != t {
        LatestOfPrefix(kept, n - 1, t);
        GroupPrefixStep(kept, n, TickerOf, t);
      }
    }
  }

  /** One more row of the trace records its ticker's state after that row. */
  lemma LatestStep(kept: seq<Order>, n: nat)
    requires AllCostActions(kept) && 0 < n <= |kept|
    ensures CollectLatest(TracePrefix(kept, n)) ==
      CollectLatest(TracePrefix(kept, n - 1))[kept[n - 1].ticker := Fold(Group(kept[..n], TickerOf, kept[n - 1].ticker))]
  {
    var tr := TracePrefix(kept, n);
    assert tr[..n - 1] == TracePrefix(kept, n - 1);
  }

  /** The state of ticker `t` after reading the whole ledger in row order,
      skipping the rows of other tickers and the rows the fold does not see:
      the per-ticker window of `with_cumulative` as one pass. */
  function TickerFold(s: seq<Order>, t: string): Position
  {
    if |s| == 0 then Empty
    else
      var p := TickerFold(s[..|s| - 1], t);
      var o := s[|s| - 1];
      if CostAction(o) && o.ticker == t then Step(p, o) else p
  }

  /** Grouping by ticker and folding each group is the same as one pass
      that skips the other tickers: each ticker is folded independently. */
  lemma {:induction false} TickerFoldIsGroupFold(s: seq<Order>, t: string)
    ensures Fold(Group(CostOrders(s), TickerOf, t)) == TickerFold(s, t)
    decreases |s|
  {
    if |s| > 0 {
      var init := s[..|s| - 1];
      var o := s[|s| - 1];
      assert s == init + [o];
      TickerFoldIsGroupFold(init, t);
      KeepAddLast(init, o, CostAction);
      if CostAction(o) {
        GroupAddLast(CostOrders(init), o, TickerOf, t);
        if o.ticker == t {
          var g := Group(CostOrders(s), TickerOf, t);
          assert g[..|g| - 1] == Group(CostOrders(init), TickerOf, t);
        }
      }
    }
  }

  // ------------------------------------------------------------ properties

  /** What a position cost: average price times quantity. */
  function CostBasis(p: Position): real { p.average * p.qty }

  /** A sale keeps the average price and lowers the quantity by the amount sold. */
  lemma SellKeepsAverage(p: Position, o: Order)
    requires IsSell(o.action)
    ensures Step(p, o).average == p.average && Step(p, o).qty == p.qty - o.qty
  {
  }

  /** A split keeps the cost basis: the average is divided by the ratio and
      the quantity multiplied by it. */
  lemma SplitKeepsCostBasis(p: Position, o: Order)
    requires IsSplit(o.action) && o.qty != 0.0
    ensures CostBasis(Step(p, o)) == CostBasis(p)
    ensures Step(p, o).qty == p.qty * o.qty
  {
    assert Quotient(p.average, o.qty) * (p.qty * o.qty) == (p.average / o.qty) * o.qty * p.qty;
  }

  /** A purchase adds its amount to the cost basis, so the new average is
      the quantity-weighted mean of the old average and the purchase price. */
  lemma BuyAddsToCostBasis(p: Position, o: Order)
    requires IsBuy(o.action) && p.qty + o.qty != 0.0
    ensures CostBasis(Step(p, o)) == CostBasis(p) + o.price * o.qty
    ensures Step(p, o).qty == p.qty + o.qty
  {
  }

  predicate AllBuys(s: seq<Order>) {
    forall o :: o in s ==> IsBuy(o.action) && o.qty > 0.0
  }

  function Qty(o: Order): real { o.qty }
  function Spent(o: Order): real { o.price * o.qty }

  /** For a ticker that was only ever bought, the accrued quantity is the
      total bought and the cost basis is the total spent. */
  lemma {:induction false} BuysOnlyCostBasis(s: seq<Order>)
    requires AllBuys(s)
    ensures AllCostActions(s)
    ensures Fold(s).qty == SumOf(s, Qty)
    ensures CostBasis(Fold(s)) == SumOf(s, Spent)
    decreases |s|
  {
    if |s| > 0 {
      var init := s[..|s| - 1];
      assert AllBuys(init) by { forall o | o in init ensures o in s { } }
      BuysOnlyCostBasis(init);
      PositiveSum(init);
      var o := s[|s| - 1];
      assert o in s;
      BuyStep(Fold(init), o, SumOf(init, Qty), SumOf(init, Spent));
      FoldLast(s);
    }
  }

  /** ... and so the average price is the total spent over the total bought. */
  lemma BuysOnlyWeightedMean(s: seq<Order>)
    requires AllBuys(s) && |s| > 0
    ensures AllCostActions(s)
    ensures SumOf(s, Qty) > 0.0 && Fold(s).average == SumOf(s, Spent) / SumOf(s, Qty)
  {
    BuysOnlyCostBasis(s);
    PositiveSum(s);
    AverageOfBasis(Fold(s), SumOf(s, Qty), SumOf(s, Spent));
  }

  lemma BuyStep(p: Position, o: Order, q: real, c: real)
    requires IsBuy(o.action) && o.qty > 0.0 && p.qty == q && q >= 0.0 && CostBasis(p) == c
    ensures CostAction(o)
    ensures Step(p, o).qty == q + Qty(o) && CostBasis(Step(p, o)) == c + Spent(o)
  {
    BuyAddsToCostBasis(p, o);
  }

  lemma FoldLast(s: seq<Order>)
    requires |s| > 0 && AllCostActions(s)
    ensures AllCostActions(s[..|s| - 1]) && Fold(s) == Step(Fold(s[..|s| - 1]), s[|s| - 1])
  {
    forall o | o in s[..|s| - 1] ensures o in s { }
  }

  lemma AverageOfBasis(p: Position, q: real, c: real)
    requires p.qty == q && q > 0.0 && CostBasis(p) == c
    ensures p.average == c / q
  {
  }

  lemma {:induction false} PositiveSum(s: seq<Order>)
    requires AllBuys(s)
    ensures SumOf(s, Qty) >= 0.0
    ensures |s| > 0 ==> SumOf(s, Qty) > 0.0
    decreases |s|
  {
    if |s| > 0 {
      var init := s[..|s| - 1];
      assert AllBuys(init) by { forall o | o in init ensures o in s { } }
      PositiveSum(init);
      assert s[|s| - 1] in s;
    }
  }
}

/** The average-cost figures of the test ledger. */
module AverageCostMock {
  import opened Orders
  import opened Series
  import opened Fixture
  import opened AverageCost

  /** One row of the per-ticker pass, from a known state to the next. */
  lemma TickerFoldRow(s: seq<Order>, i: nat, t: string, before: Position, after: Position)
    requires i < |s| && TickerFold(s[..i], t) == before
    requires after == if CostAction(s[i]) && s[i].ticker == t then Step(before, s[i]) else before
    ensures TickerFold(s[..i + 1], t) == after
  {
    assert s[..i + 1][..i] == s[..i];
  }

  /** The state of APPL after each prefix of the test ledger. */
  const ApplStates: seq<Position> := [Empty, Position(0.0, 0.0), Position(0.0, 0.0), Position(0.0, 0.0), Position(0.0, 0.0), Position(0.0, 0.0), Position(0.0, 0.0), Position(0.0, 0.0), Position(107.48, 5.7), Position(107.48, 5.7), Position(107.48, 2.7), Position(98.03, 13.2), Position(98.03, 13.2), Position(98.03, 13.2), Position(98.03, 13.2)]

  lemma ApplStatesStep(n: nat)
    requires 0 < n <= 14
    ensures ApplStates[n] == var o := MockOrders()[n - 1];
      if CostAction(o) && o.ticker == "APPL" then Step(ApplStates[n - 1], o) else ApplStates[n - 1]
  {
    if n <= 5 { ApplStatesStepRows1To5(n); } else if n <= 10 { ApplStatesStepRows6To10(n); } else { ApplStatesStepRows11To14(n); }
  }

  lemma ApplStatesStepRows1To5(n: nat)
    requires 1 <= n <= 5
    ensures ApplStates[n] == var o := MockOrders()[n - 1];
      if CostAction(o) && o.ticker == "APPL" then Step(ApplStates[n - 1], o) else ApplStates[n - 1]
  {
    if n == 1 {} else if n == 2 {} else if n == 3 {} else if n == 4 {} else {}
  }

  lemma ApplStatesStepRows6To10(n: nat)
    requires 6 <= n <= 10
    ensures ApplStates[n] == var o := MockOrders()[n - 1];
      if CostAction(o) && o.ticker == "APPL" then Step(ApplStates[n - 1], o) else ApplStates[n - 1]
  {
    if n == 6 {} else if n == 7 {} else if n == 8 {} else if n == 9 {} else {}
  }

  lemma ApplStatesStepRows11To14(n: nat)
    requires 11 <= n <= 14
    ensures ApplStates[n] == var o := MockOrders()[n - 1];
      if CostAction(o) && o.ticker == "APPL" then Step(ApplStates[n - 1], o) else ApplStates[n - 1]
  {
    if n == 11 {} else if n == 12 {} else if n == 13 {} else {}
  }

  lemma {:induction false} ApplPrefixes(n: nat)
    requires n <= 14
    ensures TickerFold(MockOrders()[..n], "APPL") == ApplStates[n]
  {
    if n > 0 {
      ApplPrefixes(n - 1);
      ApplStatesStep(n);
      TickerFoldRow(MockOrders(), n - 1, "APPL", ApplStates[n - 1], ApplStates[n]);
    }
  }

  /** APPL ends at (98.03, 13.2): bought 5.7 at 107.48, sold 3, bought 10.5 at 95.60. */
  lemma MockAppl()
    ensures Fold(Group(CostOrders(MockOrders()), TickerOf, "APPL")) == Position(98.03, 13.2)
  {
    ApplPrefixes(14);
    assert MockOrders()[..14] == MockOrders();
    TickerFoldIsGroupFold(MockOrders(), "APPL");
  }

  /** The state of GOOGL after each prefix of the test ledger. */
  const GooglStates: seq<Position> := [Empty, Position(0.0, 0.0), Position(34.45, 8.0), Position(34.45, 8.0), Position(33.8, 12.0), Position(34.8, 22.0), Position(34.8, 18.0), Position(34.8, 10.0), Position(34.8, 10.0), Position(34.55, 20.0), Position(34.55, 20.0), Position(34.55, 20.0), Position(34.55, 20.0), Position(34.55, 20.0), Position(69.1, 10.0)]

  lemma GooglStatesStep(n: nat)
    requires 0 < n <= 14
    ensures GooglStates[n] == var o := MockOrders()[n - 1];
      if CostAction(o) && o.ticker == "GOOGL" then Step(GooglStates[n - 1], o) else GooglStates[n - 1]
  {
    if n <= 5 { GooglStatesStepRows1To5(n); } else if n <= 10 { GooglStatesStepRows6To10(n); } else { GooglStatesStepRows11To14(n); }
  }

  lemma GooglStatesStepRows1To5(n: nat)
    requires 1 <= n <= 5
    ensures GooglStates[n] == var o := MockOrders()[n - 1];
      if CostAction(o) && o.ticker == "GOOGL" then Step(GooglStates[n - 1], o) else GooglStates[n - 1]
  {
    if n == 1 {} else if n == 2 {} else if n == 3 {} else if n == 4 {} else {}
  }

  lemma GooglStatesStepRows6To10(n: nat)
    requires 6 <= n <= 10
    ensures GooglStates[n] == var o := MockOrders()[n - 1];
      if CostAction(o) && o.ticker == "GOOGL" then Step(GooglStates[n - 1], o) else GooglStates[n - 1]
  {
    if n == 6 {} else if n == 7 {} else if n == 8 {} else if n == 9 {} else {}
  }

  lemma GooglStatesStepRows11To14(n: nat)
    requires 11 <= n <= 14
    ensures GooglStates[n] == var o := MockOrders()[n - 1];
      if CostAction(o) && o.ticker == "GOOGL" then Step(GooglStates[n - 1], o) else GooglStates[n - 1]
  {
    if n == 11 {} else if n == 12 {} else if n == 13 {} else {}
  }

  lemma {:induction false} GooglPrefixes(n: nat)
    requires n <= 14
    ensures TickerFold(MockOrders()[..n], "GOOGL") == GooglStates[n]
  {
    if n > 0 {
      GooglPrefixes(n - 1);
      GooglStatesStep(n);
      TickerFoldRow(MockOrders(), n - 1, "GOOGL", GooglStates[n - 1], GooglStates[n]);
    }
  }

  /** GOOGL ends at (69.10, 10.0): the split of ratio 0.5 in the last row
      doubles the average 34.55 of the twenty shares held just before it and
      halves their count. */
  lemma MockGoogl()
    ensures Fold(Group(CostOrders(MockOrders()), TickerOf, "GOOGL")) == Position(69.1, 10.0)
  {
    GooglPrefixes(14);
    assert MockOrders()[..14] == MockOrders();
    TickerFoldIsGroupFold(MockOrders(), "GOOGL");
  }
}
