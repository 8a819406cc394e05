/** How far below zero cash can go with simulated fills: buys need positive cash and
    are sized within it, but slippage, fee and rounding come on top. */
module Solvency {
  import opened Results
  import opened Decimals
  import opened Orders
  import opened Portfolio
  import opened Ledger
  import opened Policy
  import opened Simulator
  import opened Repository
  import opened CycleIds
  import opened Cycle
  import opened Runs
  import opened Caches
  import opened Conservation
  import opened Limits

  /** With slippage s, fee rate f, limit M and marks of at least `mark`:
      M * ((1 + s) * (1 + f) - 1), plus half a cent per unit that M can buy, with
      its fee, plus half a cent for the fee's own rounding. */
  function Overdraft(venue: SimulatedVenue, limit: real, mark: real): real
    requires mark > 0.0
  {
    var s, f := venue.slippageBps / 10_000.0, venue.feeBps / 10_000.0;
    limit * ((1.0 + s) * (1.0 + f) - 1.0) + 0.005 * (limit / mark) * (1.0 + f) + 0.005
  }

  lemma OverdraftInTerms(venue: SimulatedVenue, limit: real, mark: real)
    requires mark > 0.0
    ensures var s, f := venue.slippageBps / 10_000.0, venue.feeBps / 10_000.0;
            Overdraft(venue, limit, mark) ==
            limit * ((1.0 + s) * (1.0 + f) - 1.0) + 0.005 * (limit / mark) * (1.0 + f) + 0.005
  {
  }

  /** With marks in cents, the half cents add up to half the limit. */
  lemma OverdraftInCents(venue: SimulatedVenue, limit: real)
    ensures var s, f := venue.slippageBps / 10_000.0, venue.feeBps / 10_000.0;
            Overdraft(venue, limit, 0.01) ==
            limit * ((1.0 + s) * (1.0 + f) - 1.0) + 0.5 * limit * (1.0 + f) + 0.005
  {
  }

  /** Scaling up both sides of an inequality. */
  lemma Scale(x: real, y: real, factor: real)
    requires x <= y && factor >= 0.0
    ensures x * factor <= y * factor
  {
    ProductOfNonNegatives(y - x, factor);
    assert (y - x) * factor == y * factor - x * factor;
  }

  /** The cost of a buy of `q` at a mark, against the notional it was sized by. */
  lemma CostCeiling(q: real, mark: real, s: real, f: real, price: real, fee: real)
    requires q >= 0.0 && mark > 0.0 && s >= 0.0 && f >= 0.0
    requires price <= mark * (1.0 + s) + 0.005 && fee <= q * price * f + 0.005
    ensures q * price + fee <= q * mark * ((1.0 + s) * (1.0 + f)) + 0.005 * q * (1.0 + f) + 0.005
  {
    var n := q * mark;
    Scale(price, mark * (1.0 + s) + 0.005, q);
    assert price * q == q * price;
    assert (mark * (1.0 + s) + 0.005) * q == n * (1.0 + s) + 0.005 * q;
    Scale(q * price, n * (1.0 + s) + 0.005 * q, 1.0 + f);
    assert (q * price) * (1.0 + f) == q * price + q * price * f;
    assert (n * (1.0 + s) + 0.005 * q) * (1.0 + f) == n * ((1.0 + s) * (1.0 + f)) + 0.005 * q * (1.0 + f);
  }

  lemma OverdraftCeiling(q: real, mark: real, least: real, limit: real, s: real, f: real)
    requires q >= 0.0 && mark >= least > 0.0 && s >= 0.0 && f >= 0.0 && q * mark <= limit
    ensures q * mark * ((1.0 + s) * (1.0 + f)) - q * mark + 0.005 * q * (1.0 + f)
            <= limit * ((1.0 + s) * (1.0 + f) - 1.0) + 0.005 * (limit / least) * (1.0 + f)
  {
    var n, k := q * mark, (1.0 + s) * (1.0 + f);
    ProductOfNonNegatives(s, f);
    assert k == 1.0 + s + f + s * f;
    Scale(n, limit, k - 1.0);
    assert n * (k - 1.0) == n * k - n;
    Scale(least, mark, q);
    assert mark * q == n;
    assert least * q <= limit;
    assert q <= limit / least by {
      QuotientOrder(q, limit, least);
    }
    Scale(q, limit / least, 1.0 + f);
    assert 0.005 * (q * (1.0 + f)) == 0.005 * q * (1.0 + f);
    assert 0.005 * ((limit / least) * (1.0 + f)) == 0.005 * (limit / least) * (1.0 + f);
  }

  lemma CostBeyondNotional(q: real, mark: real, least: real, limit: real, s: real, f: real, price: real, fee: real)
    requires q >= 0.0 && mark >= least > 0.0 && s >= 0.0 && f >= 0.0 && q * mark <= limit
    requires price <= mark * (1.0 + s) + 0.005 && fee <= q * price * f + 0.005
    ensures q * price + fee - q * mark <=
            limit * ((1.0 + s) * (1.0 + f) - 1.0) + 0.005 * (limit / least) * (1.0 + f) + 0.005
  {
    CostCeiling(q, mark, s, f, price, fee);
    OverdraftCeiling(q, mark, least, limit, s, f);
  }

  lemma BuyCeilings(venue: SimulatedVenue, q: real, mark: real)
    ensures var s, f, price := venue.slippageBps / 10_000.0, venue.feeBps / 10_000.0, venue.FillPrice(Buy, mark);
            price <= mark * (1.0 + s) + 0.005 && venue.FeeFor(q, price) <= q * price * f + 0.005
  {
    hide RoundsTo, SimulatedVenue.FillPrice, SimulatedVenue.FeeFor;
    venue.FillIsNearReference(Buy, mark);
    venue.FeeIsNearShare(q, venue.FillPrice(Buy, mark));
  }

  /** A buy sized within cash and limit overdraws by no more than the bound. */
  lemma BuyOverdraws(venue: SimulatedVenue, q: real, mark: real, least: real, limit: real, cash: real)
    requires venue.Valid() && q > 0.0 && mark >= least > 0.0 && q * mark <= limit && q * mark <= cash
    ensures cash - (q * venue.FillPrice(Buy, mark) + venue.FeeFor(q, venue.FillPrice(Buy, mark))) >= -Overdraft(venue, limit, least)
  {
    hide SimulatedVenue.FillPrice, SimulatedVenue.FeeFor, Overdraft;
    var s, f, price := venue.slippageBps / 10_000.0, venue.feeBps / 10_000.0, venue.FillPrice(Buy, mark);
    BuyCeilings(venue, q, mark);
    OverdraftInTerms(venue, limit, least);
    CostBeyondNotional(q, mark, least, limit, s, f, price, venue.FeeFor(q, price));
  }

  lemma OverdraftIsNonNegative(venue: SimulatedVenue, limit: real, mark: real)
    requires venue.Valid() && limit >= 0.0 && mark > 0.0
    ensures Overdraft(venue, limit, mark) >= 0.0
  {
    var s, f := venue.slippageBps / 10_000.0, venue.feeBps / 10_000.0;
    ProductOfNonNegatives(s, f);
    assert (1.0 + s) * (1.0 + f) - 1.0 == s + f + s * f;
    ProductOfNonNegatives(limit, s + f + s * f);
    assert limit / mark >= 0.0;
    ProductOfNonNegatives(limit / mark, 1.0 + f);
    assert 0.005 * (limit / mark) * (1.0 + f) == 0.005 * ((limit / mark) * (1.0 + f));
  }

  predicate SalesCoverFees(orders: seq<OrderRow>) {
    forall i :: 0 <= i < |orders| && orders[i].side == Sell ==> CashFlows(orders[i].fills) >= 0.0
  }

  predicate MarksAtLeast(events: seq<Event>, bot: Bot, least: real)
    requires ValidEvents(events)
  {
    forall i :: 0 <= i < |events| && events[i].bot == bot && events[i].input.feed.Observed? ==>
      events[i].input.feed.snapshot.LastPrice() >= least
  }

  lemma SimulatedCashFlow(bot: Bot, input: Input, intent: OrderIntent)
    requires bot.Valid() && input.Valid(bot) && bot.backend.Simulated? && SubmitTo(bot, input, intent).Some?
    ensures var price := bot.backend.venue.FillPrice(intent.side, intent.referencePrice);
            var fee := bot.backend.venue.FeeFor(intent.quantity, price);
            CashFlows(SubmitTo(bot, input, intent).value.fills) ==
            if intent.side == Buy then -(intent.quantity * price + fee) else intent.quantity * price - fee
  {
    var fill := bot.backend.venue.FillOf(intent, input.venueClock);
    assert [fill][..0] == [];
    assert Total(CashMoved, [fill]) == fill.CashFlow();
  }

  lemma SolvencyStep(bot: Bot, input: Input, k: Book, k': Book, report: CycleReport, least: real)
    requires bot.Valid() && input.Valid(bot) && Advances(bot, input, k, k', report)
    requires bot.backend.Simulated? && OnGrids(k, bot, CENT)
    requires least > 0.0 && input.feed.snapshot.LastPrice() >= least && SalesCoverFees(k'.orders)
    requires BookCash(k, bot.initialCash) >= -Overdraft(bot.backend.venue, bot.limits.maxPosition, least)
    ensures BookCash(k', bot.initialCash) >= -Overdraft(bot.backend.venue, bot.limits.maxPosition, least)
  {
    hide Verdict, Fold, SubmitTo, SignalFor, Stored, BuildCycleId, DayOpeningEquity, StoredFills, OnGrid, CashFlows,
         Overdraft, OnGrids;
    GridStep(bot, input, k, k', report, CENT);
    if report.execution.Some? {
      var x, req := report.execution.value, RequestFor(bot, input, report.account);
      IntentIsSound(bot.limits, req);
      FoldConserves(report.account.cash, report.account.position, x.fills);
      OrderSavedExactly(bot, input, k, k', report, CENT);
      if x.intent.side == Buy {
        BuyCashFlow(bot, input, req, x.intent, least);
      } else {
        assert k'.orders[|k'.orders| - 1].side == Sell;
      }
    }
  }

  lemma BuyCashFlow(bot: Bot, input: Input, req: Request, intent: OrderIntent, least: real)
    requires bot.Valid() && input.Valid(bot) && bot.backend.Simulated? && req.Valid()
    requires Verdict(bot.limits, req).intent == Some(intent) && intent.side == Buy && req.markPrice >= least > 0.0
    requires SubmitTo(bot, input, intent).Some?
    ensures req.account.cash + CashFlows(SubmitTo(bot, input, intent).value.fills) >=
            -Overdraft(bot.backend.venue, bot.limits.maxPosition, least)
  {
    hide Verdict, SubmitTo, CashFlows, Overdraft, SimulatedVenue.FillPrice, SimulatedVenue.FeeFor, OnGrid;
    IntentIsSound(bot.limits, req);
    BuyIsLargestAllowed(bot.limits, req);
    SimulatedCashFlow(bot, input, intent);
    ShareIsWithin(bot.limits.maxPosition, req.signal.strength);
    BuyOverdraws(bot.backend.venue, intent.quantity, req.markPrice, least, bot.limits.maxPosition, req.account.cash);
  }

  lemma ShareIsWithin(whole: real, strength: real)
    requires whole >= 0.0 && strength <= 1.0
    ensures ShareOf(whole, strength) <= whole
  {
    ProductOfNonNegatives(whole, 1.0 - strength);
    assert whole * (1.0 - strength) == whole - whole * strength;
  }

  /** In every reachable state cash is above the overdraft bound. */
  lemma {:induction false} CashStaysAboveBound(events: seq<Event>, bot: Bot, least: real)
    requires Serial(events) && TradedBy(events, bot) && bot.Valid() && bot.backend.Simulated?
    requires bot.initialCash >= 0.0 && OnGrid(bot.initialCash, LOT * CENT)
    requires least > 0.0 && MarksAtLeast(events, bot, least)
    requires SalesCoverFees(BookOf(Run(events), bot.symbol).orders)
    ensures BookCash(BookOf(Run(events), bot.symbol), bot.initialCash) >=
            -Overdraft(bot.backend.venue, bot.limits.maxPosition, least)
  {
    hide Run, Advances, Stored, OnGrid, OnGrids, Sound, Overdraft, CashFlows;
    OverdraftIsNonNegative(bot.backend.venue, bot.limits.maxPosition, least);
    if |events| == 0 {
      EmptyBook(bot.symbol);
    } else {
      var moved, report := LastStep(events, bot);
      var init, e := events[..|events| - 1], events[|events| - 1];
      var k, k' := BookOf(Run(init), bot.symbol), BookOf(Run(events), bot.symbol);
      if moved {
        OrdersGrow(bot, e.input, k, k', report);
        ObservedWhenMoved(bot, e.input, k, k', report);
        FewerSalesCover(k.orders, k'.orders);
      }
      CashStaysAboveBound(init, bot, least);
      RunStaysOnGrids(init, bot, CENT);
      if moved {
        SolvencyStep(bot, e.input, k, k', report, least);
      }
    }
  }

  lemma FewerSalesCover(fewer: seq<OrderRow>, orders: seq<OrderRow>)
    requires fewer <= orders && SalesCoverFees(orders)
    ensures SalesCoverFees(fewer)
  {
    forall i | 0 <= i < |fewer| && fewer[i].side == Sell
      ensures CashFlows(fewer[i].fills) >= 0.0
    {
      assert orders[i] == fewer[i];
    }
  }

  // ---------- When sales cover their fees ----------

  /** A limit on the smallest order, against slippage and fee, that a configuration
      can be checked for. */
  predicate SalesAreLargeEnough(bot: Bot) {
    && bot.backend.Simulated?
    && var s, f := bot.backend.venue.slippageBps / 10_000.0, bot.backend.venue.feeBps / 10_000.0;
       s < 1.0 && f < 1.0 && bot.limits.minOrderNotional * ((1.0 - s) * (1.0 - f)) >= 0.01
  }

  /** A sale is never filled below half its slipped mark, and a filled one never
      below a cent. */
  lemma SalePriceFloor(venue: SimulatedVenue, mark: real)
    requires venue.FillPrice(Sell, mark) > 0.0
    ensures venue.FillPrice(Sell, mark) >= mark * (1.0 - venue.slippageBps / 10_000.0) / 2.0
  {
    var x, price := venue.SlippedPrice(Sell, mark), venue.FillPrice(Sell, mark);
    RoundHalfUpIsNearest(x, CENT);
    PositiveIsACent(price);
    assert x == mark * (1.0 - venue.slippageBps / 10_000.0);
  }

  lemma PositiveIsACent(price: real)
    requires price > 0.0 && OnGrid(price, CENT)
    ensures price >= 0.01
  {
  }

  lemma SaleCovers(q: real, mark: real, s: real, f: real, price: real, fee: real, least: real)
    requires q > 0.0 && 0.0 <= s < 1.0 && 0.0 <= f < 1.0
    requires q * mark >= least && least * ((1.0 - s) * (1.0 - f)) >= 0.01
    requires price >= mark * (1.0 - s) / 2.0 && fee <= q * price * f + 0.005
    ensures q * price - fee >= 0.0
  {
    var k := (1.0 - s) * (1.0 - f);
    ProductOfNonNegatives(1.0 - s, 1.0 - f);
    Scale(mark * (1.0 - s) / 2.0, price, q);
    assert mark * (1.0 - s) / 2.0 * q == q * mark * (1.0 - s) / 2.0;
    Scale(q * mark * (1.0 - s) / 2.0, q * price, 1.0 - f);
    assert q * mark * (1.0 - s) / 2.0 * (1.0 - f) == q * mark * k / 2.0;
    Scale(least, q * mark, k);
    assert q * price * (1.0 - f) == q * price - q * price * f;
  }

  lemma SalesStep(bot: Bot, input: Input, k: Book, k': Book, report: CycleReport)
    requires bot.Valid() && input.Valid(bot) && Advances(bot, input, k, k', report)
    requires SalesAreLargeEnough(bot) && OnGrids(k, bot, CENT) && SalesCoverFees(k.orders)
    ensures SalesCoverFees(k'.orders)
  {
    hide Verdict, Fold, SubmitTo, SignalFor, Stored, BuildCycleId, DayOpeningEquity, StoredFills, OnGrid, CashFlows, OnGrids;
    if report.execution.Some? {
      var x := report.execution.value;
      IntentIsSound(bot.limits, RequestFor(bot, input, report.account));
      OrderSavedExactly(bot, input, k, k', report, CENT);
      if x.intent.side == Sell {
        SaleCashFlow(bot, input, RequestFor(bot, input, report.account), x.intent);
      }
    }
  }

  lemma SaleCashFlow(bot: Bot, input: Input, req: Request, intent: OrderIntent)
    requires bot.Valid() && input.Valid(bot) && SalesAreLargeEnough(bot) && req.Valid()
    requires Verdict(bot.limits, req).intent == Some(intent) && intent.side == Sell
    requires SubmitTo(bot, input, intent).Some?
    ensures CashFlows(SubmitTo(bot, input, intent).value.fills) >= 0.0
  {
    hide Verdict, SubmitTo, CashFlows, SimulatedVenue.FillPrice, SimulatedVenue.FeeFor, OnGrid;
    var venue, price := bot.backend.venue, bot.backend.venue.FillPrice(Sell, req.markPrice);
    IntentIsSound(bot.limits, req);
    SellIsWithinHolding(bot.limits, req);
    SimulatedCashFlow(bot, input, intent);
    SimulatedPriceIsPositive(bot, input, intent);
    SalePriceFloor(venue, req.markPrice);
    venue.FeeIsNearShare(intent.quantity, price);
    SaleCovers(intent.quantity, req.markPrice, venue.slippageBps / 10_000.0, venue.feeBps / 10_000.0,
               price, venue.FeeFor(intent.quantity, price), bot.limits.minOrderNotional);
  }

  lemma SimulatedPriceIsPositive(bot: Bot, input: Input, intent: OrderIntent)
    requires bot.Valid() && input.Valid(bot) && bot.backend.Simulated? && SubmitTo(bot, input, intent).Some?
    ensures bot.backend.venue.FillPrice(intent.side, intent.referencePrice) > 0.0
  {
  }

  /** Under that configuration every committed sale covers its rounded fee, so the
      bound holds outright. */
  lemma {:induction false} LargeSalesCoverFees(events: seq<Event>, bot: Bot)
    requires Serial(events) && TradedBy(events, bot) && SalesAreLargeEnough(bot)
    requires OnGrid(bot.initialCash, LOT * CENT)
    ensures SalesCoverFees(BookOf(Run(events), bot.symbol).orders)
  {
    hide Run, Advances, Stored, OnGrid, OnGrids, Sound, CashFlows, SalesAreLargeEnough;
    if |events| == 0 {
      EmptyBook(bot.symbol);
    } else {
      var moved, report := LastStep(events, bot);
      var init, e := events[..|events| - 1], events[|events| - 1];
      LargeSalesCoverFees(init, bot);
      PreciseWhenSimulated(init, bot);
      RunStaysOnGrids(init, bot, CENT);
      if moved {
        SalesStep(bot, e.input, BookOf(Run(init), bot.symbol), BookOf(Run(events), bot.symbol), report);
      }
    }
  }

  lemma PreciseWhenSimulated(events: seq<Event>, bot: Bot)
    requires SalesAreLargeEnough(bot) && OnGrid(bot.initialCash, LOT * CENT)
    ensures PreciseRun(events, bot, CENT)
  {
  }

  lemma SolventConfiguration(events: seq<Event>, bot: Bot)
    requires Serial(events) && TradedBy(events, bot) && bot.Valid() && SalesAreLargeEnough(bot)
    requires bot.initialCash >= 0.0 && OnGrid(bot.initialCash, LOT * CENT)
    requires MarksOn(events, bot, CENT)
    ensures var s, f := bot.backend.venue.slippageBps / 10_000.0, bot.backend.venue.feeBps / 10_000.0;
            var limit := bot.limits.maxPosition;
            BookCash(BookOf(Run(events), bot.symbol), bot.initialCash) >=
            -(limit * ((1.0 + s) * (1.0 + f) - 1.0) + 0.5 * limit * (1.0 + f) + 0.005)
  {
    hide Run, Overdraft, Stored, CashFlows;
    LargeSalesCoverFees(events, bot);
    CentMarks(events, bot);
    CashStaysAboveBound(events, bot, 0.01);
    OverdraftInCents(bot.backend.venue, bot.limits.maxPosition);
  }

  lemma CentMarks(events: seq<Event>, bot: Bot)
    requires ValidEvents(events) && MarksOn(events, bot, CENT)
    ensures MarksAtLeast(events, bot, 0.01)
  {
    hide OnGrid;
    forall i | 0 <= i < |events| && events[i].bot == bot && events[i].input.feed.Observed?
      ensures events[i].input.feed.snapshot.LastPrice() >= 0.01
    {
      PositiveIsACent(events[i].input.feed.snapshot.LastPrice());
    }
  }
}
