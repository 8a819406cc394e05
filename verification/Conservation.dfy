/** Where the money goes: equity over a whole run is the initial cash plus the
    gains on what was held, minus slippage, minus fees. */
module Conservation {
  import opened Results
  import opened Decimals
  import opened Orders
  import opened Portfolio
  import opened Ledger
  import opened Policy
  import opened Simulator
  import opened Repository
  import opened CycleIds
  import opened Cycle
  import opened Runs
  import opened Caches

  /** Every mark this bot observes is on the given price scale. */
  predicate MarksOn(events: seq<Event>, bot: Bot, scale: real)
    requires ValidEvents(events)
  {
    forall i :: 0 <= i < |events| && events[i].bot == bot && events[i].input.feed.Observed? ==>
      OnGrid(events[i].input.feed.snapshot.LastPrice(), scale)
  }

  /** Held quantity times the change of the mark, over consecutive snapshots. */
  function HeldGain(rows: seq<SnapshotRow>): real {
    if |rows| < 2 then 0.0
    else
      var before, last := rows[|rows| - 2], rows[|rows| - 1];
      HeldGain(rows[..|rows| - 1]) + before.positionQuantity * (last.markPrice - before.markPrice)
  }

  function SlippageOf(fill: Fill, mark: real): real {
    fill.SignedQuantity() * (fill.price - mark)
  }

  /** What filling at these prices cost against filling at the mark. */
  function Slippage(fills: seq<Fill>, mark: real): real {
    if |fills| == 0 then 0.0
    else
      Slippage(fills[..|fills| - 1], mark) + SlippageOf(fills[|fills| - 1], mark)
  }

  function SlippagePaid(orders: seq<OrderRow>): real {
    if |orders| == 0 then 0.0
    else
      var last := orders[|orders| - 1];
      SlippagePaid(orders[..|orders| - 1]) + Slippage(last.fills, last.referencePrice)
  }

  function FeesPaid(orders: seq<OrderRow>): real {
    if |orders| == 0 then 0.0
    else FeesPaid(orders[..|orders| - 1]) + Fees(orders[|orders| - 1].fills)
  }

  function ValueAt(cash: real, quantity: real, mark: real): real {
    cash + quantity * mark
  }

  lemma FillAtMark(cash: real, quantity: real, fill: Fill, mark: real)
    ensures ValueAt(cash + fill.CashFlow(), quantity + fill.SignedQuantity(), mark) ==
            ValueAt(cash, quantity, mark) - SlippageOf(fill, mark) - fill.fee
  {
    var q := fill.SignedQuantity();
    assert (quantity + q) * mark == quantity * mark + q * mark;
    assert q * (fill.price - mark) == q * fill.price - q * mark;
    assert fill.CashFlow() == -(q * fill.price) - fill.fee;
  }

  /** At the mark, an execution costs exactly its slippage and its fees. */
  lemma {:induction false} ExecutionAtMark(cash: real, position: Position, fills: seq<Fill>, mark: real)
    requires position.Valid() && ValidFills(fills) && Fold(cash, position, fills).Success?
    ensures var u := Fold(cash, position, fills).value;
            ValueAt(u.cash, u.position.quantity, mark) ==
            ValueAt(cash, position.quantity, mark) - Slippage(fills, mark) - Fees(fills)
  {
    hide ValueAt, SlippageOf;
    if |fills| > 0 {
      var init, last := fills[..|fills| - 1], fills[|fills| - 1];
      ExecutionAtMark(cash, position, init, mark);
      var before := Fold(cash, position, init).value;
      FillAtMark(before.cash, before.position.quantity, last, mark);
    }
  }

  ghost predicate EquityExplained(book: Book, bot: Bot) {
    |book.snapshots| > 0 ==>
      var last := book.snapshots[|book.snapshots| - 1];
      && last.equity == ValueAt(last.cash, last.positionQuantity, last.markPrice)
      && last.equity ==
         bot.initialCash + HeldGain(book.snapshots) - SlippagePaid(book.orders) - FeesPaid(book.orders)
  }

  lemma MarkChange(cash: real, quantity: real, mark: real, mark': real)
    ensures ValueAt(cash, quantity, mark') == ValueAt(cash, quantity, mark) + quantity * (mark' - mark)
  {
  }

  lemma GainAppended(rows: seq<SnapshotRow>, row: SnapshotRow)
    ensures |rows| == 0 ==> HeldGain(rows + [row]) == 0.0
    ensures |rows| > 0 ==>
              HeldGain(rows + [row]) == HeldGain(rows) +
                rows[|rows| - 1].positionQuantity * (row.markPrice - rows[|rows| - 1].markPrice)
  {
    assert (rows + [row])[..|rows|] == rows;
  }

  /** Before it trades, a cycle's account is worth what the last snapshot said plus
      the gain on the holding since. */
  lemma ValueBeforeTrading(bot: Bot, k: Book, row: SnapshotRow, mark: real)
    requires Sound(k, bot.symbol) && EquityExplained(k, bot) && row.markPrice == mark
    ensures ValueAt(BookCash(k, bot.initialCash), BookPosition(k, bot.symbol).quantity, mark) ==
            bot.initialCash + HeldGain(k.snapshots + [row]) - SlippagePaid(k.orders) - FeesPaid(k.orders)
  {
    hide Stored;
    GainAppended(k.snapshots, row);
    if |k.snapshots| > 0 {
      var last := k.snapshots[|k.snapshots| - 1];
      MarkChange(last.cash, last.positionQuantity, last.markPrice, mark);
    }
  }

  lemma CostsAppended(orders: seq<OrderRow>, order: OrderRow)
    ensures SlippagePaid(orders + [order]) == SlippagePaid(orders) + Slippage(order.fills, order.referencePrice)
    ensures FeesPaid(orders + [order]) == FeesPaid(orders) + Fees(order.fills)
  {
    assert (orders + [order])[..|orders|] == orders;
  }

  lemma ConservationStep(bot: Bot, input: Input, k: Book, k': Book, report: CycleReport, scale: real)
    requires bot.Valid() && input.Valid(bot) && Advances(bot, input, k, k', report)
    requires PriceScale(scale) && PreciseAnswer(bot, input, scale) && OnGrids(k, bot, scale)
    requires OnGrid(input.feed.snapshot.LastPrice(), scale)
    requires Sound(k, bot.symbol) && EquityExplained(k, bot)
    ensures EquityExplained(k', bot)
  {
    hide Verdict, Fold, SubmitTo, SignalFor, Stored, BuildCycleId, DayOpeningEquity, StoredFills, OnGrid, ValueAt, RequestFor,
         SlippagePaid, FeesPaid, HeldGain, Slippage, OnGrids, Sound;
    var mark := input.feed.snapshot.LastPrice();
    var row := k'.snapshots[|k'.snapshots| - 1];
    GridStep(bot, input, k, k', report, scale);
    ValueBeforeTrading(bot, k, row, mark);
    EquityIsValue(report.equity);
    if report.execution.Some? {
      ExecutionAtMark(report.account.cash, report.account.position, report.execution.value.fills, mark);
      CostsAppended(k.orders, k'.orders[|k'.orders| - 1]);
    }
  }

  lemma EquityIsValue(equity: EquitySnapshot)
    ensures Position("", equity.positionQuantity, 0.0).NotionalAt(equity.markPrice) + equity.cash ==
            ValueAt(equity.cash, equity.positionQuantity, equity.markPrice)
  {
  }

  /** Mark-to-market conservation over any run. */
  lemma {:induction false} EquityIsConserved(events: seq<Event>, bot: Bot, scale: real)
    requires Serial(events) && TradedBy(events, bot) && PriceScale(scale) && PreciseRun(events, bot, scale)
    requires MarksOn(events, bot, scale)
    ensures EquityExplained(BookOf(Run(events), bot.symbol), bot)
  {
    hide Run, Advances, Stored, OnGrid, OnGrids, EquityExplained;
    if |events| == 0 {
      EmptyBook(bot.symbol);
      NothingToExplain(bot);
    } else {
      var moved, report := LastStep(events, bot);
      var init, e := events[..|events| - 1], events[|events| - 1];
      EquityIsConserved(init, bot, scale);
      RunStaysOnGrids(init, bot, scale);
      if moved {
        ObservedWhenMoved(bot, e.input, BookOf(Run(init), bot.symbol), BookOf(Run(events), bot.symbol), report);
        ConservationStep(bot, e.input, BookOf(Run(init), bot.symbol), BookOf(Run(events), bot.symbol), report, scale);
      }
    }
  }

  /** Every committed snapshot is on the grids, its equity included. */
  ghost predicate RowsOnGrids(rows: seq<SnapshotRow>, scale: real) {
    forall i :: 0 <= i < |rows| ==>
      && OnGrid(rows[i].positionQuantity, LOT)
      && OnGrid(rows[i].cash, LOT * scale)
      && OnGrid(rows[i].equity, LOT * scale)
  }

  lemma RowStep(bot: Bot, input: Input, k: Book, k': Book, report: CycleReport, scale: real)
    requires bot.Valid() && input.Valid(bot) && Advances(bot, input, k, k', report)
    requires PriceScale(scale) && PreciseAnswer(bot, input, scale) && OnGrids(k, bot, scale)
    requires OnGrid(input.feed.snapshot.LastPrice(), scale) && RowsOnGrids(k.snapshots, scale)
    ensures RowsOnGrids(k'.snapshots, scale)
  {
    hide Verdict, Fold, SubmitTo, SignalFor, Stored, BuildCycleId, DayOpeningEquity, StoredFills, OnGrid, RequestFor, OnGrids;
    GridStep(bot, input, k, k', report, scale);
    SettlementIsOnGrid(bot, input, k, k', report, scale);
  }

  /** In every run with marks on the price scale, every cash and equity ever stored is
      a multiple of 1e-10 (1e-16), and every stored quantity one of 1e-8. */
  lemma {:induction false} RunStoresOnGrids(events: seq<Event>, bot: Bot, scale: real)
    requires Serial(events) && TradedBy(events, bot) && PriceScale(scale) && PreciseRun(events, bot, scale)
    requires MarksOn(events, bot, scale)
    ensures RowsOnGrids(BookOf(Run(events), bot.symbol).snapshots, scale)
  {
    hide Run, Advances, Stored, OnGrid, OnGrids;
    if |events| == 0 {
      EmptyBook(bot.symbol);
    } else {
      var moved, report := LastStep(events, bot);
      var init, e := events[..|events| - 1], events[|events| - 1];
      RunStoresOnGrids(init, bot, scale);
      RunStaysOnGrids(init, bot, scale);
      if moved {
        ObservedWhenMoved(bot, e.input, BookOf(Run(init), bot.symbol), BookOf(Run(events), bot.symbol), report);
        RowStep(bot, e.input, BookOf(Run(init), bot.symbol), BookOf(Run(events), bot.symbol), report, scale);
      }
    }
  }

  lemma NothingToExplain(bot: Bot)
    ensures EquityExplained(Book([], [], None), bot)
  {
  }

  lemma ObservedWhenMoved(bot: Bot, input: Input, k: Book, k': Book, report: CycleReport)
    requires bot.Valid() && input.Valid(bot) && Advances(bot, input, k, k', report)
    ensures input.feed.Observed?
  {
  }

  predicate SlippageNeverPays(orders: seq<OrderRow>) {
    forall i :: 0 <= i < |orders| ==> Slippage(orders[i].fills, orders[i].referencePrice) >= 0.0
  }

  lemma SimulatedSlippage(bot: Bot, input: Input, intent: OrderIntent)
    requires bot.Valid() && input.Valid(bot) && bot.backend.Simulated? && intent.Valid()
    requires OnGrid(intent.referencePrice, CENT) && SubmitTo(bot, input, intent).Some?
    ensures Slippage(SubmitTo(bot, input, intent).value.fills, intent.referencePrice) >= 0.0
  {
    hide SlippageOf, SimulatedVenue.FillPrice, SimulatedVenue.FeeFor;
    var fill := bot.backend.venue.FillOf(intent, input.venueClock);
    bot.backend.venue.SlippageCosts(intent.side, intent.referencePrice);
    AgainstTheBot(fill, intent.referencePrice);
    assert [fill][..0] == [];
    assert Slippage([fill], intent.referencePrice) == SlippageOf(fill, intent.referencePrice);
  }

  lemma AgainstTheBot(fill: Fill, mark: real)
    requires fill.quantity >= 0.0
    requires if fill.side == Buy then fill.price >= mark else fill.price <= mark
    ensures SlippageOf(fill, mark) >= 0.0
  {
    var q, gap := fill.quantity, fill.price - mark;
    if fill.side == Buy {
      ProductOfNonNegatives(q, gap);
    } else {
      ProductOfNonNegatives(q, -gap);
      assert (-q) * gap == q * (-gap);
    }
  }

  /** Simulated fills against marks in cents: no order's slippage is ever negative,
      despite the rounding. */
  lemma {:induction false} SimulatedRunPaysSlippage(events: seq<Event>, bot: Bot)
    requires Serial(events) && TradedBy(events, bot) && bot.backend.Simulated?
    requires OnGrid(bot.initialCash, LOT * CENT) && MarksOn(events, bot, CENT)
    ensures SlippageNeverPays(BookOf(Run(events), bot.symbol).orders)
  {
    hide Run, Advances, Stored, OnGrid, OnGrids, Slippage;
    if |events| == 0 {
      EmptyBook(bot.symbol);
    } else {
      var moved, report := LastStep(events, bot);
      var init, e := events[..|events| - 1], events[|events| - 1];
      SimulatedRunPaysSlippage(init, bot);
      RunStaysOnGrids(init, bot, CENT);
      if moved {
        ObservedWhenMoved(bot, e.input, BookOf(Run(init), bot.symbol), BookOf(Run(events), bot.symbol), report);
        SlippageStep(bot, e.input, BookOf(Run(init), bot.symbol), BookOf(Run(events), bot.symbol), report);
      }
    }
  }

  lemma SlippageStep(bot: Bot, input: Input, k: Book, k': Book, report: CycleReport)
    requires bot.Valid() && input.Valid(bot) && Advances(bot, input, k, k', report)
    requires bot.backend.Simulated? && OnGrids(k, bot, CENT) && OnGrid(input.feed.snapshot.LastPrice(), CENT)
    requires SlippageNeverPays(k.orders)
    ensures SlippageNeverPays(k'.orders)
  {
    hide Verdict, Fold, SubmitTo, SignalFor, Stored, BuildCycleId, DayOpeningEquity, StoredFills, OnGrid, Slippage, OnGrids;
    if report.execution.Some? {
      IntentIsSound(bot.limits, RequestFor(bot, input, report.account));
      SimulatedSlippage(bot, input, report.execution.value.intent);
      OrderSavedExactly(bot, input, k, k', report, CENT);
    }
  }

  lemma {:induction false} SlippageSumsUp(orders: seq<OrderRow>)
    requires SlippageNeverPays(orders)
    ensures SlippagePaid(orders) >= 0.0
  {
    if |orders| > 0 {
      SlippageSumsUp(orders[..|orders| - 1]);
    }
  }

  /** So trading alone never raises equity at the mark: it is at most the initial
      cash plus the gains on what was held minus the fees. */
  lemma TradingNeverGains(events: seq<Event>, bot: Bot)
    requires Serial(events) && TradedBy(events, bot) && bot.backend.Simulated?
    requires OnGrid(bot.initialCash, LOT * CENT) && MarksOn(events, bot, CENT)
    ensures var book := BookOf(Run(events), bot.symbol);
            |book.snapshots| > 0 ==>
              book.snapshots[|book.snapshots| - 1].equity <=
              bot.initialCash + HeldGain(book.snapshots) - FeesPaid(book.orders)
  {
    hide Run, Slippage, HeldGain, FeesPaid, Stored, OnGrid;
    SimulatedRunPaysSlippage(events, bot);
    EquityIsConserved(events, bot, CENT);
    SlippageSumsUp(BookOf(Run(events), bot.symbol).orders);
  }
}
