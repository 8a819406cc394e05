/** Idempotence: a bar is traded at most once, and replaying it changes nothing that
    money depends on. */
module Bars {
  import opened Results
  import opened Decimals
  import opened Timeframes
  import opened Market
  import opened Orders
  import opened Portfolio
  import opened Ledger
  import opened Policy
  import opened SmaCrossover
  import opened Repository
  import opened CycleIds
  import opened Cycle
  import opened Runs
  import opened Caches
  import opened Conservation

  predicate UniqueIds(orders: seq<OrderRow>) {
    forall i, j :: 0 <= i < j < |orders| ==> orders[i].clientOrderId != orders[j].clientOrderId
  }

  /** The unique constraint on client order ids is never violated, in any run. */
  lemma {:induction false} OrderIdsStayUnique(events: seq<Event>)
    requires ValidEvents(events)
    ensures UniqueIds(Run(events).orders)
  {
    hide RunCycle;
    if |events| > 0 {
      var init, e := events[..|events| - 1], events[|events| - 1];
      OrderIdsStayUnique(init);
      if RunCycle(e.bot, e.input, Run(init)).Completed? {
        CycleKeepsIdsUnique(e.bot, e.input, Run(init));
      }
    }
  }

  lemma CycleKeepsIdsUnique(bot: Bot, input: Input, tables: Tables)
    requires bot.Valid() && input.Valid(bot) && RunCycle(bot, input, tables).Completed? && UniqueIds(tables.orders)
    ensures UniqueIds(RunCycle(bot, input, tables).tables.orders)
  {
    hide RunCycle, Verdict, Fold, SubmitTo, SignalFor, Stored, StoredFills, RequestFor, AccountFor, PositionRowOf;
    CycleWrites(bot, input, tables);
  }

  lemma {:induction false} OwnOrdersUnique(rows: seq<OrderRow>, symbol: string)
    requires UniqueIds(rows)
    ensures UniqueIds(OrdersFor(rows, symbol))
    ensures forall i :: 0 <= i < |OrdersFor(rows, symbol)| ==> OrdersFor(rows, symbol)[i] in rows
  {
    if |rows| > 0 {
      OwnOrdersUnique(rows[..|rows| - 1], symbol);
    }
  }

  function SideOf(action: Action): Side {
    if action == GoLong then Buy else Sell
  }

  /** The order was decided by the event's cycle. */
  ghost predicate DecidedBy(order: OrderRow, event: Event, bot: Bot)
    requires event.Valid()
  {
    && event.bot == bot && event.input.feed.Observed?
    && order.cycleId == BuildCycleId(event.input.feed.snapshot)
    && SignalFor(bot, event.input.feed.snapshot).action != Hold
    && order.side == SideOf(SignalFor(bot, event.input.feed.snapshot).action)
    && order.clientOrderId == ClientOrderId(order.cycleId, order.side)
  }

  ghost predicate AllDecided(orders: seq<OrderRow>, events: seq<Event>, bot: Bot)
    requires ValidEvents(events)
  {
    forall i :: 0 <= i < |orders| ==> exists j :: 0 <= j < |events| && DecidedBy(orders[i], events[j], bot)
  }

  lemma NewOrderIsDecided(event: Event, k: Book, k': Book, report: CycleReport)
    requires event.Valid() && Advances(event.bot, event.input, k, k', report) && report.execution.Some?
    ensures |k'.orders| > 0 && DecidedBy(k'.orders[|k'.orders| - 1], event, event.bot)
  {
    hide Verdict, Fold, SubmitTo, SignalFor, Stored, BuildCycleId, DayOpeningEquity, StoredFills;
    IntentIsSound(event.bot.limits, RequestFor(event.bot, event.input, report.account));
  }

  lemma {:induction false} EveryOrderIsDecided(events: seq<Event>, bot: Bot)
    requires Serial(events) && TradedBy(events, bot)
    ensures AllDecided(BookOf(Run(events), bot.symbol).orders, events, bot)
  {
    hide Run, Advances, Stored, Sound, DecidedBy;
    if |events| == 0 {
      EmptyBook(bot.symbol);
    } else {
      var moved, report := LastStep(events, bot);
      var init, e := events[..|events| - 1], events[|events| - 1];
      var k, k' := BookOf(Run(init), bot.symbol), BookOf(Run(events), bot.symbol);
      EveryOrderIsDecided(init, bot);
      forall i | 0 <= i < |k'.orders|
        ensures exists j :: 0 <= j < |events| && DecidedBy(k'.orders[i], events[j], bot)
      {
        if i < |k.orders| {
          assert k'.orders[i] == k.orders[i] by {
            if moved {
              BookOrders(bot, e.input, k, k', report);
            }
          }
          var j :| 0 <= j < |init| && DecidedBy(k.orders[i], init[j], bot);
          assert events[j] == init[j];
        } else {
          BookOrders(bot, e.input, k, k', report);
          NewOrderIsDecided(e, k, k', report);
          assert DecidedBy(k'.orders[i], events[|events| - 1], bot);
        }
      }
    }
  }

  lemma BookOrders(bot: Bot, input: Input, k: Book, k': Book, report: CycleReport)
    requires bot.Valid() && input.Valid(bot) && Advances(bot, input, k, k', report)
    ensures k.orders <= k'.orders
    ensures |k'.orders| == |k.orders| + (if report.execution.Some? then 1 else 0)
  {
  }

  /** Wherever both snapshots reach back far enough, their newest slow + 1 closes agree. */
  predicate SameRecentCloses(bot: Bot, s: MarketSnapshot, s': MarketSnapshot)
    requires bot.Valid() && s.Valid() && s'.Valid()
  {
    var n := bot.strategy.slowWindow + 1;
    |s.candles| >= n && |s'.candles| >= n ==>
      s.Closes()[|s.candles| - n..] == s'.Closes()[|s'.candles| - n..]
  }

  /** The gateway gives the same candles for the same bar, as far as the strategy looks. */
  predicate ConsistentFeed(events: seq<Event>, bot: Bot)
    requires ValidEvents(events) && bot.Valid()
  {
    forall i, j :: 0 <= i < |events| && 0 <= j < |events|
      && events[i].bot == bot && events[j].bot == bot
      && events[i].input.feed.Observed? && events[j].input.feed.Observed?
      && SameSecond(events[i].input.feed.snapshot.AsOf(), events[j].input.feed.snapshot.AsOf())
      ==> SameRecentCloses(bot, events[i].input.feed.snapshot, events[j].input.feed.snapshot)
  }

  lemma SameBarSameAction(bot: Bot, s: MarketSnapshot, s': MarketSnapshot)
    requires bot.Valid() && s.Valid() && s'.Valid() && SameRecentCloses(bot, s, s')
    requires SignalFor(bot, s).action != Hold && SignalFor(bot, s').action != Hold
    ensures SignalFor(bot, s).action == SignalFor(bot, s').action
  {
    hide Judge;
    ClosesArePositive(s);
    ClosesArePositive(s');
    RecentClosesDecide(bot.strategy, s.Closes());
    RecentClosesDecide(bot.strategy, s'.Closes());
  }

  lemma SameCycleSameSide(events: seq<Event>, bot: Bot, order: OrderRow, order': OrderRow)
    requires ValidEvents(events) && bot.Valid() && ConsistentFeed(events, bot)
    requires ParseTimeframe(bot.timeframe).Success? && order.cycleId == order'.cycleId
    requires exists i :: 0 <= i < |events| && DecidedBy(order, events[i], bot)
    requires exists j :: 0 <= j < |events| && DecidedBy(order', events[j], bot)
    ensures order.side == order'.side && order.clientOrderId == order'.clientOrderId
  {
    hide SignalFor, ParseTimeframe, SameSecond, CycleId, SameRecentCloses;
    var i :| 0 <= i < |events| && DecidedBy(order, events[i], bot);
    var j :| 0 <= j < |events| && DecidedBy(order', events[j], bot);
    var s, s' := events[i].input.feed.snapshot, events[j].input.feed.snapshot;
    assert events[i].Valid() && events[j].Valid();
    CycleIdIdentifiesBar(s.symbol, s.timeframe, s.AsOf(), s'.symbol, s'.timeframe, s'.AsOf());
    SameBarSameAction(bot, s, s');
  }

  /** A bot whose timeframe cannot be read never gets as far as an order. */
  lemma {:induction false} NoOrdersWithoutTimeframe(events: seq<Event>, bot: Bot)
    requires ValidEvents(events) && TradedBy(events, bot) && ParseTimeframe(bot.timeframe).Failure?
    ensures BookOf(Run(events), bot.symbol).orders == []
  {
    hide Verdict, Fold, SubmitTo, SignalFor, RequestFor, AccountFor, BookOf, ParseTimeframe, AnsweredBy;
    if |events| == 0 {
      EmptyBook(bot.symbol);
    } else {
      var init, e := events[..|events| - 1], events[|events| - 1];
      NoOrdersWithoutTimeframe(init, bot);
      if e.bot.symbol != bot.symbol {
        OtherSymbolsStay(e, Run(init), bot.symbol);
      }
    }
  }

  /** At most one committed order per bar: the bar fixes the candles, the candles the
      side, bar and side the client order id, and that is never reused. */
  lemma OneOrderPerBar(events: seq<Event>, bot: Bot, i: nat, j: nat)
    requires Serial(events) && TradedBy(events, bot) && bot.Valid() && ConsistentFeed(events, bot)
    requires i < j < |BookOf(Run(events), bot.symbol).orders|
    ensures BookOf(Run(events), bot.symbol).orders[i].cycleId != BookOf(Run(events), bot.symbol).orders[j].cycleId
  {
    hide Run, ParseTimeframe, ConsistentFeed, DecidedBy;
    var orders := BookOf(Run(events), bot.symbol).orders;
    OrderIdsStayUnique(events);
    OwnOrdersUnique(Run(events).orders, bot.symbol);
    EveryOrderIsDecided(events, bot);
    if ParseTimeframe(bot.timeframe).Failure? {
      NoOrdersWithoutTimeframe(events, bot);
    } else if orders[i].cycleId == orders[j].cycleId {
      SameCycleSameSide(events, bot, orders[i], orders[j]);
    }
  }

  /** Even if the gateway rewrites a bar, it is traded at most once per side. */
  lemma OneOrderPerBarAndSide(events: seq<Event>, bot: Bot, i: nat, j: nat)
    requires Serial(events) && TradedBy(events, bot)
    requires i < j < |BookOf(Run(events), bot.symbol).orders|
    ensures var orders := BookOf(Run(events), bot.symbol).orders;
            orders[i].cycleId == orders[j].cycleId ==> orders[i].side != orders[j].side
  {
    hide Run, BuildCycleId, SignalFor;
    OrderIdsStayUnique(events);
    OwnOrdersUnique(Run(events).orders, bot.symbol);
    EveryOrderIsDecided(events, bot);
  }

  /** A cycle whose own order is already committed, in any tables: either nothing is
      written, or exactly one signal and one snapshot. */
  lemma DuplicateIsSuppressed(bot: Bot, input: Input, tables: Tables)
    requires bot.Valid() && input.Valid(bot) && input.feed.Observed?
    requires AlreadyExecuted(tables.orders, ClientOrderId(
               BuildCycleId(input.feed.snapshot), SideOf(SignalFor(bot, input.feed.snapshot).action)))
    ensures match RunCycle(bot, input, tables)
            case Aborted(_, answered) =>
              answered.None? && Commit(bot, input, tables) == tables
            case Completed(after, report) =>
              && report.execution.None?
              && after.orders == tables.orders && after.positions == tables.positions
              && |after.signals| == |tables.signals| + 1 && tables.signals <= after.signals
              && |after.snapshots| == |tables.snapshots| + 1 && tables.snapshots <= after.snapshots
              && after.snapshots[|tables.snapshots|].cash ==
                 Stored(LoadCash(tables.snapshots, bot.symbol, bot.initialCash))
              && after.snapshots[|tables.snapshots|].positionQuantity ==
                 Stored(LoadPosition(tables.positions, bot.symbol).quantity)
  {
    hide Verdict, Fold, SubmitTo, BuildCycleId, SignalFor, SignalRowOf, PositionRowOf, OrderRowOf, AlreadyExecuted,
         LoadCash, LoadPosition, DayOpeningEquity, ClientOrderId, Stored;
    var account := AccountFor(bot, input, tables);
    if account.Some? {
      var req := RequestFor(bot, input, account.value);
      if Verdict(bot.limits, req).intent.Some? {
        IntentIsSound(bot.limits, req);
      }
    }
    if RunCycle(bot, input, tables).Completed? {
      CycleWrites(bot, input, tables);
    }
  }

  /** One signal and one snapshot are all that is added, if anything is. */
  predicate OnlyNoted(tables: Tables, after: Tables) {
    || after == tables
    || (&& after.orders == tables.orders && after.positions == tables.positions
        && |after.signals| == |tables.signals| + 1 && tables.signals <= after.signals
        && |after.snapshots| == |tables.snapshots| + 1 && tables.snapshots <= after.snapshots)
  }

  lemma WithoutOrderOnlyNoted(bot: Bot, input: Input, tables: Tables)
    requires bot.Valid() && input.Valid(bot)
    requires RunCycle(bot, input, tables).Completed? ==> RunCycle(bot, input, tables).report.execution.None?
    ensures OnlyNoted(tables, Commit(bot, input, tables))
  {
    hide RunCycle, Verdict, Fold, SubmitTo, SignalFor, RequestFor, AccountFor;
    if RunCycle(bot, input, tables).Completed? {
      CycleWrites(bot, input, tables);
    }
  }

  lemma WithoutOrderSameHoldings(bot: Bot, input: Input, k: Book, k': Book, report: CycleReport)
    requires bot.Valid() && input.Valid(bot) && Advances(bot, input, k, k', report)
    requires Sound(k, bot.symbol) && |k.snapshots| > 0 && report.execution.None?
    ensures SameHoldings(k, k', bot)
  {
    hide Verdict, Fold, SubmitTo, SignalFor, Stored, BuildCycleId, DayOpeningEquity, RequestFor;
  }

  /** Replaying a bar that has a committed order, whatever the strategy says of it this
      time: orders, position and cash are what they were, and either one signal and
      one snapshot are added, or nothing. */
  lemma ReplayChangesNothing(events: seq<Event>, bot: Bot, i: nat)
    requires Serial(events) && TradedBy(events, bot) && bot.Valid() && ConsistentFeed(events, bot)
    requires |events| > 0 && events[|events| - 1].bot == bot && events[|events| - 1].input.feed.Observed?
    requires var orders := BookOf(Run(events[..|events| - 1]), bot.symbol).orders;
             i < |orders| && orders[i].cycleId == BuildCycleId(events[|events| - 1].input.feed.snapshot)
    ensures var before, after := Run(events[..|events| - 1]), Run(events);
            SameHoldings(BookOf(before, bot.symbol), BookOf(after, bot.symbol), bot) && OnlyNoted(before, after)
  {
    hide RunCycle, Advances, Stored, Sound, ConsistentFeed, OnlyNoted, BuildCycleId, SameHoldings;
    var init, input := events[..|events| - 1], events[|events| - 1].input;
    var before := Run(init);
    var k, k' := BookOf(before, bot.symbol), BookOf(Run(events), bot.symbol);
    RunIsSound(init, bot);
    if RunCycle(bot, input, before).Completed? {
      var report := RunCycle(bot, input, before).report;
      InOrder(k, bot.symbol);
      CycleMovesOneBook(bot, input, before);
      if report.execution.Some? {
        NewestOrder(bot, input, k, k', report);
        OneOrderPerBar(events, bot, i, |k.orders|);
        assert false;
      }
      OrdersMeanSnapshots(k, bot.symbol);
      WithoutOrderSameHoldings(bot, input, k, k', report);
    } else {
      SameHoldingsAsItself(k, bot);
    }
    WithoutOrderOnlyNoted(bot, input, before);
  }

  lemma NewestOrder(bot: Bot, input: Input, k: Book, k': Book, report: CycleReport)
    requires bot.Valid() && input.Valid(bot) && Advances(bot, input, k, k', report) && report.execution.Some?
    ensures k.orders <= k'.orders && |k'.orders| == |k.orders| + 1
    ensures k'.orders[|k.orders|].cycleId == BuildCycleId(input.feed.snapshot)
  {
    hide Verdict, Fold, SubmitTo, SignalFor, Stored, BuildCycleId, DayOpeningEquity, StoredFills;
  }

  lemma OrdersMeanSnapshots(k: Book, symbol: string)
    requires Sound(k, symbol) && |k.orders| > 0
    ensures |k.snapshots| > 0
  {
  }

  lemma SameHoldingsAsItself(k: Book, bot: Bot)
    ensures SameHoldings(k, k, bot)
  {
  }
}
