/** The hard limits over whole runs: no short position, no order rolled back by the
    bot's own checks, and the position limit. */
module Limits {
  import opened Results
  import opened Decimals
  import opened Orders
  import opened Portfolio
  import opened Ledger
  import opened Policy
  import opened Simulator
  import opened Repository
  import opened CycleIds
  import opened Cycle
  import opened Runs
  import opened Caches
  import opened Conservation

  /** A venue that fills what was asked, on the side asked, and no more. */
  predicate Honest(symbol: string, side: Side, quantity: real, fills: seq<Fill>) {
    && (forall i :: 0 <= i < |fills| ==> fills[i].symbol == symbol && fills[i].side == side)
    && FilledQuantity(fills) <= quantity
  }

  lemma {:induction false} HonestFillsMove(symbol: string, side: Side, fills: seq<Fill>)
    requires ValidFills(fills)
    requires forall i :: 0 <= i < |fills| ==> fills[i].symbol == symbol && fills[i].side == side
    ensures FilledQuantity(fills) >= 0.0
    ensures SignedQuantity(fills) == if side == Buy then FilledQuantity(fills) else -FilledQuantity(fills)
  {
    if |fills| > 0 {
      HonestFillsMove(symbol, side, fills[..|fills| - 1]);
    }
  }

  /** Fills of a holding's own symbol that sell no more than is held always fold. */
  lemma {:induction false} HonestFillsFold(cash: real, position: Position, side: Side, fills: seq<Fill>)
    requires position.Valid() && ValidFills(fills)
    requires forall i :: 0 <= i < |fills| ==> fills[i].symbol == position.symbol && fills[i].side == side
    requires side == Sell ==> FilledQuantity(fills) <= position.quantity
    ensures Fold(cash, position, fills).Success?
  {
    if |fills| > 0 {
      var init, last := fills[..|fills| - 1], fills[|fills| - 1];
      HonestFillsFold(cash, position, side, init);
      FoldConserves(cash, position, init);
      HonestFillsMove(position.symbol, side, init);
    }
  }

  lemma HonestAnswerFolds(limits: RiskLimits, req: Request, cash: real, fills: seq<Fill>)
    requires limits.Valid() && req.Valid() && ValidFills(fills) && Verdict(limits, req).intent.Some?
    requires req.signal.symbol == req.account.position.symbol
    requires var intent := Verdict(limits, req).intent.value;
             Honest(intent.symbol, intent.side, intent.quantity, fills)
    ensures Fold(cash, req.account.position, fills).Success?
  {
    hide Verdict, Fold;
    IntentIsSound(limits, req);
    HonestFillsFold(cash, req.account.position, Verdict(limits, req).intent.value.side, fills);
  }

  lemma SimulatedVenueIsHonest(bot: Bot, input: Input, intent: OrderIntent)
    requires bot.Valid() && input.Valid(bot) && bot.backend.Simulated? && SubmitTo(bot, input, intent).Some?
    ensures Honest(intent.symbol, intent.side, intent.quantity, SubmitTo(bot, input, intent).value.fills)
  {
    var fill := bot.backend.venue.FillOf(intent, input.venueClock);
    assert [fill][..0] == [];
    assert Total(OrderedQuantity, [fill]) == fill.quantity;
  }

  /** Once the venue has answered, nothing in the cycle can fail any more: a cycle
      is aborted after an answer only if the answer was not honest, which the
      simulated venue's never is. */
  lemma SentOrdersAreNeverRolledBack(bot: Bot, input: Input, tables: Tables)
    requires bot.Valid() && input.Valid(bot)
    ensures match RunCycle(bot, input, tables)
            case Aborted(_, Some(x)) =>
              bot.backend.Sandbox? && !Honest(x.intent.symbol, x.intent.side, x.intent.quantity, x.fills)
            case Aborted(reason, None) => !reason.LedgerRejected?
            case Completed(_, report) =>
              && report.equity.Valid()
              && report.equity.markPrice > 0.0 && report.equity.positionQuantity >= 0.0
              && report.equity.dayOpeningEquity > 0.0
              && (report.execution.Some? ==>
                    && report.execution.value.intent.Valid()
                    && report.execution.value.intent.quantity > 0.0 && report.execution.value.intent.referencePrice > 0.0)
  {
    hide Verdict, Fold, SubmitTo, LoadAccountState, BuildCycleId, SignalFor, SignalRowOf, PositionRowOf, OrderRowOf,
         SnapshotRowOf, AlreadyExecuted, Honest;
    if AnsweredBy(bot, input, tables).Some? {
      var account := AccountFor(bot, input, tables).value;
      var req := RequestFor(bot, input, account);
      var x := AnsweredBy(bot, input, tables).value;
      IntentIsSound(bot.limits, req);
      if bot.backend.Simulated? {
        SimulatedVenueIsHonest(bot, input, x.intent);
      }
      if Honest(x.intent.symbol, x.intent.side, x.intent.quantity, x.fills) {
        HonestAnswerFolds(bot.limits, req, account.cash, x.fills);
      }
    }
  }

  /** Sales of a holding fold exactly when they do not exceed it; purchases always. */
  lemma OwnFillsFoldExactlyWhen(cash: real, position: Position, side: Side, fills: seq<Fill>)
    requires position.Valid() && ValidFills(fills)
    requires forall i :: 0 <= i < |fills| ==> fills[i].symbol == position.symbol && fills[i].side == side
    ensures Fold(cash, position, fills).Success? <==> (side == Sell ==> FilledQuantity(fills) <= position.quantity)
  {
    hide FilledQuantity, SignedQuantity;
    if Fold(cash, position, fills).Success? {
      FoldConserves(cash, position, fills);
      HonestFillsMove(position.symbol, side, fills);
    } else if side == Sell ==> FilledQuantity(fills) <= position.quantity {
      HonestFillsFold(cash, position, side, fills);
      assert false;
    }
  }

  /** For a venue that answers with fills of the order's own symbol and side, as both
      gateways do, a cycle is rolled back after the answer exactly when the answer
      sells more than is held. */
  lemma RolledBackExactlyWhen(bot: Bot, input: Input, tables: Tables)
    requires bot.Valid() && input.Valid(bot) && AnsweredBy(bot, input, tables).Some?
    requires var x := AnsweredBy(bot, input, tables).value;
             forall i :: 0 <= i < |x.fills| ==> x.fills[i].symbol == x.intent.symbol && x.fills[i].side == x.intent.side
    ensures input.feed.Observed? && AccountFor(bot, input, tables).Some?
    ensures var x := AnsweredBy(bot, input, tables).value;
            RunCycle(bot, input, tables).Aborted? <==>
              && x.intent.side == Sell
              && FilledQuantity(x.fills) > AccountFor(bot, input, tables).value.position.quantity
  {
    hide Verdict, Fold, SubmitTo, LoadAccountState, BuildCycleId, SignalFor, SignalRowOf, PositionRowOf, OrderRowOf,
         SnapshotRowOf, AlreadyExecuted, FilledQuantity;
    var account, x := AccountFor(bot, input, tables).value, AnsweredBy(bot, input, tables).value;
    IntentIsSound(bot.limits, RequestFor(bot, input, account));
    OwnFillsFoldExactlyWhen(account.cash, account.position, x.intent.side, x.fills);
  }

  // ---------- Position limit ----------

  predicate HonestOrders(orders: seq<OrderRow>) {
    forall i :: 0 <= i < |orders| ==> Honest(orders[i].symbol, orders[i].side, orders[i].quantity, orders[i].fills)
  }

  /** The mark at which the newest executed buy was decided. */
  function LastBuyMark(orders: seq<OrderRow>): Option<real> {
    if |orders| == 0 then None
    else
      var last := orders[|orders| - 1];
      if last.side == Buy && |last.fills| > 0 then Some(last.referencePrice)
      else LastBuyMark(orders[..|orders| - 1])
  }

  ghost predicate WithinLimit(book: Book, bot: Bot) {
    var held, bought := BookPosition(book, bot.symbol).quantity, LastBuyMark(book.orders);
    && (bought == None ==> held <= 0.0)
    && (bought.Some? ==> held * bought.value <= bot.limits.maxPosition && bought.value > 0.0)
  }

  lemma LastBuyAppended(orders: seq<OrderRow>, order: OrderRow)
    ensures LastBuyMark(orders + [order]) ==
            if order.side == Buy && |order.fills| > 0 then Some(order.referencePrice) else LastBuyMark(orders)
  {
    assert (orders + [order])[..|orders|] == orders;
  }

  lemma SmallerHolding(held: real, sold: real, mark: real, limit: real)
    requires sold >= 0.0 && mark > 0.0 && held * mark <= limit
    ensures (held - sold) * mark <= limit
  {
    ProductOfNonNegatives(sold, mark);
    assert (held - sold) * mark == held * mark - sold * mark;
  }

  lemma BoughtWithinLimit(limits: RiskLimits, req: Request, fills: seq<Fill>)
    requires limits.Valid() && req.Valid() && ValidFills(fills) && Verdict(limits, req).intent.Some?
    requires var intent := Verdict(limits, req).intent.value;
             intent.side == Buy && Honest(intent.symbol, intent.side, intent.quantity, fills)
    ensures (req.account.position.quantity + SignedQuantity(fills)) * req.markPrice <= limits.maxPosition
  {
    hide Verdict, OnGrid, FilledQuantity, SignedQuantity;
    IntentIsSound(limits, req);
    BuyIsLargestAllowed(limits, req);
    var intent := Verdict(limits, req).intent.value;
    HonestFillsMove(intent.symbol, Buy, fills);
    SmallerHolding(req.account.position.quantity + intent.quantity, intent.quantity - FilledQuantity(fills),
                   req.markPrice, limits.maxPosition);
  }

  lemma SoldWithinLimit(held: real, symbol: string, fills: seq<Fill>, mark: real, limit: real)
    requires ValidFills(fills) && mark > 0.0 && held * mark <= limit
    requires forall i :: 0 <= i < |fills| ==> fills[i].symbol == symbol && fills[i].side == Sell
    ensures (held + SignedQuantity(fills)) * mark <= limit
    ensures held + SignedQuantity(fills) <= held
  {
    HonestFillsMove(symbol, Sell, fills);
    SmallerHolding(held, FilledQuantity(fills), mark, limit);
  }

  lemma LimitStep(bot: Bot, input: Input, k: Book, k': Book, report: CycleReport, scale: real)
    requires bot.Valid() && input.Valid(bot) && Advances(bot, input, k, k', report)
    requires PriceScale(scale) && PreciseAnswer(bot, input, scale) && OnGrids(k, bot, scale)
    requires OnGrid(input.feed.snapshot.LastPrice(), scale)
    requires WithinLimit(k, bot) && HonestOrders(k'.orders)
    ensures WithinLimit(k', bot)
  {
    hide Verdict, Fold, SubmitTo, SignalFor, Stored, BuildCycleId, DayOpeningEquity, StoredFills, OnGrid, LastBuyMark,
         SignedQuantity, OnGrids, WithinLimit;
    if report.execution.Some? {
      var x, req := report.execution.value, RequestFor(bot, input, report.account);
      IntentIsSound(bot.limits, req);
      OrderSavedExactly(bot, input, k, k', report, scale);
      NewQuantity(bot, input, k, k', report, scale);
      assert Honest(k'.orders[|k.orders|].symbol, x.intent.side, x.intent.quantity, x.fills);
      if x.intent.side == Buy {
        BoughtWithinLimit(bot.limits, req, x.fills);
      }
      OrderKeepsLimit(bot, k, k', k'.orders[|k.orders|], req.markPrice);
    } else {
      NoOrderKeepsLimit(bot, k, k');
    }
  }

  lemma NoOrderKeepsLimit(bot: Bot, k: Book, k': Book)
    requires WithinLimit(k, bot) && k'.orders == k.orders && k'.position == k.position
    ensures WithinLimit(k', bot)
  {
  }

  lemma OrderKeepsLimit(bot: Bot, k: Book, k': Book, order: OrderRow, mark: real)
    requires WithinLimit(k, bot) && k'.orders == k.orders + [order] && ValidFills(order.fills)
    requires Honest(order.symbol, order.side, order.quantity, order.fills)
    requires order.referencePrice == mark && mark > 0.0
    requires BookPosition(k', bot.symbol).quantity == BookPosition(k, bot.symbol).quantity + SignedQuantity(order.fills)
    requires order.side == Buy ==> BookPosition(k', bot.symbol).quantity * mark <= bot.limits.maxPosition
    ensures WithinLimit(k', bot)
  {
    hide SignedQuantity, LastBuyMark, FilledQuantity;
    var held, bought := BookPosition(k, bot.symbol).quantity, LastBuyMark(k.orders);
    LastBuyAppended(k.orders, order);
    if |order.fills| == 0 {
      NothingFilled(order.fills);
    } else if order.side == Sell {
      if bought.Some? {
        SoldWithinLimit(held, order.symbol, order.fills, bought.value, bot.limits.maxPosition);
      } else {
        SoldWithinLimit(held, order.symbol, order.fills, 1.0, held);
      }
    }
  }

  /** The saved quantity is the loaded one moved by the fills. */
  lemma NewQuantity(bot: Bot, input: Input, k: Book, k': Book, report: CycleReport, scale: real)
    requires bot.Valid() && input.Valid(bot) && Advances(bot, input, k, k', report)
    requires PriceScale(scale) && PreciseAnswer(bot, input, scale) && OnGrids(k, bot, scale)
    requires report.execution.Some?
    ensures BookPosition(k', bot.symbol).quantity ==
            BookPosition(k, bot.symbol).quantity + SignedQuantity(report.execution.value.fills)
  {
    hide Verdict, Fold, SubmitTo, SignalFor, Stored, BuildCycleId, DayOpeningEquity, StoredFills, OnGrid, SignedQuantity,
         RequestFor;
    FoldConserves(report.account.cash, report.account.position, report.execution.value.fills);
    SettlementIsOnGrid(bot, input, k, k', report, scale);
    CoarserIsFiner(report.equity.positionQuantity, scale);
  }

  lemma NothingFilled(fills: seq<Fill>)
    requires |fills| == 0
    ensures SignedQuantity(fills) == 0.0
  {
  }

  lemma {:induction false} HonestRunStaysWithinLimit(events: seq<Event>, bot: Bot, scale: real)
    requires Serial(events) && TradedBy(events, bot) && PriceScale(scale) && PreciseRun(events, bot, scale)
    requires MarksOn(events, bot, scale) && HonestOrders(BookOf(Run(events), bot.symbol).orders)
    ensures WithinLimit(BookOf(Run(events), bot.symbol), bot)
  {
    hide Run, Advances, Stored, OnGrid, OnGrids, WithinLimit, Honest, Sound;
    if |events| == 0 {
      EmptyBook(bot.symbol);
      NothingHeld(bot);
    } else {
      var moved, report := LastStep(events, bot);
      var init, e := events[..|events| - 1], events[|events| - 1];
      var k, k' := BookOf(Run(init), bot.symbol), BookOf(Run(events), bot.symbol);
      if moved {
        OrdersGrow(bot, e.input, k, k', report);
        ObservedWhenMoved(bot, e.input, k, k', report);
        FewerAreHonest(k.orders, k'.orders);
      }
      HonestRunStaysWithinLimit(init, bot, scale);
      RunStaysOnGrids(init, bot, scale);
      if moved {
        LimitStep(bot, e.input, k, k', report, scale);
      }
    }
  }

  lemma FewerAreHonest(fewer: seq<OrderRow>, orders: seq<OrderRow>)
    requires fewer <= orders && HonestOrders(orders)
    ensures HonestOrders(fewer)
  {
    hide Honest;
    assert forall i :: 0 <= i < |fewer| ==> fewer[i] == orders[i];
  }

  lemma SimulatedRowIsHonest(bot: Bot, input: Input, cycleId: string, intent: OrderIntent)
    requires bot.Valid() && input.Valid(bot) && bot.backend.Simulated? && SubmitTo(bot, input, intent).Some?
    ensures var row := OrderRowOf(cycleId, SubmitTo(bot, input, intent).value);
            Honest(row.symbol, row.side, row.quantity, row.fills)
  {
    hide Stored;
    var fill := StoredFill(bot.backend.venue.FillOf(intent, input.venueClock));
    assert [fill][..0] == [];
    assert Total(OrderedQuantity, [fill]) == fill.quantity;
    assert OrderRowOf(cycleId, SubmitTo(bot, input, intent).value).fills == [fill];
  }

  /** Every order of a simulated run was filled with what was asked. */
  lemma {:induction false} SimulatedOrdersAreHonest(events: seq<Event>, bot: Bot)
    requires Serial(events) && TradedBy(events, bot) && bot.backend.Simulated?
    ensures HonestOrders(BookOf(Run(events), bot.symbol).orders)
  {
    hide Run, Advances, Stored, Honest, Sound;
    if |events| == 0 {
      EmptyBook(bot.symbol);
    } else {
      var moved, report := LastStep(events, bot);
      var init, e := events[..|events| - 1], events[|events| - 1];
      SimulatedOrdersAreHonest(init, bot);
      if moved {
        HonestStep(bot, e.input, BookOf(Run(init), bot.symbol), BookOf(Run(events), bot.symbol), report);
      }
    }
  }

  lemma HonestStep(bot: Bot, input: Input, k: Book, k': Book, report: CycleReport)
    requires bot.Valid() && input.Valid(bot) && Advances(bot, input, k, k', report)
    requires bot.backend.Simulated? && HonestOrders(k.orders)
    ensures HonestOrders(k'.orders)
  {
    hide Verdict, Fold, SubmitTo, SignalFor, Stored, BuildCycleId, DayOpeningEquity, OrderRowOf, Honest, Settles;
    if report.execution.Some? {
      SimulatedRowIsHonest(bot, input, report.cycleId, report.execution.value.intent);
    }
  }

  /** Held quantity times the mark of the newest executed buy never exceeds the
      position limit: of the simulated venue nothing is assumed, of a sandbox venue
      that it does not fill more than was asked, nor the other side. */
  lemma PositionStaysWithinLimit(events: seq<Event>, bot: Bot, scale: real)
    requires Serial(events) && TradedBy(events, bot) && PriceScale(scale) && PreciseRun(events, bot, scale)
    requires MarksOn(events, bot, scale)
    requires bot.backend.Sandbox? ==> HonestOrders(BookOf(Run(events), bot.symbol).orders)
    ensures WithinLimit(BookOf(Run(events), bot.symbol), bot)
  {
    hide Run, Honest, OnGrid;
    if bot.backend.Simulated? {
      SimulatedOrdersAreHonest(events, bot);
    }
    HonestRunStaysWithinLimit(events, bot, scale);
  }

  lemma OrdersGrow(bot: Bot, input: Input, k: Book, k': Book, report: CycleReport)
    requires bot.Valid() && input.Valid(bot) && Advances(bot, input, k, k', report)
    ensures k.orders <= k'.orders && k.snapshots <= k'.snapshots
  {
  }

  lemma NothingHeld(bot: Bot)
    ensures WithinLimit(Book([], [], None), bot)
  {
  }

  /** Hence held quantity times any bound below all marks ever bought at stays
      within the limit too, in particular times the lowest such mark. */
  lemma LowestBuyMarkStaysWithinLimit(events: seq<Event>, bot: Bot, scale: real, lowest: real)
    requires Serial(events) && TradedBy(events, bot) && PriceScale(scale) && PreciseRun(events, bot, scale)
    requires MarksOn(events, bot, scale)
    requires bot.backend.Sandbox? ==> HonestOrders(BookOf(Run(events), bot.symbol).orders)
    requires var orders := BookOf(Run(events), bot.symbol).orders;
             forall i :: 0 <= i < |orders| && orders[i].side == Buy && |orders[i].fills| > 0 ==> lowest <= orders[i].referencePrice
    requires bot.limits.maxPosition >= 0.0
    ensures BookPosition(BookOf(Run(events), bot.symbol), bot.symbol).quantity * lowest <= bot.limits.maxPosition
  {
    hide Run, WithinLimit, Stored, OnGrid, Honest;
    var book := BookOf(Run(events), bot.symbol);
    PositionStaysWithinLimit(events, bot, scale);
    RunIsSound(events, bot);
    HeldTimesLower(book, bot, lowest);
  }

  lemma HeldTimesLower(book: Book, bot: Bot, lowest: real)
    requires WithinLimit(book, bot) && BookPosition(book, bot.symbol).quantity >= 0.0 && bot.limits.maxPosition >= 0.0
    requires forall i :: 0 <= i < |book.orders| && book.orders[i].side == Buy && |book.orders[i].fills| > 0 ==>
               lowest <= book.orders[i].referencePrice
    ensures BookPosition(book, bot.symbol).quantity * lowest <= bot.limits.maxPosition
  {
    var held, bought := BookPosition(book, bot.symbol).quantity, LastBuyMark(book.orders);
    if bought.Some? {
      LastBuyIsAnOrder(book.orders);
      ProductOfNonNegatives(held, bought.value - lowest);
      assert held * (bought.value - lowest) == held * bought.value - held * lowest;
    }
  }

  lemma {:induction false} LastBuyIsAnOrder(orders: seq<OrderRow>)
    requires LastBuyMark(orders).Some?
    ensures exists i :: 0 <= i < |orders| && orders[i].side == Buy && |orders[i].fills| > 0
                     && orders[i].referencePrice == LastBuyMark(orders).value
  {
    var n := |orders| - 1;
    if !(orders[n].side == Buy && |orders[n].fills| > 0) {
      LastBuyIsAnOrder(orders[..n]);
      var i :| 0 <= i < n && orders[..n][i].side == Buy && |orders[..n][i].fills| > 0
            && orders[..n][i].referencePrice == LastBuyMark(orders[..n]).value;
      assert orders[i] == orders[..n][i];
    }
  }
}
