/** Cash and position are caches of the committed fills: cash is carried by the
    newest snapshot, the position by its own row, and neither drifts. */
module Caches {
  import opened Results
  import opened Decimals
  import opened Orders
  import opened Portfolio
  import opened Ledger
  import opened Policy
  import opened Simulator
  import opened Repository
  import opened CycleIds
  import opened Cycle
  import opened Runs

  /** Prices in cents, or in eight decimals. */
  predicate PriceScale(scale: real) {
    scale == CENT || scale == LOT
  }

  predicate PreciseFill(fill: Fill, scale: real) {
    OnGrid(fill.quantity, LOT) && OnGrid(fill.price, scale) && OnGrid(fill.fee, scale)
  }

  predicate PreciseFills(fills: seq<Fill>, scale: real) {
    forall i :: 0 <= i < |fills| ==> PreciseFill(fills[i], scale)
  }

  /** A sandbox venue reports quantities in eight decimals and prices and fees on
      the given scale; nothing is asked of the simulated venue. */
  predicate PreciseAnswer(bot: Bot, input: Input, scale: real) {
    bot.backend.Sandbox? && input.answer.Answered? ==> PreciseFills(input.answer.fills, scale)
  }

  predicate PreciseRun(events: seq<Event>, bot: Bot, scale: real) {
    && OnGrid(bot.initialCash, LOT * scale)
    && (forall i :: 0 <= i < |events| && events[i].bot == bot ==> PreciseAnswer(bot, events[i].input, scale))
  }

  lemma CoarserIsFiner(x: real, scale: real)
    requires PriceScale(scale)
    ensures OnGrid(x, CENT) ==> OnGrid(x, scale)
    ensures OnGrid(x, scale) ==> OnGrid(x, LOT * scale)
    ensures OnGrid(x, LOT) ==> OnGrid(x, LOT * scale)
    ensures OnGrid(x, LOT * scale) ==> Stored(x) == x
  {
    if OnGrid(x, CENT) {
      GridRefines(x, CENT, 1_000_000);
    }
    if OnGrid(x, scale) {
      GridRefines(x, scale, 100_000_000);
    }
    if OnGrid(x, LOT) {
      GridRefines(x, LOT, scale.Floor);
    }
    if OnGrid(x, LOT * scale) {
      GridRefines(x, LOT * scale, if scale == CENT then 100_000_000 else 100);
      StoredOnce(x);
    }
  }

  lemma PreciseIsStored(fills: seq<Fill>, scale: real)
    requires PriceScale(scale) && PreciseFills(fills, scale)
    ensures StoredFills(fills) == fills
  {
    forall i | 0 <= i < |fills|
      ensures StoredFill(fills[i]) == fills[i]
    {
      assert PreciseFill(fills[i], scale);
      CoarserIsFiner(fills[i].quantity, scale);
      CoarserIsFiner(fills[i].price, scale);
      CoarserIsFiner(fills[i].fee, scale);
    }
  }

  lemma IntentIsSound(limits: RiskLimits, req: Request)
    requires limits.Valid() && req.Valid() && Verdict(limits, req).intent.Some?
    ensures var intent := Verdict(limits, req).intent.value;
            && Verdict(limits, req).outcome == Submit
            && intent.Valid() && OnGrid(intent.quantity, LOT)
            && intent.symbol == req.signal.symbol && intent.referencePrice == req.markPrice
            && req.signal.action == (if intent.side == Buy then GoLong else GoFlat)
            && (intent.side == Sell ==> intent.quantity <= req.account.position.quantity)
            && intent.clientOrderId == ClientOrderId(req.cycleId, intent.side)
            && intent.createdAt == req.now
  {
    RulingIsPrefix(Gauntlet(limits, req), Wanted(limits, req));
    SubmittedMeansPassed(limits, req);
    if req.signal.action == GoLong {
      BuyIsLargestAllowed(limits, req);
    } else {
      SellIsWithinHolding(limits, req);
    }
  }

  lemma AnswerIsPrecise(bot: Bot, input: Input, intent: OrderIntent, scale: real)
    requires bot.Valid() && input.Valid(bot) && PriceScale(scale) && PreciseAnswer(bot, input, scale)
    requires intent.Valid() && OnGrid(intent.quantity, LOT)
    ensures SubmitTo(bot, input, intent).Some? ==> PreciseFills(SubmitTo(bot, input, intent).value.fills, scale)
  {
    if bot.backend.Simulated? {
      bot.backend.venue.FillIsOnGrid(intent, input.venueClock);
      var fill := bot.backend.venue.FillOf(intent, input.venueClock);
      CoarserIsFiner(fill.price, scale);
      CoarserIsFiner(fill.fee, scale);
    }
  }

  lemma FillMovesOnGrid(cash: real, quantity: real, fill: Fill, scale: real)
    requires PriceScale(scale) && PreciseFill(fill, scale)
    requires OnGrid(cash, LOT * scale) && OnGrid(quantity, LOT)
    ensures OnGrid(cash + fill.CashFlow(), LOT * scale)
    ensures OnGrid(quantity + fill.SignedQuantity(), LOT)
  {
    hide OnGrid;
    GridProduct(fill.quantity, LOT, fill.price, scale, fill.Notional());
    CoarserIsFiner(fill.fee, scale);
    GridSum(fill.Notional(), fill.fee, LOT * scale);
    GridSum(cash, fill.Notional() + fill.fee, LOT * scale);
    GridSum(cash, fill.Notional() - fill.fee, LOT * scale);
    GridSum(quantity, fill.quantity, LOT);
  }

  lemma {:induction false} FoldStaysOnGrid(cash: real, position: Position, fills: seq<Fill>, scale: real)
    requires position.Valid() && ValidFills(fills) && PriceScale(scale) && PreciseFills(fills, scale)
    requires OnGrid(cash, LOT * scale) && OnGrid(position.quantity, LOT)
    requires Fold(cash, position, fills).Success?
    ensures OnGrid(Fold(cash, position, fills).value.cash, LOT * scale)
    ensures OnGrid(Fold(cash, position, fills).value.position.quantity, LOT)
  {
    hide OnGrid;
    if |fills| > 0 {
      var init, last := fills[..|fills| - 1], fills[|fills| - 1];
      FoldStaysOnGrid(cash, position, init, scale);
      var before := Fold(cash, position, init).value;
      assert PreciseFill(last, scale);
      FillMovesOnGrid(before.cash, before.position.quantity, last, scale);
    }
  }

  /** Quantities are multiples of 1e-8, and cash of the product of the two units. */
  ghost predicate OnGrids(book: Book, bot: Bot, scale: real) {
    && OnGrid(BookPosition(book, bot.symbol).quantity, LOT)
    && OnGrid(BookCash(book, bot.initialCash), LOT * scale)
  }

  /** What a completed cycle saved is what it had computed: the columns lose nothing
      of cash and quantity, and nothing of a mark and an equity on the grid. */
  ghost predicate SavedExactly(input: Input, k': Book, report: CycleReport, scale: real)
    requires input.feed.Observed? && |input.feed.snapshot.candles| > 0
  {
    && |k'.snapshots| > 0
    && var row, equity, mark := k'.snapshots[|k'.snapshots| - 1], report.equity, input.feed.snapshot.LastPrice();
       && row.cash == equity.cash
       && row.positionQuantity == equity.positionQuantity
       && (OnGrid(mark, scale) ==> row.markPrice == mark && row.equity == equity.equity && OnGrid(row.equity, LOT * scale))
       && row.takenAt == input.now
       && (report.execution.Some? && OnGrid(mark, scale) ==>
             && |k'.orders| > 0
             && var order, x := k'.orders[|k'.orders| - 1], report.execution.value;
                && order.fills == x.fills && order.referencePrice == mark
                && order.quantity == x.intent.quantity && order.side == x.intent.side)
  }

  lemma SettlementIsOnGrid(bot: Bot, input: Input, k: Book, k': Book, report: CycleReport, scale: real)
    requires bot.Valid() && input.Valid(bot) && Advances(bot, input, k, k', report)
    requires PriceScale(scale) && PreciseAnswer(bot, input, scale) && OnGrids(k, bot, scale)
    ensures OnGrid(report.equity.cash, LOT * scale) && OnGrid(report.equity.positionQuantity, LOT)
    ensures OnGrid(input.feed.snapshot.LastPrice(), scale) ==> OnGrid(report.equity.equity, LOT * scale)
    ensures report.execution.Some? ==> PreciseFills(report.execution.value.fills, scale)
  {
    hide Verdict, Fold, SubmitTo, SignalFor, Stored, BuildCycleId, DayOpeningEquity, StoredFills, OnGrid, Settles;
    match report.execution {
      case None =>
        EquityIsOnGrid(bot, input, report, report.account.cash, report.account.position, scale);
      case Some(x) =>
        IntentIsSound(bot.limits, RequestFor(bot, input, report.account));
        AnswerIsPrecise(bot, input, x.intent, scale);
        FoldStaysOnGrid(report.account.cash, report.account.position, x.fills, scale);
        var u := Fold(report.account.cash, report.account.position, x.fills).value;
        EquityIsOnGrid(bot, input, report, u.cash, u.position, scale);
    }
  }

  lemma EquityIsOnGrid(bot: Bot, input: Input, report: CycleReport, cash: real, position: Position, scale: real)
    requires bot.Valid() && input.Valid(bot) && input.feed.Observed? && PriceScale(scale)
    requires Settles(bot, input, report, cash, position)
    requires OnGrid(cash, LOT * scale) && OnGrid(position.quantity, LOT)
    ensures report.equity.cash == cash && report.equity.positionQuantity == position.quantity
    ensures OnGrid(input.feed.snapshot.LastPrice(), scale) ==> OnGrid(report.equity.equity, LOT * scale)
  {
    hide OnGrid;
    var mark := input.feed.snapshot.LastPrice();
    if OnGrid(mark, scale) {
      GridProduct(position.quantity, LOT, mark, scale, position.NotionalAt(mark));
      GridSum(cash, position.NotionalAt(mark), LOT * scale);
    }
  }

  lemma OrderSavedExactly(bot: Bot, input: Input, k: Book, k': Book, report: CycleReport, scale: real)
    requires bot.Valid() && input.Valid(bot) && Advances(bot, input, k, k', report)
    requires PriceScale(scale) && PreciseAnswer(bot, input, scale) && OnGrids(k, bot, scale)
    requires report.execution.Some?
    ensures |k'.orders| > 0
    ensures var order, x, mark := k'.orders[|k'.orders| - 1], report.execution.value, input.feed.snapshot.LastPrice();
            && order.fills == x.fills && order.quantity == x.intent.quantity && order.side == x.intent.side
            && (OnGrid(mark, scale) ==> order.referencePrice == mark)
  {
    hide Verdict, Fold, SubmitTo, SignalFor, Stored, BuildCycleId, DayOpeningEquity, StoredFills, OnGrid;
    var x := report.execution.value;
    SettlementIsOnGrid(bot, input, k, k', report, scale);
    IntentIsSound(bot.limits, RequestFor(bot, input, report.account));
    PreciseIsStored(x.fills, scale);
    CoarserIsFiner(x.intent.quantity, scale);
    CoarserIsFiner(x.intent.referencePrice, scale);
  }

  lemma GridStep(bot: Bot, input: Input, k: Book, k': Book, report: CycleReport, scale: real)
    requires bot.Valid() && input.Valid(bot) && Advances(bot, input, k, k', report)
    requires PriceScale(scale) && PreciseAnswer(bot, input, scale) && OnGrids(k, bot, scale)
    ensures OnGrids(k', bot, scale)
    ensures SavedExactly(input, k', report, scale)
    ensures report.execution.Some? ==> PreciseFills(report.execution.value.fills, scale)
  {
    hide Verdict, Fold, SubmitTo, SignalFor, Stored, BuildCycleId, DayOpeningEquity, StoredFills, OnGrid, RequestFor;
    var equity, mark := report.equity, input.feed.snapshot.LastPrice();
    SettlementIsOnGrid(bot, input, k, k', report, scale);
    if report.execution.Some? {
      OrderSavedExactly(bot, input, k, k', report, scale);
    }
    CoarserIsFiner(equity.cash, scale);
    CoarserIsFiner(equity.positionQuantity, scale);
    CoarserIsFiner(mark, scale);
    CoarserIsFiner(equity.equity, scale);
  }

  /** In every run with simulated fills (and in every sandbox run whose venue
      reports that precisely), quantities stay multiples of 1e-8 and cash a multiple
      of 1e-10 (1e-16), so what is stored is what was computed. */
  lemma {:induction false} RunStaysOnGrids(events: seq<Event>, bot: Bot, scale: real)
    requires Serial(events) && TradedBy(events, bot) && PriceScale(scale) && PreciseRun(events, bot, scale)
    ensures OnGrids(BookOf(Run(events), bot.symbol), bot, scale)
  {
    hide Run, Advances, Stored;
    if |events| == 0 {
      EmptyBook(bot.symbol);
      GridFrom(0.0, LOT, 0);
    } else {
      var moved, report := LastStep(events, bot);
      var init, e := events[..|events| - 1], events[|events| - 1];
      RunStaysOnGrids(init, bot, scale);
      if moved {
        GridStep(bot, e.input, BookOf(Run(init), bot.symbol), BookOf(Run(events), bot.symbol), report, scale);
      }
    }
  }

  lemma EmptyBook(symbol: string)
    ensures BookOf(Run([]), symbol) == Book([], [], None)
  {
  }

  /** All committed fills, in order. */
  function CommittedFills(orders: seq<OrderRow>): seq<Fill> {
    if |orders| == 0 then [] else CommittedFills(orders[..|orders| - 1]) + orders[|orders| - 1].fills
  }

  /** The two caches against the fills: cash and quantity equal their fold exactly;
      the average price, which is a quotient and is rounded whenever it is saved,
      is at most half a unit of the 18th decimal away for every order saved. */
  ghost predicate CachesHold(book: Book, bot: Bot) {
    var fills := CommittedFills(book.orders);
    && ValidFills(fills)
    && match Fold(bot.initialCash, Flat(bot.symbol), fills)
       case Failure(_) => false
       case Success(u) =>
         && BookCash(book, bot.initialCash) == u.cash
         && BookPosition(book, bot.symbol).quantity == u.position.quantity
         && Abs(BookPosition(book, bot.symbol).averagePrice - u.position.averagePrice) * COLUMN <= 0.5 * |book.orders| as real
  }

  /** Two holdings of the same size never grow further apart in average price. */
  lemma {:induction false} AverageDoesNotDiverge(c: real, d: real, p: Position, p': Position, fills: seq<Fill>)
    requires p.Valid() && p'.Valid() && p.symbol == p'.symbol && p.quantity == p'.quantity && ValidFills(fills)
    requires Fold(c, p, fills).Success?
    ensures Fold(d, p', fills).Success?
    ensures var q, q' := Fold(c, p, fills).value.position, Fold(d, p', fills).value.position;
            && q.quantity == q'.quantity
            && Abs(q.averagePrice - q'.averagePrice) <= Abs(p.averagePrice - p'.averagePrice)
  {
    if |fills| > 0 {
      var init, last := fills[..|fills| - 1], fills[|fills| - 1];
      AverageDoesNotDiverge(c, d, p, p', init);
      OneFillDoesNotDiverge(Fold(c, p, init).value.position, Fold(d, p', init).value.position, last);
    }
  }

  lemma OneFillDoesNotDiverge(p: Position, p': Position, fill: Fill)
    requires p.Valid() && p'.Valid() && p.symbol == p'.symbol && p.quantity == p'.quantity && fill.Valid()
    requires p.Apply(fill).Success?
    ensures p'.Apply(fill).Success?
    ensures var q, q' := p.Apply(fill).value, p'.Apply(fill).value;
            q.quantity == q'.quantity && Abs(q.averagePrice - q'.averagePrice) <= Abs(p.averagePrice - p'.averagePrice)
  {
    if fill.side == Buy {
      HoldingAtCost(p, fill);
      HoldingAtCost(p', fill);
      Dilution(p.quantity, fill.quantity, p.averagePrice, p'.averagePrice,
               p.Apply(fill).value.averagePrice, p'.Apply(fill).value.averagePrice);
    }
  }

  lemma Dilution(q: real, r: real, a: real, b: real, a': real, b': real)
    requires q >= 0.0 && r > 0.0
    requires (q + r) * a' - q * a == (q + r) * b' - q * b
    ensures Abs(a' - b') <= Abs(a - b)
  {
    var d, d' := a - b, a' - b';
    assert (q + r) * d' == q * d;
    if d >= 0.0 {
      DilutionOfOne(q, r, d, d');
    } else {
      assert (q + r) * (-d') == q * (-d);
      DilutionOfOne(q, r, -d, -d');
    }
  }

  lemma DilutionOfOne(q: real, r: real, d: real, d': real)
    requires q >= 0.0 && r > 0.0 && d >= 0.0 && (q + r) * d' == q * d
    ensures 0.0 <= d' <= d
  {
    ProductOfNonNegatives(q, d);
    ProductOfNonNegatives(r, d);
    assert (q + r) * d == q * d + r * d;
    ScaleOrder(d', d, q + r);
    ScaleOrder(0.0, d', q + r);
  }

  lemma OrderCommits(bot: Bot, input: Input, k: Book, k': Book, report: CycleReport)
    requires bot.Valid() && input.Valid(bot) && Advances(bot, input, k, k', report) && report.execution.Some?
    ensures |k'.orders| == |k.orders| + 1
    ensures CommittedFills(k'.orders) == CommittedFills(k.orders) + StoredFills(report.execution.value.fills)
  {
    hide Verdict, Fold, SubmitTo, SignalFor, Stored, BuildCycleId, DayOpeningEquity, StoredFills, Settles;
    assert k'.orders[..|k.orders|] == k.orders;
  }

  lemma NoOrderKeepsCaches(bot: Bot, k: Book, k': Book)
    requires CachesHold(k, bot) && k'.orders == k.orders && k'.position == k.position
    requires BookCash(k', bot.initialCash) == BookCash(k, bot.initialCash)
    ensures CachesHold(k', bot)
  {
    hide Fold, CommittedFills, ValidFills;
  }

  /** An executed order carries the law over: the same fills are appended to the
      committed ones and folded into the cached account. */
  lemma CachesStep(bot: Bot, input: Input, k: Book, k': Book, report: CycleReport, scale: real)
    requires bot.Valid() && input.Valid(bot) && Advances(bot, input, k, k', report)
    requires PriceScale(scale) && PreciseAnswer(bot, input, scale) && OnGrids(k, bot, scale)
    requires CachesHold(k, bot)
    ensures CachesHold(k', bot)
  {
    hide Verdict, Fold, SubmitTo, SignalFor, Stored, BuildCycleId, DayOpeningEquity, OnGrid, OnGrids, CachesHold,
         PreciseFills, StoredFills, CommittedFills;
    GridStep(bot, input, k, k', report, scale);
    if report.execution.Some? {
      var x := report.execution.value;
      PreciseIsStored(x.fills, scale);
      OrderCommits(bot, input, k, k', report);
      ExecutionJoinsFold(bot, k, x.fills, report.account);
      var u := Fold(report.account.cash, report.account.position, x.fills).value;
      assert BookPosition(k', bot.symbol).averagePrice == Stored(u.position.averagePrice);
      SavedAccountHolds(bot, k, k', x.fills, u);
    } else {
      NoOrderKeepsCaches(bot, k, k');
    }
  }

  lemma SavedAccountHolds(bot: Bot, k: Book, k': Book, fills: seq<Fill>, u: LedgerUpdate)
    requires |k'.orders| == |k.orders| + 1 && CommittedFills(k'.orders) == CommittedFills(k.orders) + fills
    requires ValidFills(CommittedFills(k'.orders))
    requires Fold(bot.initialCash, Flat(bot.symbol), CommittedFills(k'.orders)).Success?
    requires var v := Fold(bot.initialCash, Flat(bot.symbol), CommittedFills(k'.orders)).value;
             && u.cash == v.cash && u.position.quantity == v.position.quantity
             && Abs(u.position.averagePrice - v.position.averagePrice) * COLUMN <= 0.5 * |k.orders| as real
    requires BookCash(k', bot.initialCash) == u.cash
    requires BookPosition(k', bot.symbol).quantity == u.position.quantity
    requires BookPosition(k', bot.symbol).averagePrice == Stored(u.position.averagePrice)
    ensures CachesHold(k', bot)
  {
    hide Fold, CommittedFills, ValidFills, Stored;
    StoredOnce(u.position.averagePrice);
  }

  lemma ExecutionJoinsFold(bot: Bot, k: Book, fills: seq<Fill>, account: AccountState)
    requires CachesHold(k, bot) && ValidFills(fills)
    requires account.cash == BookCash(k, bot.initialCash) && account.position == BookPosition(k, bot.symbol)
    requires account.position.Valid() && Fold(account.cash, account.position, fills).Success?
    ensures ValidFills(CommittedFills(k.orders) + fills)
    ensures Fold(bot.initialCash, Flat(bot.symbol), CommittedFills(k.orders) + fills).Success?
    ensures var u := Fold(account.cash, account.position, fills).value;
            var v := Fold(bot.initialCash, Flat(bot.symbol), CommittedFills(k.orders) + fills).value;
            && u.cash == v.cash && u.position.quantity == v.position.quantity
            && Abs(u.position.averagePrice - v.position.averagePrice) * COLUMN <= 0.5 * |k.orders| as real
  {
    hide Fold, CommittedFills, ValidFills;
    var before := CommittedFills(k.orders);
    var w := Fold(bot.initialCash, Flat(bot.symbol), before).value;
    AverageDoesNotDiverge(account.cash, w.cash, account.position, w.position, fills);
    FoldJoins(bot.initialCash, Flat(bot.symbol), before, fills);
    SameCash(account.cash, account.position, w.position, fills);
  }

  lemma SameCash(cash: real, p: Position, p': Position, fills: seq<Fill>)
    requires p.Valid() && p'.Valid() && ValidFills(fills)
    requires Fold(cash, p, fills).Success? && Fold(cash, p', fills).Success?
    ensures Fold(cash, p, fills).value.cash == Fold(cash, p', fills).value.cash
  {
    FoldConserves(cash, p, fills);
    FoldConserves(cash, p', fills);
  }

  /** In every serial run, what the next cycle loads as cash and position is the
      fold of all committed fills of its symbol, from the initial cash and a flat
      position, whatever the cycles for other symbols did in between. */
  lemma {:induction false} CachesNeverDrift(events: seq<Event>, bot: Bot, scale: real)
    requires Serial(events) && TradedBy(events, bot) && PriceScale(scale) && PreciseRun(events, bot, scale)
    ensures CachesHold(BookOf(Run(events), bot.symbol), bot)
  {
    hide Run, Advances, Stored, OnGrid, OnGrids;
    if |events| == 0 {
      EmptyBook(bot.symbol);
    } else {
      var moved, report := LastStep(events, bot);
      var init, e := events[..|events| - 1], events[|events| - 1];
      CachesNeverDrift(init, bot, scale);
      RunStaysOnGrids(init, bot, scale);
      if moved {
        CachesStep(bot, e.input, BookOf(Run(init), bot.symbol), BookOf(Run(events), bot.symbol), report, scale);
      }
    }
  }

  /** The law says what the repository hands to the next cycle. */
  lemma LoadedAccountIsTheFold(events: seq<Event>, bot: Bot, scale: real, input: Input)
    requires Serial(events) && TradedBy(events, bot) && PriceScale(scale) && PreciseRun(events, bot, scale)
    requires bot.Valid() && input.Valid(bot) && input.feed.Observed?
    ensures AccountFor(bot, input, Run(events)).Some? ==>
              var account, orders := AccountFor(bot, input, Run(events)).value, OrdersFor(Run(events).orders, bot.symbol);
              && ValidFills(CommittedFills(orders))
              && Fold(bot.initialCash, Flat(bot.symbol), CommittedFills(orders)).Success?
              && var u := Fold(bot.initialCash, Flat(bot.symbol), CommittedFills(orders)).value;
                 && account.cash == u.cash
                 && account.position.symbol == u.position.symbol
                 && account.position.quantity == u.position.quantity
                 && Abs(account.position.averagePrice - u.position.averagePrice) * COLUMN <= 0.5 * |orders| as real
  {
    hide Run, Fold, AccountFor;
    CachesNeverDrift(events, bot, scale);
    RunIsSound(events, bot);
    AccountFromBook(bot, input, Run(events));
  }

  // ---------- When the columns lose something ----------

  /** The committed fills of a book fold to `u`. */
  ghost predicate FoldsTo(book: Book, bot: Bot, u: LedgerUpdate) {
    var fills := CommittedFills(book.orders);
    ValidFills(fills) && Fold(bot.initialCash, Flat(bot.symbol), fills) == Success(u)
  }

  ghost predicate CashIsTheFold(book: Book, bot: Bot) {
    var fills := CommittedFills(book.orders);
    && ValidFills(fills) && Fold(bot.initialCash, Flat(bot.symbol), fills).Success?
    && BookCash(book, bot.initialCash) == Fold(bot.initialCash, Flat(bot.symbol), fills).value.cash
  }

  ghost predicate AverageIsTheFold(book: Book, bot: Bot) {
    var fills := CommittedFills(book.orders);
    && ValidFills(fills) && Fold(bot.initialCash, Flat(bot.symbol), fills).Success?
    && BookPosition(book, bot.symbol).averagePrice ==
       Fold(bot.initialCash, Flat(bot.symbol), fills).value.position.averagePrice
  }

  /** Fills can be folded into a cached account. */
  predicate Foldable(account: AccountState, fills: seq<Fill>)
    requires account.position.Valid()
  {
    ValidFills(fills) && Fold(account.cash, account.position, fills).Success?
  }

  lemma ValidFillsJoin(first: seq<Fill>, second: seq<Fill>)
    requires ValidFills(first)
    ensures ValidFills(first + second) <==> ValidFills(second)
  {
    if ValidFills(first + second) {
      assert forall i :: 0 <= i < |second| ==> second[i] == (first + second)[|first| + i];
    }
  }

  /** Folding further fills into a cached account of the right quantity, against
      folding everything from the start. */
  lemma FoldedFurther(bot: Bot, k: Book, u: LedgerUpdate, account: AccountState, fills: seq<Fill>)
    requires FoldsTo(k, bot, u) && account.position.Valid()
    requires account.position.symbol == bot.symbol && account.position.quantity == u.position.quantity
    ensures var all := CommittedFills(k.orders) + fills;
            ValidFills(all) && Fold(bot.initialCash, Flat(bot.symbol), all).Success? <==> Foldable(account, fills)
    ensures Foldable(account, fills) ==>
              var v := Fold(bot.initialCash, Flat(bot.symbol), CommittedFills(k.orders) + fills).value;
              && v.cash == u.cash + CashFlows(fills)
              && (account.position == u.position ==>
                    v.position == Fold(account.cash, account.position, fills).value.position)
  {
    hide Fold, CommittedFills, ValidFills, CashFlows;
    var before := CommittedFills(k.orders);
    ValidFillsJoin(before, fills);
    if ValidFills(fills) {
      FoldJoins(bot.initialCash, Flat(bot.symbol), before, fills);
      if Fold(account.cash, account.position, fills).Success? {
        AverageDoesNotDiverge(account.cash, u.cash, account.position, u.position, fills);
        FoldConserves(u.cash, u.position, fills);
        PositionIgnoresCash(account.cash, u.cash, account.position, fills);
      } else if Fold(u.cash, u.position, fills).Success? {
        AverageDoesNotDiverge(u.cash, account.cash, u.position, account.position, fills);
      }
    }
  }

  /** For any venue: an executed order leaves the cached cash equal to the fold of the
      committed fills exactly when its recorded fills can be applied and the sum of
      their cash flows is what the column makes of the cash that moved. */
  lemma CashKeptExactlyWhen(bot: Bot, input: Input, k: Book, k': Book, report: CycleReport, u: LedgerUpdate)
    requires bot.Valid() && input.Valid(bot) && Advances(bot, input, k, k', report) && report.execution.Some?
    requires FoldsTo(k, bot, u)
    requires BookCash(k, bot.initialCash) == u.cash && BookPosition(k, bot.symbol).quantity == u.position.quantity
    ensures var x := report.execution.value;
            CashIsTheFold(k', bot) <==>
              && Foldable(report.account, StoredFills(x.fills))
              && RoundsTo(u.cash + CashFlows(x.fills), u.cash + CashFlows(StoredFills(x.fills)), COLUMN)
    ensures var x := report.execution.value;
            StoredFills(x.fills) == x.fills && OnGrid(u.cash, COLUMN) ==>
              (CashIsTheFold(k', bot) <==> OnGrid(CashFlows(x.fills), COLUMN))
  {
    hide Verdict, Fold, SubmitTo, SignalFor, Stored, BuildCycleId, DayOpeningEquity, CashFlows, RoundsTo,
         StoredFills, CommittedFills, ValidFills, OnGrid;
    var x, recorded := report.execution.value, StoredFills(report.execution.value.fills);
    OrderCommits(bot, input, k, k', report);
    FoldedFurther(bot, k, u, report.account, recorded);
    FoldConserves(report.account.cash, report.account.position, x.fills);
    assert BookCash(k', bot.initialCash) == Stored(u.cash + CashFlows(x.fills));
    StoredExactlyWhen(u.cash + CashFlows(x.fills), u.cash + CashFlows(recorded));
    if recorded == x.fills && OnGrid(u.cash, COLUMN) {
      GridShift(u.cash, CashFlows(x.fills));
      RoundsToItself(u.cash + CashFlows(x.fills));
    }
  }

  /** The same for the average price, which is a quotient: an executed order leaves it
      equal to the fold exactly when the recorded fills average to what the column
      makes of the new average; with fills that their rows hold exactly, when the new
      average has no more than eighteen decimals. */
  lemma AverageKeptExactlyWhen(bot: Bot, input: Input, k: Book, k': Book, report: CycleReport, u: LedgerUpdate)
    requires bot.Valid() && input.Valid(bot) && Advances(bot, input, k, k', report) && report.execution.Some?
    requires FoldsTo(k, bot, u) && BookPosition(k, bot.symbol) == u.position
    ensures var x, account := report.execution.value, report.account;
            AverageIsTheFold(k', bot) <==>
              && Foldable(account, StoredFills(x.fills))
              && RoundsTo(Fold(account.cash, account.position, x.fills).value.position.averagePrice,
                          Fold(account.cash, account.position, StoredFills(x.fills)).value.position.averagePrice, COLUMN)
    ensures var x, account := report.execution.value, report.account;
            StoredFills(x.fills) == x.fills ==>
              (AverageIsTheFold(k', bot) <==>
               OnGrid(Fold(account.cash, account.position, x.fills).value.position.averagePrice, COLUMN))
  {
    hide Verdict, Fold, SubmitTo, SignalFor, Stored, BuildCycleId, DayOpeningEquity, RoundsTo, StoredFills, CommittedFills,
         ValidFills, OnGrid;
    var x, account := report.execution.value, report.account;
    var recorded := StoredFills(x.fills);
    OrderCommits(bot, input, k, k', report);
    FoldedFurther(bot, k, u, account, recorded);
    var average := Fold(account.cash, account.position, x.fills).value.position.averagePrice;
    assert BookPosition(k', bot.symbol).averagePrice == Stored(average);
    if Foldable(account, recorded) {
      StoredExactlyWhen(average, Fold(account.cash, account.position, recorded).value.position.averagePrice);
    }
    RoundsToItself(average);
  }

  lemma StoredExactlyWhen(x: real, y: real)
    ensures Stored(x) == y <==> RoundsTo(x, y, COLUMN)
  {
    RoundHalfUpExactlyWhen(x, y, COLUMN);
  }

  lemma RoundsToItself(x: real)
    ensures RoundsTo(x, x, COLUMN) <==> OnGrid(x, COLUMN)
  {
  }

  lemma GridShift(x: real, y: real)
    requires OnGrid(x, COLUMN)
    ensures OnGrid(x + y, COLUMN) <==> OnGrid(y, COLUMN)
  {
    hide OnGrid;
    if OnGrid(y, COLUMN) {
      GridSum(x, y, COLUMN);
    }
    if OnGrid(x + y, COLUMN) {
      GridSum(x + y, x, COLUMN);
    }
  }
}
