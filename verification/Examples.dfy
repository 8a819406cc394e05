/** Concrete runs that show where the promises of the design end. Every one is made of
    cycles in which the fast average has just crossed the slow one from below. */
module Examples {
  import opened Results
  import opened Decimals
  import opened Timeframes
  import opened Market
  import opened Orders
  import opened Portfolio
  import opened Ledger
  import opened Policy
  import opened SmaCrossover
  import opened Repository
  import opened CycleIds
  import opened Cycle
  import opened Runs
  import opened Caches
  import opened Bars
  import opened Isolation
  import opened Recovery

  const LIMITS := RiskLimits(130.0, 100.0, 1.0)
  const STRATEGY := SmaConfig(2, 3, 0.01)

  function BotFor(symbol: string): (r: Bot)
    ensures r.Valid()
  {
    Bot(symbol, "1h", 1000.0, LIMITS, STRATEGY, Sandbox)
  }

  function FlatBar(symbol: string, hour: int, price: real): Candle {
    Candle(symbol, hour * HOUR, price, price, price, price, 1.0)
  }

  /** Three bars at 1, then one at 2. */
  function Rise(symbol: string, hour: int): (r: MarketSnapshot)
    ensures r.Valid() && r.symbol == symbol && r.LastPrice() == 2.0 && r.AsOf() == (hour + 3) * HOUR
  {
    MarketSnapshot(symbol, "1h", [FlatBar(symbol, hour, 1.0), FlatBar(symbol, hour + 1, 1.0),
                                  FlatBar(symbol, hour + 2, 1.0), FlatBar(symbol, hour + 3, 2.0)])
  }

  function Bought(symbol: string, hour: int, quantity: real, price: real): Fill {
    Fill("venue", symbol, Buy, quantity, price, 0.0, (hour + 4) * HOUR)
  }

  /** A cycle an hour after the rise, answered with one fill. */
  function Meets(symbol: string, hour: int, quantity: real, price: real): (r: Input)
    requires quantity > 0.0 && price > 0.0
    ensures r.Valid(BotFor(symbol))
  {
    Input((hour + 4) * HOUR, Observed(Rise(symbol, hour)), false, 0,
          Answered(PartiallyFilled, None, [Bought(symbol, hour, quantity, price)]))
  }

  lemma SumOfTwo(a: real, b: real)
    ensures Sum([a, b]) == a + b
  {
    assert [a, b][..1] == [a] && [a][..0] == [];
    assert Sum([a]) == a;
  }

  lemma SumOfThree(a: real, b: real, c: real)
    ensures Sum([a, b, c]) == a + b + c
  {
    assert [a, b, c][..2] == [a, b];
    SumOfTwo(a, b);
  }

  lemma RiseCrosses()
    ensures AllPositive([1.0, 1.0, 1.0, 2.0])
    ensures Judge(STRATEGY, [1.0, 1.0, 1.0, 2.0]) == Opinion(GoLong, 1.0)
  {
    var closes := [1.0, 1.0, 1.0, 2.0];
    assert closes[1..3] == [1.0, 1.0];
    assert closes[0..3] == [1.0, 1.0, 1.0];
    assert closes[2..4] == [1.0, 2.0] && closes[2..4] == closes[2..];
    assert closes[1..4] == [1.0, 1.0, 2.0] && closes[1..4] == closes[1..];
    SumOfTwo(1.0, 1.0);
    SumOfTwo(1.0, 2.0);
    SumOfThree(1.0, 1.0, 1.0);
    SumOfThree(1.0, 1.0, 2.0);
    assert AveragesOf(STRATEGY, closes) == Averages(1.0, 1.0, 1.5, 4.0 / 3.0);
  }

  lemma RiseIsBuy(symbol: string, hour: int)
    ensures SignalFor(BotFor(symbol), Rise(symbol, hour)) == Signal(symbol, GoLong, 1.0, (hour + 3) * HOUR)
  {
    RiseCrosses();
    assert Rise(symbol, hour).Closes() == [1.0, 1.0, 1.0, 2.0];
  }

  lemma HourIsRead()
    ensures ParseTimeframe("1h") == Success(HOUR)
  {
    TimeframeReadBack(0, 1, 'h', HOUR);
    assert Written(0, 1, 'h') == "1h";
  }

  /** An account with enough of everything for the policy to buy. */
  predicate CanBuy(account: AccountState, symbol: string) {
    && account.Valid() && account.position.symbol == symbol
    && account.cash >= 200.0 && account.position.quantity <= 10.0
    && account.DailyPnlAt(2.0) > -100.0
  }

  function BuyId(symbol: string, hour: int): string {
    ClientOrderId(BuildCycleId(Rise(symbol, hour)), Buy)
  }

  lemma RiseIsSubmitted(symbol: string, hour: int, quantity: real, price: real, account: AccountState)
    requires quantity > 0.0 && price > 0.0 && CanBuy(account, symbol)
    ensures var intent := Verdict(LIMITS, RequestFor(BotFor(symbol), Meets(symbol, hour, quantity, price), account)).intent;
            intent.Some? && intent.value.side == Buy && intent.value.clientOrderId == BuyId(symbol, hour)
  {
    hide Verdict, BuildCycleId, ClientOrderId, SignalFor, OnGrid;
    var req := RequestFor(BotFor(symbol), Meets(symbol, hour, quantity, price), account);
    RiseIsBuy(symbol, hour);
    assert BuyFits(LIMITS, req, 1.0) by {
      GridFrom(1.0, LOT, 100_000_000);
    }
    SubmittedExactlyWhen(LIMITS, req);
    AuditTrail(LIMITS, req);
    IntentIsSound(LIMITS, req);
  }

  /** What the cycle does on tables that hold such an account. */
  lemma RiseRuns(symbol: string, hour: int, quantity: real, price: real, tables: Tables, account: AccountState)
    requires quantity > 0.0 && price > 0.0 && CanBuy(account, symbol)
    requires AccountFor(BotFor(symbol), Meets(symbol, hour, quantity, price), tables) == Some(account)
    ensures var outcome := RunCycle(BotFor(symbol), Meets(symbol, hour, quantity, price), tables);
            && outcome.Completed? && outcome.report.account == account
            && (if AlreadyExecuted(tables.orders, BuyId(symbol, hour))
                then outcome.report.execution.None? && outcome.report.duplicateSuppressed
                else
                  && outcome.report.execution.Some?
                  && outcome.report.execution.value.intent.clientOrderId == BuyId(symbol, hour)
                  && outcome.report.execution.value.fills == [Bought(symbol, hour, quantity, price)])
    ensures IntentSent(BotFor(symbol), Meets(symbol, hour, quantity, price), tables).Some? <==>
              !AlreadyExecuted(tables.orders, BuyId(symbol, hour))
  {
    hide Verdict, BuildCycleId, ClientOrderId, SignalFor, ParseTimeframe, AlreadyExecuted, Fold, LoadAccountState,
         SignalRowOf, PositionRowOf, OrderRowOf, SnapshotRowOf;
    HourIsRead();
    RiseIsSubmitted(symbol, hour, quantity, price, account);
    OneBuyCanBeFolded(account.cash, account.position, Bought(symbol, hour, quantity, price));
    var bot, input := BotFor(symbol), Meets(symbol, hour, quantity, price);
    assert !IsStale(input.feed.snapshot.AsOf(), HOUR, input.now, MAX_SNAPSHOT_AGE_FACTOR);
    var seen := input.feed.snapshot;
    var noted := tables.(signals := tables.signals + [SignalRowOf(BuildCycleId(seen), SignalFor(bot, seen))]);
    assert AccountFor(bot, input, noted) == Some(account);
    assert RunCycle(bot, input, tables) == Trade(bot, input, noted, RequestFor(bot, input, account));
  }

  lemma OneBuyFolds(cash: real, position: Position, fill: Fill)
    requires position.Valid() && fill.Valid() && fill.side == Buy && fill.symbol == position.symbol
    ensures Fold(cash, position, [fill]) == Success(LedgerUpdate(cash + fill.CashFlow(), position.Apply(fill).value, fill.fee))
  {
    hide Position.Apply, Fill.CashFlow;
    assert [fill][..0] == [];
  }

  lemma OneBuyCanBeFolded(cash: real, position: Position, fill: Fill)
    requires position.Valid() && fill.Valid() && fill.side == Buy && fill.symbol == position.symbol
    ensures ValidFills([fill]) && Fold(cash, position, [fill]).Success?
  {
    hide Position.Apply, Fill.CashFlow;
    OneBuyFolds(cash, position, fill);
  }

  lemma FreshAccount(symbol: string, input: Input, tables: Tables)
    requires input.Valid(BotFor(symbol)) && input.feed.Observed?
    requires BookOf(tables, symbol) == Book([], [], None)
    ensures AccountFor(BotFor(symbol), input, tables) == Some(AccountState(1000.0, Flat(symbol), 1000.0))
  {
    AccountFromBook(BotFor(symbol), input, tables);
  }

  // ---------- Cash that the column rounds ----------

  function Cycles(symbol: string, hour: int, quantity: real, price: real): (r: Event)
    requires quantity > 0.0 && price > 0.0
    ensures r.Valid()
  {
    Event(BotFor(symbol), Meets(symbol, hour, quantity, price))
  }

  lemma OneEvent(event: Event)
    requires event.Valid()
    ensures Run([event]) == Commit(event.bot, event.input, EMPTY)
    ensures Serial([event]) && TradedBy([event], event.bot)
  {
    assert [event][..0] == [];
  }

  /** The first order of a symbol, in a run of one cycle. */
  lemma FirstBuy(symbol: string, hour: int, quantity: real, price: real) returns (report: CycleReport)
    requires quantity > 0.0 && price > 0.0
    ensures var e := Cycles(symbol, hour, quantity, price);
            && RunCycle(e.bot, e.input, EMPTY).Completed?
            && Advances(e.bot, e.input, Book([], [], None), BookOf(Run([e]), symbol), report)
            && report == RunCycle(e.bot, e.input, EMPTY).report
    ensures report.account == AccountState(1000.0, Flat(symbol), 1000.0)
    ensures report.execution.Some? && report.execution.value.fills == [Bought(symbol, hour, quantity, price)]
    ensures report.execution.value.intent.clientOrderId == BuyId(symbol, hour)
  {
    hide RunCycle, Advances, AccountFor, BuyId, RequestFor;
    var e := Cycles(symbol, hour, quantity, price);
    FreshAccount(symbol, e.input, EMPTY);
    RiseRuns(symbol, hour, quantity, price, EMPTY, AccountState(1000.0, Flat(symbol), 1000.0));
    report := RunCycle(e.bot, e.input, EMPTY).report;
    CycleMovesOneBook(e.bot, e.input, EMPTY);
    OneEvent(e);
  }

  lemma StoredAsIs(x: real, units: int)
    requires x * COLUMN == units as real
    ensures OnGrid(x, COLUMN) && Stored(x) == x
  {
    GridFrom(x, COLUMN, units);
    StoredOnce(x);
  }

  /** After one fill whose row is exact but whose cash flow the column cannot hold, the
      cached cash is not the fold of the fills. */
  lemma InexactFlowIsRounded(symbol: string, quantity: real, price: real)
    requires quantity > 0.0 && price > 0.0 && Stored(quantity) == quantity && Stored(price) == price
    requires !OnGrid(CashFlows([Bought(symbol, 0, quantity, price)]), COLUMN)
    ensures var e := Cycles(symbol, 0, quantity, price);
            var fills := CommittedFills(BookOf(Run([e]), symbol).orders);
            && Serial([e]) && TradedBy([e], e.bot)
            && ValidFills(fills) && Fold(1000.0, Flat(symbol), fills).Success?
            && !CashIsTheFold(BookOf(Run([e]), symbol), e.bot)
  {
    hide RunCycle, RequestFor, Run, Fold, OnGrid, Stored, CashFlows, CommittedFills, Advances, BookOf, CashIsTheFold;
    var e, fill := Cycles(symbol, 0, quantity, price), Bought(symbol, 0, quantity, price);
    OneEvent(e);
    StoredAsIs(0.0, 0);
    StoredAsIs(1000.0, 1_000_000_000_000_000_000_000);
    var report := FirstBuy(symbol, 0, quantity, price);
    OrderCommits(e.bot, e.input, Book([], [], None), BookOf(Run([e]), symbol), report);
    assert StoredFills([fill]) == [fill] == [] + [fill];
    OneBuyCanBeFolded(1000.0, Flat(symbol), fill);
    NothingCommitted(e.bot);
    CashKeptExactlyWhen(e.bot, e.input, Book([], [], None), BookOf(Run([e]), symbol), report,
                        LedgerUpdate(1000.0, Flat(symbol), 0.0));
  }

  /** Ten decimals in quantity and price are stored exactly, but their product has
      twenty. */
  lemma ColumnsCanRoundCash(symbol: string)
    ensures var e := Cycles(symbol, 0, 0.000_000_000_1, 0.000_000_000_1);
            var fills := CommittedFills(BookOf(Run([e]), symbol).orders);
            && Serial([e]) && TradedBy([e], e.bot)
            && ValidFills(fills) && Fold(1000.0, Flat(symbol), fills).Success?
            && !CashIsTheFold(BookOf(Run([e]), symbol), e.bot)
  {
    hide CashIsTheFold, Fold, CommittedFills, ValidFills, Run, OnGrid, Stored, CashFlows, BotFor, Meets, Serial, TradedBy;
    StoredAsIs(0.000_000_000_1, 100_000_000);
    DustIsFinerThanColumn(Bought(symbol, 0, 0.000_000_000_1, 0.000_000_000_1));
    InexactFlowIsRounded(symbol, 0.000_000_000_1, 0.000_000_000_1);
  }

  lemma NothingCommitted(bot: Bot)
    ensures FoldsTo(Book([], [], None), bot, LedgerUpdate(bot.initialCash, Flat(bot.symbol), 0.0))
    ensures CommittedFills([]) == []
  {
  }

  lemma DustIsFinerThanColumn(fill: Fill)
    requires fill.side == Buy && fill.quantity == 0.000_000_000_1 && fill.price == 0.000_000_000_1 && fill.fee == 0.0
    ensures !OnGrid(CashFlows([fill]), COLUMN)
  {
    assert [fill][..0] == [];
    assert Total(CashMoved, [fill]) == fill.CashFlow();
    assert fill.CashFlow() * COLUMN == -0.01;
  }

  // ---------- An average price that the column rounds ----------

  /** What an executed order leaves in its book. */
  lemma OrderIsSaved(bot: Bot, input: Input, k: Book, k': Book, report: CycleReport, u: LedgerUpdate)
    requires bot.Valid() && input.Valid(bot) && Advances(bot, input, k, k', report) && report.execution.Some?
    requires Fold(report.account.cash, report.account.position, report.execution.value.fills) == Success(u)
    ensures BookCash(k', bot.initialCash) == Stored(u.cash)
    ensures BookPosition(k', bot.symbol) == Position(bot.symbol, Stored(u.position.quantity), Stored(u.position.averagePrice))
    ensures |k'.snapshots| == |k.snapshots| + 1
    ensures k'.snapshots[|k.snapshots|].equity == Stored(u.cash + u.position.NotionalAt(input.feed.snapshot.LastPrice()))
  {
    hide Verdict, Fold, SubmitTo, SignalFor, Stored, BuildCycleId, DayOpeningEquity, OrderRowOf, RequestFor;
  }

  /** The book after one unit was bought at 1. */
  lemma AfterFirstBuy(symbol: string)
    ensures var e := Cycles(symbol, 0, 1.0, 1.0);
            var k := BookOf(Run([e]), symbol);
            && FoldsTo(k, e.bot, LedgerUpdate(999.0, Position(symbol, 1.0, 1.0), 0.0))
            && BookCash(k, 1000.0) == 999.0 && BookPosition(k, symbol) == Position(symbol, 1.0, 1.0)
            && |k.snapshots| == 1 && k.snapshots[0].equity == 1001.0
            && InTimeOrder(k.snapshots)
  {
    hide RunCycle, RequestFor, Run, Fold, Stored, Advances, CommittedFills, BookOf;
    var e, fill := Cycles(symbol, 0, 1.0, 1.0), Bought(symbol, 0, 1.0, 1.0);
    var report := FirstBuy(symbol, 0, 1.0, 1.0);
    OrderCommits(e.bot, e.input, Book([], [], None), BookOf(Run([e]), symbol), report);
    StoredAsIs(1.0, 1_000_000_000_000_000_000);
    StoredAsIs(0.0, 0);
    StoredAsIs(999.0, 999_000_000_000_000_000_000);
    StoredAsIs(1001.0, 1_001_000_000_000_000_000_000);
    assert StoredFills([fill]) == [fill] == [] + [fill];
    OneBuyFolds(1000.0, Flat(symbol), fill);
    NothingCommitted(e.bot);
    OrderIsSaved(e.bot, e.input, Book([], [], None), BookOf(Run([e]), symbol), report,
                 LedgerUpdate(999.0, Position(symbol, 1.0, 1.0), 0.0));
  }

  /** The second cycle finds an account that can buy, and no order of its bar. */
  lemma SecondBuyRuns(symbol: string)
    ensures var e, e' := Cycles(symbol, 0, 1.0, 1.0), Cycles(symbol, 1, 2.0, 2.0);
            var outcome := RunCycle(e'.bot, e'.input, Run([e]));
            && outcome.Completed?
            && outcome.report.account.cash == 999.0 && outcome.report.account.position == Position(symbol, 1.0, 1.0)
            && outcome.report.execution.Some? && outcome.report.execution.value.fills == [Bought(symbol, 1, 2.0, 2.0)]
  {
    hide RunCycle, RequestFor, Run, BuyId, DayStart;
    var e, e' := Cycles(symbol, 0, 1.0, 1.0), Cycles(symbol, 1, 2.0, 2.0);
    AfterFirstBuy(symbol);
    AccountFromBook(e'.bot, e'.input, Run([e]));
    var account := BookAccount(e'.bot, e'.input, BookOf(Run([e]), symbol)).value;
    NextBarIsNew(symbol);
    RiseRuns(symbol, 1, 2.0, 2.0, Run([e]), account);
  }

  lemma NextBarHasOtherId(symbol: string)
    ensures BuyId(symbol, 0) != BuyId(symbol, 1)
  {
    hide ClientOrderId, CycleId, ParseTimeframe, Condensed;
    HourIsRead();
    CycleIdIdentifiesBar(symbol, "1h", 3 * HOUR, symbol, "1h", 4 * HOUR);
    if BuyId(symbol, 0) == BuyId(symbol, 1) {
      ClientOrderIdIdentifiesOrder(BuildCycleId(Rise(symbol, 0)), Buy, BuildCycleId(Rise(symbol, 1)), Buy);
    }
  }

  lemma OnlyOrder(symbol: string, quantity: real, price: real)
    requires quantity > 0.0 && price > 0.0
    ensures |Run([Cycles(symbol, 0, quantity, price)]).orders| == 1
    ensures Run([Cycles(symbol, 0, quantity, price)]).orders[0].clientOrderId == BuyId(symbol, 0)
  {
    hide RunCycle, RequestFor, BuyId, AccountFor, Stored, StoredFills, Rise, Fold, Advances;
    var e := Cycles(symbol, 0, quantity, price);
    var report := FirstBuy(symbol, 0, quantity, price);
    CycleWrites(e.bot, e.input, EMPTY);
    OneEvent(e);
  }

  lemma NextBarIsNew(symbol: string)
    ensures !AlreadyExecuted(Run([Cycles(symbol, 0, 1.0, 1.0)]).orders, BuyId(symbol, 1))
  {
    hide Run, BuyId;
    OnlyOrder(symbol, 1.0, 1.0);
    NextBarHasOtherId(symbol);
  }

  /** One bought at 1 and, a bar later, two at 2 average five thirds: what is saved and
      loaded again is not the fold of the fills. */
  lemma ColumnsCanRoundAverage(symbol: string)
    ensures var e, e' := Cycles(symbol, 0, 1.0, 1.0), Cycles(symbol, 1, 2.0, 2.0);
            && Serial([e, e']) && TradedBy([e, e'], e.bot)
            && ValidFills(CommittedFills(BookOf(Run([e, e']), symbol).orders))
            && Fold(1000.0, Flat(symbol), CommittedFills(BookOf(Run([e, e']), symbol).orders)).Success?
            && !AverageIsTheFold(BookOf(Run([e, e']), symbol), e.bot)
  {
    hide RunCycle, RequestFor, Run, Fold, OnGrid, Stored, Advances;
    var e, e' := Cycles(symbol, 0, 1.0, 1.0), Cycles(symbol, 1, 2.0, 2.0);
    var fill := Bought(symbol, 1, 2.0, 2.0);
    var k, k' := BookOf(Run([e]), symbol), BookOf(Run([e, e']), symbol);
    var u := LedgerUpdate(999.0, Position(symbol, 1.0, 1.0), 0.0);
    AfterFirstBuy(symbol);
    SecondBuyRuns(symbol);
    var report := RunCycle(e'.bot, e'.input, Run([e])).report;
    CycleMovesOneBook(e'.bot, e'.input, Run([e]));
    TwoEvents(e, e');
    StoredAsIs(2.0, 2_000_000_000_000_000_000);
    StoredAsIs(0.0, 0);
    assert StoredFills([fill]) == [fill];
    AverageKeptExactlyWhen(e'.bot, e'.input, k, k', report, u);
    OneBuyFolds(999.0, Position(symbol, 1.0, 1.0), fill);
    FiveThirds(Position(symbol, 1.0, 1.0).Apply(fill).value.averagePrice);
    OrderCommits(e'.bot, e'.input, k, k', report);
    FoldedFurther(e'.bot, k, u, report.account, [fill]);
  }

  lemma TwoEvents(e: Event, e': Event)
    requires e.Valid() && e'.Valid() && e.bot == e'.bot && e.input.now < e'.input.now
    ensures Serial([e, e']) && TradedBy([e, e'], e.bot)
    ensures Run([e, e']) == Commit(e'.bot, e'.input, Run([e]))
  {
    assert [e, e'][..1] == [e];
  }

  lemma FiveThirds(average: real)
    requires 3.0 * average == 5.0
    ensures !OnGrid(average, COLUMN)
  {
    var units := (average * COLUMN).Floor;
    assert 3 * units != 5_000_000_000_000_000_000;
  }

  // ---------- Two symbols with one spelling ----------

  /** Character by character equal but for case and punctuation. */
  predicate AlikeSymbols(s: string, t: string) {
    && |s| == |t|
    && forall i :: 0 <= i < |s| ==>
         (Alphanumeric(s[i]) <==> Alphanumeric(t[i])) && (Alphanumeric(s[i]) ==> Upper(s[i]) == Upper(t[i]))
  }

  lemma {:induction false} AlikeMeansOneSpelling(s: string, t: string)
    requires AlikeSymbols(s, t)
    ensures Condensed(s) == Condensed(t)
  {
    if |s| > 0 {
      AlikeMeansOneSpelling(s[..|s| - 1], t[..|t| - 1]);
    }
  }

  /** Two symbols spelled alike but for case and punctuation, on one database: an order
      of the one keeps the other from placing its own order for the same bar, which
      it places when it is alone. */
  lemma OneSpellingSuppresses(symbol: string, other: string)
    requires symbol != other && AlikeSymbols(symbol, other)
    ensures var e, e' := Cycles(symbol, 0, 1.0, 1.0), Cycles(other, 0, 1.0, 1.0);
            && Serial([e, e']) && TradedBy([e, e'], e'.bot)
            && BookOf(Run([e, e']), other).orders == []
            && |BookOf(Run(Own([e, e'], other)), other).orders| == 1
  {
    hide RunCycle, RequestFor, Run, Stored, Condensed, ClientOrderId, AccountFor, Advances, BuyId;
    var e, e' := Cycles(symbol, 0, 1.0, 1.0), Cycles(other, 0, 1.0, 1.0);
    var account := AccountState(1000.0, Flat(other), 1000.0);
    OwnOfTwo(e, e');
    var alone := FirstBuy(other, 0, 1.0, 1.0);
    SharedId(symbol, other);
    OtherSymbolsStay(e, EMPTY, other);
    OneEvent(e);
    FreshAccount(other, e'.input, Run([e]));
    RiseRuns(other, 0, 1.0, 1.0, Run([e]), account);
    CycleMovesOneBook(e'.bot, e'.input, Run([e]));
    BookOrders(e'.bot, e'.input, BookOf(Run([e]), other), BookOf(Run([e, e']), other),
               RunCycle(e'.bot, e'.input, Run([e])).report);
    BookOrders(e'.bot, e'.input, Book([], [], None), BookOf(Run([e']), other), alone);
  }

  lemma SharedId(symbol: string, other: string)
    requires AlikeSymbols(symbol, other)
    ensures AlreadyExecuted(Run([Cycles(symbol, 0, 1.0, 1.0)]).orders, BuyId(other, 0))
  {
    hide Run, Condensed, ClientOrderId;
    AlikeMeansOneSpelling(symbol, other);
    OnlyOrder(symbol, 1.0, 1.0);
    assert Run([Cycles(symbol, 0, 1.0, 1.0)]).orders[0].clientOrderId == BuyId(other, 0);
  }

  lemma OwnOfTwo(e: Event, e': Event)
    requires e.Valid() && e'.Valid() && e.bot.symbol != e'.bot.symbol
    ensures Serial([e, e']) && TradedBy([e, e'], e'.bot)
    ensures Own([e, e'], e'.bot.symbol) == [e']
    ensures Run([e, e']) == Commit(e'.bot, e'.input, Run([e]))
  {
    assert [e, e'][..1] == [e] && [e][..0] == [];
    assert Own([e], e'.bot.symbol) == [];
  }

  lemma SuchSymbolsExist()
    ensures "BTC/USDT" != "btc-usdt" && AlikeSymbols("BTC/USDT", "btc-usdt")
  {
    assert "BTC/USDT"[0] != "btc-usdt"[0];
  }

  // ---------- A lost execution ----------

  /** Killed between submit and commit: the venue holds one unit that the database does
      not know of, and a retry of the bar is recorded as rejected and leaves it so. */
  lemma CrashLosesExecution(symbol: string)
    ensures var e := Cycles(symbol, 0, 1.0, 1.0);
            var crashed := Attempt(e.bot, e.input, DiesAfterSubmit);
            var retried := Attempt(e.bot, e.input, Finishes);
            && StorableAttempts([crashed, retried])
            && Loses(START, crashed) && !Loses(Unfold(START, [crashed]), retried)
            && (forall attempts :: attempts == [crashed] || attempts == [crashed, retried] ==>
                  && VenueQuantity(Unfold(START, attempts).log, symbol) == 1.0
                  && DatabaseQuantity(Unfold(START, attempts).tables, symbol) == 0.0)
            && |Unfold(START, [crashed, retried]).tables.orders| == 1
            && Unfold(START, [crashed, retried]).tables.orders[0].status == Rejected
  {
    hide RunCycle, RequestFor, BuyId, IntentSent, Stored, AccountFor;
    var e := Cycles(symbol, 0, 1.0, 1.0);
    var crashed, retried := Attempt(e.bot, e.input, DiesAfterSubmit), Attempt(e.bot, e.input, Finishes);
    FreshAccount(symbol, e.input, EMPTY);
    RiseRuns(symbol, 0, 1.0, 1.0, EMPTY, AccountState(1000.0, Flat(symbol), 1000.0));
    assert [crashed][..0] == [] && [crashed, retried][..1] == [crashed];
    StoredAsIs(1.0, 1_000_000_000_000_000_000);
    StoredAsIs(0.0, 0);
    OneBuyFolds(0.0, Flat(symbol), Bought(symbol, 0, 1.0, 1.0));
    FoldConserves(0.0, Flat(symbol), [Bought(symbol, 0, 1.0, 1.0)]);
    var after := Unfold(START, [crashed]);
    var intent := IntentSent(e.bot, e.input, EMPTY).value;
    var entry := Entry(intent.clientOrderId, symbol, e.input.answer.fills);
    assert Unfold(START, []) == START;
    assert after == Step(START, crashed);
    assert Step(START, crashed).log == [] + [entry];
    LogAppended([], entry, [], symbol);
    RetryIsRejected(after, retried, intent);
  }
}
