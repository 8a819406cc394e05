/** Serial runs of cycles against one database, seen symbol by symbol. */
module Runs {
  import opened Results
  import opened Decimals
  import opened Timeframes
  import opened Orders
  import opened Portfolio
  import opened Ledger
  import opened Policy
  import opened Repository
  import opened CycleIds
  import opened Cycle

  datatype Event = Event(bot: Bot, input: Input)
  {
    predicate Valid() {
      bot.Valid() && input.Valid(bot)
    }
  }

  predicate ValidEvents(events: seq<Event>) {
    forall i :: 0 <= i < |events| ==> events[i].Valid()
  }

  /** The committed tables after every event in turn, starting from nothing. */
  function Run(events: seq<Event>): Tables
    requires ValidEvents(events)
  {
    if |events| == 0 then EMPTY
    else
      var last := events[|events| - 1];
      Commit(last.bot, last.input, Run(events[..|events| - 1]))
  }

  /** Cycles of one symbol start one after the other; those of different symbols may
      start in any order. */
  predicate Serial(events: seq<Event>) {
    && ValidEvents(events)
    && forall i, j :: 0 <= i < j < |events| && events[i].bot.symbol == events[j].bot.symbol ==>
         events[i].input.now < events[j].input.now
  }

  /** `bot` is the only one that trades its symbol. */
  predicate TradedBy(events: seq<Event>, bot: Bot) {
    forall i :: 0 <= i < |events| && events[i].bot.symbol == bot.symbol ==> events[i].bot == bot
  }

  /** The part of the tables that concerns one symbol. */
  datatype Book = Book(orders: seq<OrderRow>, snapshots: seq<SnapshotRow>, position: Option<PositionRow>)

  function OrdersFor(rows: seq<OrderRow>, symbol: string): seq<OrderRow> {
    if |rows| == 0 then []
    else
      var row := rows[|rows| - 1];
      OrdersFor(rows[..|rows| - 1], symbol) + if row.symbol == symbol then [row] else []
  }

  function SnapshotsFor(rows: seq<SnapshotRow>, symbol: string): (r: seq<SnapshotRow>)
    ensures forall i :: 0 <= i < |r| ==> r[i].symbol == symbol && r[i] in rows
  {
    if |rows| == 0 then []
    else
      var row := rows[|rows| - 1];
      SnapshotsFor(rows[..|rows| - 1], symbol) + if row.symbol == symbol then [row] else []
  }

  function BookOf(tables: Tables, symbol: string): Book {
    Book(OrdersFor(tables.orders, symbol), SnapshotsFor(tables.snapshots, symbol),
         if symbol in tables.positions then Some(tables.positions[symbol]) else None)
  }

  function BookCash(book: Book, initialCash: real): real {
    if |book.snapshots| == 0 then initialCash else book.snapshots[|book.snapshots| - 1].cash
  }

  function BookPosition(book: Book, symbol: string): Position {
    match book.position
    case None => Flat(symbol)
    case Some(row) => Position(symbol, row.quantity, row.averagePrice)
  }

  predicate InTimeOrder(rows: seq<SnapshotRow>) {
    forall i, j :: 0 <= i < j < |rows| ==> rows[i].takenAt < rows[j].takenAt
  }

  lemma OrdersForAppended(rows: seq<OrderRow>, row: OrderRow, symbol: string)
    ensures OrdersFor(rows + [row], symbol) == OrdersFor(rows, symbol) + if row.symbol == symbol then [row] else []
  {
    assert (rows + [row])[..|rows|] == rows;
  }

  lemma SnapshotsForAppended(rows: seq<SnapshotRow>, row: SnapshotRow, symbol: string)
    ensures SnapshotsFor(rows + [row], symbol) == SnapshotsFor(rows, symbol) + if row.symbol == symbol then [row] else []
  {
    assert (rows + [row])[..|rows|] == rows;
  }

  lemma {:induction false} LatestIsLast(rows: seq<SnapshotRow>, symbol: string)
    requires InTimeOrder(SnapshotsFor(rows, symbol))
    ensures var mine := SnapshotsFor(rows, symbol);
            LatestSnapshotFor(rows, symbol) == if |mine| == 0 then None else Some(mine[|mine| - 1])
  {
    if |rows| > 0 {
      var init, row := rows[..|rows| - 1], rows[|rows| - 1];
      var mine, before := SnapshotsFor(rows, symbol), SnapshotsFor(init, symbol);
      assert forall i :: 0 <= i < |before| ==> before[i] == mine[i];
      LatestIsLast(init, symbol);
      if row.symbol == symbol && |before| > 0 {
        assert mine[|before|] == row && mine[|before| - 1].takenAt < mine[|before|].takenAt;
      }
    }
  }

  lemma {:induction false} FirstSinceOfOwnRows(rows: seq<SnapshotRow>, symbol: string, moment: int)
    ensures FirstSnapshotSince(SnapshotsFor(rows, symbol), symbol, moment) == FirstSnapshotSince(rows, symbol, moment)
  {
    if |rows| > 0 {
      var init, row := rows[..|rows| - 1], rows[|rows| - 1];
      FirstSinceOfOwnRows(init, symbol, moment);
      SnapshotsForAppended(init, row, symbol);
      if row.symbol == symbol {
        assert SnapshotsFor(rows, symbol) == SnapshotsFor(init, symbol) + [row];
        assert SnapshotsFor(rows, symbol)[..|SnapshotsFor(init, symbol)|] == SnapshotsFor(init, symbol);
      } else {
        assert SnapshotsFor(rows, symbol) == SnapshotsFor(init, symbol);
      }
    }
  }

  /** How a completed cycle of `bot` takes its symbol's book from `k` to `k'`. */
  ghost predicate Advances(bot: Bot, input: Input, k: Book, k': Book, report: CycleReport)
    requires bot.Valid() && input.Valid(bot)
  {
    && input.feed.Observed?
    && report.account.Valid()
    && report.account.cash == BookCash(k, bot.initialCash)
    && report.account.position == BookPosition(k, bot.symbol)
    && report.account.dayOpeningEquity ==
       DayOpeningEquity(k.snapshots, bot.symbol, input.now, report.account.EquityAt(input.feed.snapshot.LastPrice()))
    && report.decision == Verdict(bot.limits, RequestFor(bot, input, report.account))
    && report.cycleId == RequestFor(bot, input, report.account).cycleId
    && report.signal == SignalFor(bot, input.feed.snapshot)
    && k'.snapshots == k.snapshots + [SnapshotRowOf(report.cycleId, report.equity)]
    && match report.execution
       case None =>
         && k'.orders == k.orders && k'.position == k.position
         && Settles(bot, input, report, report.account.cash, report.account.position)
       case Some(x) =>
         && report.decision.intent == Some(x.intent)
         && SubmitTo(bot, input, x.intent) == Some(x)
         && k'.orders == k.orders + [OrderRowOf(report.cycleId, x)]
         && match Fold(report.account.cash, report.account.position, x.fills)
            case Failure(_) => false
            case Success(u) =>
              && k'.position == Some(PositionRowOf(u.position, input.now))
              && Settles(bot, input, report, u.cash, u.position)
  }

  ghost predicate Settles(bot: Bot, input: Input, report: CycleReport, cash: real, position: Position)
    requires bot.Valid() && input.Valid(bot) && input.feed.Observed?
  {
    report.equity == EquityOf(input, bot.symbol, input.feed.snapshot.LastPrice(), cash, position, report.account.dayOpeningEquity)
  }

  /** The account as one symbol's book tells it: None when nothing is left of the
      day's opening equity, which is what validation asks for. */
  function BookAccount(bot: Bot, input: Input, k: Book): Option<AccountState>
    requires input.Valid(bot) && input.feed.Observed?
  {
    var cash, position := BookCash(k, bot.initialCash), BookPosition(k, bot.symbol);
    var worth := cash + position.NotionalAt(input.feed.snapshot.LastPrice());
    var account := AccountState(cash, position, DayOpeningEquity(k.snapshots, bot.symbol, input.now, worth));
    if account.Valid() then Some(account) else None
  }

  /** The account a cycle loads depends on its own symbol's book only. */
  lemma AccountFromBook(bot: Bot, input: Input, tables: Tables)
    requires bot.Valid() && input.Valid(bot) && input.feed.Observed?
    requires InTimeOrder(SnapshotsFor(tables.snapshots, bot.symbol))
    ensures AccountFor(bot, input, tables) == BookAccount(bot, input, BookOf(tables, bot.symbol))
  {
    hide LatestSnapshotFor, FirstSnapshotSince, SnapshotsFor, OrdersFor, DayStart, Position.NotionalAt;
    LatestIsLast(tables.snapshots, bot.symbol);
    FirstSinceOfOwnRows(tables.snapshots, bot.symbol, DayStart(input.now));
  }

  /** What a completed cycle adds to the tables. */
  lemma CycleWrites(bot: Bot, input: Input, tables: Tables)
    requires bot.Valid() && input.Valid(bot) && RunCycle(bot, input, tables).Completed?
    ensures var after, report := RunCycle(bot, input, tables).tables, RunCycle(bot, input, tables).report;
            && input.feed.Observed?
            && AccountFor(bot, input, tables) == Some(report.account)
            && report.decision == Verdict(bot.limits, RequestFor(bot, input, report.account))
            && report.cycleId == RequestFor(bot, input, report.account).cycleId
            && report.signal == SignalFor(bot, input.feed.snapshot)
            && after.signals == tables.signals + [SignalRowOf(report.cycleId, report.signal)]
            && after.snapshots == tables.snapshots + [SnapshotRowOf(report.cycleId, report.equity)]
            && report.equity.symbol == bot.symbol
            && match report.execution
               case None =>
                 && after.orders == tables.orders && after.positions == tables.positions
                 && Settles(bot, input, report, report.account.cash, report.account.position)
               case Some(x) =>
                 && report.decision.intent == Some(x.intent)
                 && !AlreadyExecuted(tables.orders, x.intent.clientOrderId)
                 && SubmitTo(bot, input, x.intent) == Some(x)
                 && x.intent.symbol == bot.symbol
                 && after.orders == tables.orders + [OrderRowOf(report.cycleId, x)]
                 && match Fold(report.account.cash, report.account.position, x.fills)
                    case Failure(_) => false
                    case Success(u) =>
                      && after.positions == tables.positions[bot.symbol := PositionRowOf(u.position, input.now)]
                      && Settles(bot, input, report, u.cash, u.position)
  {
    hide Verdict, Fold, SubmitTo, LoadAccountState, BuildCycleId, SignalFor, SignalRowOf, PositionRowOf, OrderRowOf,
         SnapshotRowOf, AlreadyExecuted, ParseTimeframe, IsStale;
    var report := RunCycle(bot, input, tables).report;
    IntentSymbol(bot.limits, RequestFor(bot, input, report.account));
  }

  lemma OwnRowsAppended(bot: Bot, input: Input, tables: Tables)
    requires bot.Valid() && input.Valid(bot) && RunCycle(bot, input, tables).Completed?
    ensures var done := RunCycle(bot, input, tables);
            var k, k' := BookOf(tables, bot.symbol), BookOf(done.tables, bot.symbol);
            && k'.snapshots == k.snapshots + [SnapshotRowOf(done.report.cycleId, done.report.equity)]
            && k'.orders == k.orders +
               (if done.report.execution.None? then [] else [OrderRowOf(done.report.cycleId, done.report.execution.value)])
  {
    hide RunCycle, Verdict, Fold, SubmitTo, SignalFor, PositionRowOf, AlreadyExecuted, RequestFor, AccountFor, Stored,
         StoredFills;
    var done := RunCycle(bot, input, tables);
    CycleWrites(bot, input, tables);
    SnapshotsForAppended(tables.snapshots, SnapshotRowOf(done.report.cycleId, done.report.equity), bot.symbol);
    if done.report.execution.Some? {
      OrdersForAppended(tables.orders, OrderRowOf(done.report.cycleId, done.report.execution.value), bot.symbol);
    }
  }

  /** A completed cycle advances its own symbol's book and leaves every other
      symbol's book as it was. */
  lemma CycleMovesOneBook(bot: Bot, input: Input, tables: Tables)
    requires bot.Valid() && input.Valid(bot) && RunCycle(bot, input, tables).Completed?
    requires InTimeOrder(SnapshotsFor(tables.snapshots, bot.symbol))
    ensures var done := RunCycle(bot, input, tables);
            Advances(bot, input, BookOf(tables, bot.symbol), BookOf(done.tables, bot.symbol), done.report)
    ensures forall other :: other != bot.symbol ==>
              BookOf(RunCycle(bot, input, tables).tables, other) == BookOf(tables, other)
  {
    hide RunCycle, Verdict, Fold, SubmitTo, SignalFor, PositionRowOf, OrderRowOf, SnapshotRowOf, AlreadyExecuted, RequestFor,
         AccountFor, OrdersFor, SnapshotsFor, Settles, DayOpeningEquity;
    CycleWrites(bot, input, tables);
    AccountFromBook(bot, input, tables);
    OwnRowsAppended(bot, input, tables);
    forall other | other != bot.symbol
      ensures BookOf(RunCycle(bot, input, tables).tables, other) == BookOf(tables, other)
    {
      OtherSymbolsStay(Event(bot, input), tables, other);
    }
  }

  lemma IntentSymbol(limits: RiskLimits, req: Request)
    requires req.Valid()
    ensures Verdict(limits, req).intent.Some? ==> Verdict(limits, req).intent.value.symbol == req.signal.symbol
  {
    RulingIsPrefix(Gauntlet(limits, req), Wanted(limits, req));
  }

  /** What every committed book satisfies. */
  ghost predicate Sound(book: Book, symbol: string) {
    && InTimeOrder(book.snapshots)
    && (forall i :: 0 <= i < |book.snapshots| ==>
          && book.snapshots[i].symbol == symbol
          && Stored(book.snapshots[i].cash) == book.snapshots[i].cash
          && Stored(book.snapshots[i].equity) == book.snapshots[i].equity)
    && (forall i :: 0 <= i < |book.orders| ==> book.orders[i].symbol == symbol)
    && BookPosition(book, symbol).Valid()
    && Stored(BookPosition(book, symbol).quantity) == BookPosition(book, symbol).quantity
    && (|book.snapshots| == 0 ==> book == Book([], [], None))
    && (|book.snapshots| > 0 ==>
          book.snapshots[|book.snapshots| - 1].positionQuantity == BookPosition(book, symbol).quantity)
  }

  /** Nothing that money depends on differs. */
  ghost predicate SameHoldings(k: Book, k': Book, bot: Bot) {
    && k'.orders == k.orders && k'.position == k.position
    && BookCash(k', bot.initialCash) == BookCash(k, bot.initialCash)
  }

  predicate AllBefore(rows: seq<SnapshotRow>, moment: int) {
    forall i :: 0 <= i < |rows| ==> rows[i].takenAt < moment
  }

  lemma SoundStep(bot: Bot, input: Input, k: Book, k': Book, report: CycleReport)
    requires bot.Valid() && input.Valid(bot) && Advances(bot, input, k, k', report)
    requires Sound(k, bot.symbol) && AllBefore(k.snapshots, input.now)
    ensures Sound(k', bot.symbol)
  {
    hide Verdict, Fold, SubmitTo, SignalFor, Stored, BuildCycleId, DayOpeningEquity, StoredFills;
    StoredOnce(report.equity.cash);
    StoredOnce(report.equity.equity);
    StoredOnce(report.equity.positionQuantity);
    if report.execution.Some? {
      var u := Fold(report.account.cash, report.account.position, report.execution.value.fills).value;
      StoredOnce(u.position.averagePrice);
      IntentSymbol(bot.limits, RequestFor(bot, input, report.account));
    }
  }

  /** Every committed snapshot was taken by one of the cycles. */
  ghost predicate Dated(rows: seq<SnapshotRow>, events: seq<Event>) {
    forall i :: 0 <= i < |rows| ==>
      exists j :: 0 <= j < |events| && events[j].bot.symbol == rows[i].symbol && events[j].input.now == rows[i].takenAt
  }

  lemma {:induction false} SnapshotsAreDated(events: seq<Event>)
    requires ValidEvents(events)
    ensures Dated(Run(events).snapshots, events)
  {
    hide RunCycle, Verdict, Fold, SubmitTo, SignalFor, Stored, RequestFor, AccountFor;
    if |events| > 0 {
      var init, e := events[..|events| - 1], events[|events| - 1];
      SnapshotsAreDated(init);
      var before, after := Run(init).snapshots, Run(events).snapshots;
      if RunCycle(e.bot, e.input, Run(init)).Completed? {
        CycleWrites(e.bot, e.input, Run(init));
      }
      forall i | 0 <= i < |after|
        ensures exists j :: 0 <= j < |events| && events[j].bot.symbol == after[i].symbol && events[j].input.now == after[i].takenAt
      {
        if i < |before| {
          var j :| 0 <= j < |init| && init[j].bot.symbol == before[i].symbol && init[j].input.now == before[i].takenAt;
          assert events[j] == init[j];
        } else {
          assert events[|events| - 1] == e;
        }
      }
    }
  }

  /** So the next cycle starts after every snapshot of its symbol. */
  lemma BookStartsBefore(events: seq<Event>)
    requires Serial(events) && |events| > 0
    ensures var init, e := events[..|events| - 1], events[|events| - 1];
            AllBefore(BookOf(Run(init), e.bot.symbol).snapshots, e.input.now)
  {
    hide Run;
    var init, e := events[..|events| - 1], events[|events| - 1];
    SnapshotsAreDated(init);
    var rows := SnapshotsFor(Run(init).snapshots, e.bot.symbol);
    forall i | 0 <= i < |rows|
      ensures rows[i].takenAt < e.input.now
    {
      assert rows[i] in Run(init).snapshots;
      var j :| 0 <= j < |init| && init[j].bot.symbol == rows[i].symbol && init[j].input.now == rows[i].takenAt;
      assert events[j] == init[j];
    }
  }

  lemma {:induction false} RunIsSound(events: seq<Event>, bot: Bot)
    requires Serial(events) && TradedBy(events, bot)
    ensures Sound(BookOf(Run(events), bot.symbol), bot.symbol)
  {
    hide RunCycle, Stored, Advances;
    if |events| == 0 {
      StoredOnce(0.0);
      GridFrom(0.0, COLUMN, 0);
    } else {
      var init, e := events[..|events| - 1], events[|events| - 1];
      RunIsSound(init, bot);
      var before := Run(init);
      if RunCycle(e.bot, e.input, before).Completed? {
        if e.bot.symbol == bot.symbol {
          CycleMovesOneBook(bot, e.input, before);
          BookStartsBefore(events);
          var done := RunCycle(bot, e.input, before);
          SoundStep(bot, e.input, BookOf(before, bot.symbol), BookOf(done.tables, bot.symbol), done.report);
        } else {
          OtherSymbolsStay(e, before, bot.symbol);
        }
      }
    }
  }

  /** A cycle for one symbol leaves the cash, the position, the orders and the
      snapshots of every other symbol as they were. */
  lemma OtherSymbolsStay(event: Event, tables: Tables, other: string)
    requires event.Valid() && other != event.bot.symbol
    ensures BookOf(Commit(event.bot, event.input, tables), other) == BookOf(tables, other)
  {
    hide Verdict, Fold, SubmitTo, SignalFor, PositionRowOf, AlreadyExecuted, RequestFor, AccountFor, RunCycle;
    if RunCycle(event.bot, event.input, tables).Completed? {
      CycleWrites(event.bot, event.input, tables);
      var done := RunCycle(event.bot, event.input, tables);
      SnapshotsForAppended(tables.snapshots, SnapshotRowOf(done.report.cycleId, done.report.equity), other);
      if done.report.execution.Some? {
        OrdersForAppended(tables.orders, OrderRowOf(done.report.cycleId, done.report.execution.value), other);
      }
    }
  }

  /** The last event of a run either completed a cycle of this bot or left its book alone. */
  lemma LastStep(events: seq<Event>, bot: Bot) returns (moved: bool, report: CycleReport)
    requires Serial(events) && TradedBy(events, bot) && |events| > 0
    ensures var init, e := events[..|events| - 1], events[|events| - 1];
            && Serial(init) && TradedBy(init, bot)
            && Sound(BookOf(Run(init), bot.symbol), bot.symbol)
            && Sound(BookOf(Run(events), bot.symbol), bot.symbol)
            && if moved then
                 && e.bot == bot
                 && Advances(bot, e.input, BookOf(Run(init), bot.symbol), BookOf(Run(events), bot.symbol), report)
                 && AllBefore(BookOf(Run(init), bot.symbol).snapshots, e.input.now)
               else
                 BookOf(Run(events), bot.symbol) == BookOf(Run(init), bot.symbol)
  {
    hide RunCycle, Stored, Advances, Sound;
    var init, e := events[..|events| - 1], events[|events| - 1];
    RunIsSound(init, bot);
    RunIsSound(events, bot);
    var outcome := RunCycle(e.bot, e.input, Run(init));
    moved := outcome.Completed? && e.bot.symbol == bot.symbol;
    if moved {
      report := outcome.report;
      assert InTimeOrder(SnapshotsFor(Run(init).snapshots, bot.symbol)) by {
        InOrder(BookOf(Run(init), bot.symbol), bot.symbol);
      }
      CycleMovesOneBook(bot, e.input, Run(init));
      BookStartsBefore(events);
    } else if outcome.Completed? {
      OtherSymbolsStay(e, Run(init), bot.symbol);
      report := outcome.report;
    } else {
      report := *;
    }
  }

  lemma InOrder(book: Book, symbol: string)
    requires Sound(book, symbol)
    ensures InTimeOrder(book.snapshots)
  {
  }
}
