/** Bots of different symbols share the tables. They keep out of each other's way
    exactly as far as their symbols are spelled differently in cycle ids. */
module Isolation {
  import opened Results
  import opened Timeframes
  import opened Orders
  import opened Ledger
  import opened Policy
  import opened Repository
  import opened CycleIds
  import opened Cycle
  import opened Runs
  import opened Caches

  /** The order was written by a cycle of its own symbol, under the id of that cycle's bar. */
  ghost predicate WrittenBy(row: OrderRow, event: Event)
    requires event.Valid()
  {
    && event.input.feed.Observed? && ParseTimeframe(event.bot.timeframe).Success?
    && row.symbol == event.bot.symbol
    && row.cycleId == BuildCycleId(event.input.feed.snapshot)
    && row.clientOrderId == ClientOrderId(row.cycleId, row.side)
  }

  lemma NewRowIsWritten(event: Event, tables: Tables)
    requires event.Valid() && RunCycle(event.bot, event.input, tables).Completed?
    ensures var after, report := RunCycle(event.bot, event.input, tables).tables, RunCycle(event.bot, event.input, tables).report;
            && (report.execution.None? ==> after.orders == tables.orders)
            && (report.execution.Some? ==>
                  && tables.orders <= after.orders && |after.orders| == |tables.orders| + 1
                  && WrittenBy(after.orders[|tables.orders|], event))
  {
    hide Verdict, RunCycle, Fold, SubmitTo, SignalFor, AccountFor, BuildCycleId, ParseTimeframe, StoredFills, PositionRowOf,
         SnapshotRowOf, AlreadyExecuted;
    CycleWrites(event.bot, event.input, tables);
    CompletedReadsTimeframe(event.bot, event.input, tables);
    var report := RunCycle(event.bot, event.input, tables).report;
    if report.execution.Some? {
      IntentIsSound(event.bot.limits, RequestFor(event.bot, event.input, report.account));
    }
  }

  lemma CompletedReadsTimeframe(bot: Bot, input: Input, tables: Tables)
    requires bot.Valid() && input.Valid(bot) && RunCycle(bot, input, tables).Completed?
    ensures ParseTimeframe(bot.timeframe).Success?
  {
    hide ParseTimeframe, AccountFor, Trade, SignalFor, BuildCycleId;
  }

  lemma {:induction false} EveryRowIsWritten(events: seq<Event>, i: nat) returns (j: nat)
    requires ValidEvents(events) && i < |Run(events).orders|
    ensures j < |events| && WrittenBy(Run(events).orders[i], events[j])
  {
    hide RunCycle, WrittenBy;
    var init, e := events[..|events| - 1], events[|events| - 1];
    var before := Run(init);
    if RunCycle(e.bot, e.input, before).Completed? {
      NewRowIsWritten(e, before);
    }
    if i < |before.orders| {
      j := EveryRowIsWritten(init, i);
    } else {
      j := |events| - 1;
    }
  }

  /** A committed order carries the id that a cycle is about to use exactly when it is of
      the same side, condensed symbol, timeframe and opening second. */
  lemma SameIdExactlyWhen(row: OrderRow, event: Event, bot: Bot, input: Input, side: Side)
    requires event.Valid() && WrittenBy(row, event)
    requires bot.Valid() && input.Valid(bot) && input.feed.Observed? && ParseTimeframe(bot.timeframe).Success?
    ensures row.clientOrderId == ClientOrderId(BuildCycleId(input.feed.snapshot), side) <==>
              && row.side == side
              && Condensed(row.symbol) == Condensed(bot.symbol)
              && event.bot.timeframe == bot.timeframe
              && SameSecond(event.input.feed.snapshot.AsOf(), input.feed.snapshot.AsOf())
  {
    hide Condensed, SameSecond, ParseTimeframe, ClientOrderId, CycleId;
    var s, s' := event.input.feed.snapshot, input.feed.snapshot;
    CycleIdIdentifiesBar(s.symbol, s.timeframe, s.AsOf(), s'.symbol, s'.timeframe, s'.AsOf());
    if row.clientOrderId == ClientOrderId(BuildCycleId(s'), side) {
      ClientOrderIdIdentifiesOrder(row.cycleId, row.side, BuildCycleId(s'), side);
    }
  }

  /** An order of another symbol, under the id a cycle is about to use. */
  ghost predicate ForeignOrder(orders: seq<OrderRow>, symbol: string, id: string) {
    exists i :: 0 <= i < |orders| && orders[i].clientOrderId == id
             && orders[i].symbol != symbol && Condensed(orders[i].symbol) == Condensed(symbol)
  }

  lemma {:induction false} OwnRows(rows: seq<OrderRow>, symbol: string, id: string)
    ensures AlreadyExecuted(OrdersFor(rows, symbol), id) <==>
              exists i :: 0 <= i < |rows| && rows[i].symbol == symbol && rows[i].clientOrderId == id
  {
    if |rows| > 0 {
      var init, row, own := rows[..|rows| - 1], rows[|rows| - 1], OrdersFor(rows, symbol);
      OwnRows(init, symbol, id);
      if AlreadyExecuted(OrdersFor(init, symbol), id) {
        var i :| 0 <= i < |init| && init[i].symbol == symbol && init[i].clientOrderId == id;
        assert rows[i] == init[i];
        var k :| 0 <= k < |OrdersFor(init, symbol)| && OrdersFor(init, symbol)[k].clientOrderId == id;
        assert own[k].clientOrderId == id;
      } else if row.symbol == symbol && row.clientOrderId == id {
        assert own[|own| - 1] == row;
      } else {
        assert forall i :: 0 <= i < |init| ==> init[i] == rows[i];
      }
    }
  }

  /** The duplicate check looks at all symbols' orders. In any run it finds the id of a
      bar exactly when the symbol's own book has it, or an order of another symbol
      with the same condensed spelling does. */
  lemma SuppressedExactlyWhen(events: seq<Event>, bot: Bot, input: Input, side: Side)
    requires ValidEvents(events)
    requires bot.Valid() && input.Valid(bot) && input.feed.Observed? && ParseTimeframe(bot.timeframe).Success?
    ensures var id, tables := ClientOrderId(BuildCycleId(input.feed.snapshot), side), Run(events);
            AlreadyExecuted(tables.orders, id) <==>
              AlreadyExecuted(BookOf(tables, bot.symbol).orders, id) || ForeignOrder(tables.orders, bot.symbol, id)
  {
    hide Run, Condensed, BuildCycleId, ClientOrderId, ParseTimeframe, OrdersFor, SnapshotsFor, SameSecond, WrittenBy;
    var id, orders := ClientOrderId(BuildCycleId(input.feed.snapshot), side), Run(events).orders;
    OwnRows(orders, bot.symbol, id);
    if AlreadyExecuted(orders, id) {
      var i :| 0 <= i < |orders| && orders[i].clientOrderId == id;
      var j := EveryRowIsWritten(events, i);
      SameIdExactlyWhen(orders[i], events[j], bot, input, side);
    }
  }

  /** No other symbol in the run is spelled like `symbol` in cycle ids. */
  predicate DistinctSpelling(events: seq<Event>, symbol: string) {
    forall i :: 0 <= i < |events| && events[i].bot.symbol != symbol ==>
      Condensed(events[i].bot.symbol) != Condensed(symbol)
  }

  lemma NoForeignOrder(events: seq<Event>, symbol: string, id: string)
    requires ValidEvents(events) && DistinctSpelling(events, symbol)
    ensures !ForeignOrder(Run(events).orders, symbol, id)
  {
    hide Run, Condensed;
    var orders := Run(events).orders;
    if ForeignOrder(orders, symbol, id) {
      var i :| 0 <= i < |orders| && orders[i].clientOrderId == id
            && orders[i].symbol != symbol && Condensed(orders[i].symbol) == Condensed(symbol);
      var j := EveryRowIsWritten(events, i);
      assert false;
    }
  }

  // ---------- A run without the other symbols ----------

  /** The events of one symbol, in order. */
  function Own(events: seq<Event>, symbol: string): (r: seq<Event>)
    requires ValidEvents(events)
    ensures ValidEvents(r) && forall i :: 0 <= i < |r| ==> r[i].bot.symbol == symbol
  {
    if |events| == 0 then []
    else
      var last := events[|events| - 1];
      Own(events[..|events| - 1], symbol) + if last.bot.symbol == symbol then [last] else []
  }

  predicate AccountReached(bot: Bot, input: Input) {
    input.feed.Observed? && ParseTimeframe(bot.timeframe).Success?
  }

  /** Two databases on which the cycle meets the same account and the same duplicate
      check make it end the same way. */
  lemma SameOutcome(bot: Bot, input: Input, t: Tables, t': Tables)
    requires bot.Valid() && input.Valid(bot)
    requires AccountReached(bot, input) ==>
               && AccountFor(bot, input, t) == AccountFor(bot, input, t')
               && (forall side {:trigger ClientOrderId(BuildCycleId(input.feed.snapshot), side)} ::
                     var id := ClientOrderId(BuildCycleId(input.feed.snapshot), side);
                     AlreadyExecuted(t.orders, id) <==> AlreadyExecuted(t'.orders, id))
    ensures var r, r' := RunCycle(bot, input, t), RunCycle(bot, input, t');
            (r.Completed? <==> r'.Completed?) && (r.Completed? ==> r.report == r'.report)
  {
    hide Verdict, Fold, SubmitTo, LoadAccountState, BuildCycleId, SignalFor, SignalRowOf, PositionRowOf, OrderRowOf,
         SnapshotRowOf, AlreadyExecuted, ParseTimeframe, IsStale, ClientOrderId;
    if AccountReached(bot, input) && AccountFor(bot, input, t).Some? {
      var req := RequestFor(bot, input, AccountFor(bot, input, t).value);
      if Verdict(bot.limits, req).intent.Some? {
        IntentIsSound(bot.limits, req);
      }
    }
  }

  lemma AdvancesIsDeterministic(bot: Bot, input: Input, k: Book, j: Book, j': Book, report: CycleReport)
    requires bot.Valid() && input.Valid(bot)
    requires Advances(bot, input, k, j, report) && Advances(bot, input, k, j', report)
    ensures j == j'
  {
    hide Verdict, Fold, SubmitTo, SignalFor, BuildCycleId, DayOpeningEquity, OrderRowOf, SnapshotRowOf, PositionRowOf, Settles,
         RequestFor;
  }

  lemma SameBookSameStep(bot: Bot, input: Input, t: Tables, t': Tables)
    requires bot.Valid() && input.Valid(bot)
    requires BookOf(t, bot.symbol) == BookOf(t', bot.symbol) && InTimeOrder(BookOf(t, bot.symbol).snapshots)
    requires AccountReached(bot, input) ==>
               forall side {:trigger ClientOrderId(BuildCycleId(input.feed.snapshot), side)} ::
                 var id := ClientOrderId(BuildCycleId(input.feed.snapshot), side);
                 AlreadyExecuted(t.orders, id) <==> AlreadyExecuted(t'.orders, id)
    ensures BookOf(Commit(bot, input, t), bot.symbol) == BookOf(Commit(bot, input, t'), bot.symbol)
  {
    hide RunCycle, Advances, AccountFor, AlreadyExecuted, ClientOrderId, BuildCycleId, ParseTimeframe, BookAccount;
    if AccountReached(bot, input) {
      AccountFromBook(bot, input, t);
      AccountFromBook(bot, input, t');
    }
    SameOutcome(bot, input, t, t');
    if RunCycle(bot, input, t).Completed? {
      CycleMovesOneBook(bot, input, t);
      CycleMovesOneBook(bot, input, t');
      AdvancesIsDeterministic(bot, input, BookOf(t, bot.symbol), BookOf(Commit(bot, input, t), bot.symbol),
                              BookOf(Commit(bot, input, t'), bot.symbol), RunCycle(bot, input, t).report);
    }
  }

  lemma SameDuplicateCheck(events: seq<Event>, others: seq<Event>, bot: Bot, input: Input, side: Side)
    requires ValidEvents(events) && DistinctSpelling(events, bot.symbol)
    requires ValidEvents(others) && DistinctSpelling(others, bot.symbol)
    requires BookOf(Run(events), bot.symbol) == BookOf(Run(others), bot.symbol)
    requires bot.Valid() && input.Valid(bot) && AccountReached(bot, input)
    ensures var id := ClientOrderId(BuildCycleId(input.feed.snapshot), side);
            AlreadyExecuted(Run(events).orders, id) <==> AlreadyExecuted(Run(others).orders, id)
  {
    hide Run, AlreadyExecuted, ForeignOrder, Condensed, BuildCycleId, ClientOrderId, ParseTimeframe;
    var id := ClientOrderId(BuildCycleId(input.feed.snapshot), side);
    SuppressedExactlyWhen(events, bot, input, side);
    SuppressedExactlyWhen(others, bot, input, side);
    NoForeignOrder(events, bot.symbol, id);
    NoForeignOrder(others, bot.symbol, id);
  }

  /** If no other symbol shares its spelling, a symbol's orders, position and snapshots
      after any run are those of the run in which the other symbols never traded. */
  lemma {:induction false} SymbolsDoNotInterfere(events: seq<Event>, bot: Bot)
    requires Serial(events) && TradedBy(events, bot) && DistinctSpelling(events, bot.symbol)
    ensures BookOf(Run(events), bot.symbol) == BookOf(Run(Own(events, bot.symbol)), bot.symbol)
  {
    hide Commit, BookOf, Condensed, AlreadyExecuted, Sound;
    if |events| > 0 {
      var init, e := events[..|events| - 1], events[|events| - 1];
      var own := Own(init, bot.symbol);
      SymbolsDoNotInterfere(init, bot);
      if e.bot.symbol == bot.symbol {
        RunIsSound(init, bot);
        InOrder(BookOf(Run(init), bot.symbol), bot.symbol);
        forall side | AccountReached(bot, e.input)
          ensures var id := ClientOrderId(BuildCycleId(e.input.feed.snapshot), side);
                  AlreadyExecuted(Run(init).orders, id) <==> AlreadyExecuted(Run(own).orders, id)
        {
          SameDuplicateCheck(init, own, bot, e.input, side);
        }
        SameBookSameStep(bot, e.input, Run(init), Run(own));
        assert Own(events, bot.symbol)[..|own|] == own;
      } else {
        OtherSymbolsStay(e, Run(init), bot.symbol);
        assert Own(events, bot.symbol) == own;
      }
    }
  }
}
