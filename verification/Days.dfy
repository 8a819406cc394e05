/** The daily loss limit: one opening equity per UTC day, and a tripped limit that
    stays tripped. */
module Days {
  import opened Results
  import opened Decimals
  import opened Timeframes
  import opened Orders
  import opened Portfolio
  import opened Ledger
  import opened Policy
  import opened Repository
  import opened CycleIds
  import opened Cycle
  import opened Runs
  import opened Caches
  import opened Conservation

  /** The number of a moment's UTC day, counted from the epoch's. */
  function UtcDay(moment: int): int {
    moment / 86_400_000_000
  }

  /** What the repository calls the start of a day is the midnight before, and the
      moments since then are those of that day and later ones. */
  lemma DayStartIsMidnight(now: int, t: int)
    ensures DayStart(now) == 86_400_000_000 * UtcDay(now)
    ensures 0 <= now - DayStart(now) < 86_400_000_000
    ensures t >= DayStart(now) <==> UtcDay(t) >= UtcDay(now)
    ensures DayStart(t) == DayStart(now) <==> UtcDay(t) == UtcDay(now)
  {
  }

  predicate FirstOfItsDay(rows: seq<SnapshotRow>, i: int)
    requires 0 <= i < |rows|
  {
    i == 0 || UtcDay(rows[i - 1].takenAt) < UtcDay(rows[i].takenAt)
  }

  /** Every snapshot of a day after the first carries the first one's equity as the
      day's opening equity. */
  ghost predicate OneOpeningPerDay(rows: seq<SnapshotRow>) {
    forall i, j :: 0 <= i < j < |rows| && FirstOfItsDay(rows, i) && UtcDay(rows[i].takenAt) == UtcDay(rows[j].takenAt) ==>
      rows[j].dayOpeningEquity == rows[i].equity
  }

  lemma FirstSinceIs(rows: seq<SnapshotRow>, symbol: string, moment: int, i: int)
    requires InTimeOrder(rows) && 0 <= i < |rows|
    requires forall j :: 0 <= j < |rows| ==> rows[j].symbol == symbol
    requires rows[i].takenAt >= moment && (i == 0 || rows[i - 1].takenAt < moment)
    ensures FirstSnapshotSince(rows, symbol, moment) == Some(rows[i])
  {
    var first := FirstSnapshotSince(rows, symbol, moment).value;
    var j :| 0 <= j < |rows| && rows[j] == first;
    forall m | 0 <= m < i
      ensures rows[m].takenAt < moment
    {
      if m < i - 1 {
        assert rows[m].takenAt < rows[i - 1].takenAt;
      }
    }
    assert j <= i;
  }

  lemma FirstOfDayIsFirstSince(rows: seq<SnapshotRow>, symbol: string, i: int, now: int)
    requires InTimeOrder(rows) && 0 <= i < |rows| && FirstOfItsDay(rows, i)
    requires forall j :: 0 <= j < |rows| ==> rows[j].symbol == symbol
    requires UtcDay(rows[i].takenAt) == UtcDay(now)
    ensures FirstSnapshotSince(rows, symbol, DayStart(now)) == Some(rows[i])
  {
    hide DayStart, UtcDay;
    DayStartIsMidnight(now, rows[i].takenAt);
    if i > 0 {
      DayStartIsMidnight(now, rows[i - 1].takenAt);
    }
    FirstSinceIs(rows, symbol, DayStart(now), i);
  }

  lemma OpeningStep(bot: Bot, input: Input, k: Book, k': Book, report: CycleReport)
    requires bot.Valid() && input.Valid(bot) && Advances(bot, input, k, k', report)
    requires Sound(k, bot.symbol) && AllBefore(k.snapshots, input.now) && OneOpeningPerDay(k.snapshots)
    ensures OneOpeningPerDay(k'.snapshots)
  {
    hide Verdict, Fold, SubmitTo, SignalFor, Stored, BuildCycleId, StoredFills, RequestFor, DayStart, UtcDay;
    var rows, n := k'.snapshots, |k.snapshots|;
    forall i, j | 0 <= i < j < |rows| && FirstOfItsDay(rows, i) && UtcDay(rows[i].takenAt) == UtcDay(rows[j].takenAt)
      ensures rows[j].dayOpeningEquity == rows[i].equity
    {
      if j == n {
        FirstOfDayIsFirstSince(k.snapshots, bot.symbol, i, input.now);
      } else {
        assert FirstOfItsDay(k.snapshots, i);
      }
    }
  }

  lemma {:induction false} DaysHaveOneOpening(events: seq<Event>, bot: Bot)
    requires Serial(events) && TradedBy(events, bot)
    ensures OneOpeningPerDay(BookOf(Run(events), bot.symbol).snapshots)
  {
    hide Run, Advances, Stored, OneOpeningPerDay, Sound;
    if |events| == 0 {
      EmptyBook(bot.symbol);
      assert OneOpeningPerDay([]) by {
        NoRows();
      }
    } else {
      var moved, report := LastStep(events, bot);
      var init, e := events[..|events| - 1], events[|events| - 1];
      DaysHaveOneOpening(init, bot);
      if moved {
        OpeningStep(bot, e.input, BookOf(Run(init), bot.symbol), BookOf(Run(events), bot.symbol), report);
      }
    }
  }

  /** The opening equity that a cycle of a run loads: that of the first snapshot of
      its UTC day or, on the day's first cycle, what the account is worth now. */
  lemma LoadedOpeningIsTheDays(events: seq<Event>, bot: Bot)
    requires Serial(events) && TradedBy(events, bot) && |events| > 0 && events[|events| - 1].bot == bot
    requires events[|events| - 1].input.feed.Observed?
    requires AccountFor(bot, events[|events| - 1].input, Run(events[..|events| - 1])).Some?
    ensures var before, input := Run(events[..|events| - 1]), events[|events| - 1].input;
            var rows, account := BookOf(before, bot.symbol).snapshots, AccountFor(bot, input, before).value;
            && (forall i :: 0 <= i < |rows| && FirstOfItsDay(rows, i) && UtcDay(rows[i].takenAt) == UtcDay(input.now) ==>
                  account.dayOpeningEquity == rows[i].equity)
            && ((forall i :: 0 <= i < |rows| ==> UtcDay(rows[i].takenAt) < UtcDay(input.now)) ==>
                  account.dayOpeningEquity == account.EquityAt(input.feed.snapshot.LastPrice()))
  {
    hide Run, AccountFor, DayStart, UtcDay, Stored;
    var before, input := Run(events[..|events| - 1]), events[|events| - 1].input;
    var rows := BookOf(before, bot.symbol).snapshots;
    RunIsSound(events[..|events| - 1], bot);
    AccountFromBook(bot, input, before);
    forall i | 0 <= i < |rows| && FirstOfItsDay(rows, i) && UtcDay(rows[i].takenAt) == UtcDay(input.now)
      ensures AccountFor(bot, input, before).value.dayOpeningEquity == rows[i].equity
    {
      FirstOfDayIsFirstSince(rows, bot.symbol, i, input.now);
    }
    forall i | 0 <= i < |rows| && UtcDay(rows[i].takenAt) < UtcDay(input.now)
      ensures rows[i].takenAt < DayStart(input.now)
    {
      DayStartIsMidnight(input.now, rows[i].takenAt);
    }
  }

  lemma NoRows()
    ensures OneOpeningPerDay([])
  {
  }

  /** The first cycle of a day measures its loss against itself: its profit is zero
      and, unless the kill switch is engaged, it passes the loss check. */
  lemma FirstCycleOfDayPasses(bot: Bot, input: Input, k: Book, k': Book, report: CycleReport)
    requires bot.Valid() && input.Valid(bot) && Advances(bot, input, k, k', report)
    requires forall i :: 0 <= i < |k.snapshots| ==> UtcDay(k.snapshots[i].takenAt) < UtcDay(input.now)
    ensures report.account.DailyPnlAt(input.feed.snapshot.LastPrice()) == 0.0
    ensures !input.killSwitch ==> |report.decision.checks| >= 2 && report.decision.checks[1] == RiskCheck(DailyLoss, true)
  {
    hide SubmitTo, SignalFor, Stored, BuildCycleId, StoredFills, DayStart;
    var req := RequestFor(bot, input, report.account);
    forall i | 0 <= i < |k.snapshots|
      ensures k.snapshots[i].takenAt < DayStart(input.now)
    {
      DayStartIsMidnight(input.now, k.snapshots[i].takenAt);
    }
    assert FirstSnapshotSince(k.snapshots, bot.symbol, DayStart(input.now)).None?;
    if !input.killSwitch {
      var all := Gauntlet(bot.limits, req);
      RulingIsPrefix(all, Wanted(bot.limits, req));
      var d := report.decision;
      assert all[0].passed && all[1] == RiskCheck(DailyLoss, true);
      assert d.checks[0] == all[0];
      assert d.outcome == Submit ==> d.checks == all;
    }
  }

  // ---------- Lockout ----------

  /** The loss limit, measured at `mark` against the opening of UTC day `day`, is
      breached by what is held. */
  ghost predicate Locked(book: Book, bot: Bot, day: int, mark: real) {
    && |book.snapshots| > 0
    && var first := FirstSnapshotSince(book.snapshots, bot.symbol, 86_400_000_000 * day);
       && first.Some?
       && ValueAt(BookCash(book, bot.initialCash), BookPosition(book, bot.symbol).quantity, mark) - first.value.equity
          <= -bot.limits.maxDailyLoss
  }

  lemma FirstSinceKept(rows: seq<SnapshotRow>, row: SnapshotRow, symbol: string, moment: int)
    requires FirstSnapshotSince(rows, symbol, moment).Some?
    requires AllBefore(rows, row.takenAt)
    ensures FirstSnapshotSince(rows + [row], symbol, moment) == FirstSnapshotSince(rows, symbol, moment)
  {
    assert (rows + [row])[..|rows|] == rows;
  }

  lemma LowerMarkLosesMore(cash: real, quantity: real, lower: real, mark: real)
    requires quantity >= 0.0 && lower <= mark
    ensures ValueAt(cash, quantity, lower) <= ValueAt(cash, quantity, mark)
  {
    ProductOfNonNegatives(quantity, mark - lower);
    assert quantity * (mark - lower) == quantity * mark - quantity * lower;
  }

  lemma LockedStep(bot: Bot, input: Input, k: Book, k': Book, report: CycleReport, mark: real)
    requires bot.Valid() && input.Valid(bot) && Advances(bot, input, k, k', report)
    requires Sound(k, bot.symbol) && AllBefore(k.snapshots, input.now)
    requires Locked(k, bot, UtcDay(input.now), mark) && input.feed.snapshot.LastPrice() <= mark
    ensures Locked(k', bot, UtcDay(input.now), mark)
    ensures SameHoldings(k, k', bot)
    ensures report.decision.outcome == HoldBack
  {
    hide Verdict, Fold, SubmitTo, SignalFor, Stored, BuildCycleId, StoredFills, DayStart, ValueAt;
    DayStartIsMidnight(input.now, input.now);
    var req := RequestFor(bot, input, report.account);
    var cash, quantity := BookCash(k, bot.initialCash), BookPosition(k, bot.symbol).quantity;
    LowerMarkLosesMore(cash, quantity, req.markPrice, mark);
    EquityAsValue(report.account, req.markPrice);
    TrippedMeansRefused(bot.limits, req);
    FirstSinceKept(k.snapshots, k'.snapshots[|k.snapshots|], bot.symbol, DayStart(input.now));
  }

  /** While the day is locked, a cycle does not even reach the venue. */
  lemma LockedSendsNothing(bot: Bot, input: Input, tables: Tables, mark: real)
    requires bot.Valid() && input.Valid(bot) && input.feed.Observed?
    requires Sound(BookOf(tables, bot.symbol), bot.symbol)
    requires Locked(BookOf(tables, bot.symbol), bot, UtcDay(input.now), mark)
    requires input.feed.snapshot.LastPrice() <= mark
    ensures AnsweredBy(bot, input, tables) == None
    ensures RunCycle(bot, input, tables).Aborted? ==> RunCycle(bot, input, tables).reason != SubmitFailed
    ensures RunCycle(bot, input, tables).Completed? ==>
              RunCycle(bot, input, tables).report.decision.outcome == HoldBack
  {
    hide Verdict, Fold, SubmitTo, SignalFor, Stored, BuildCycleId, StoredFills, DayStart, ValueAt, AccountFor,
         SignalRowOf, SnapshotRowOf, AlreadyExecuted, ParseTimeframe;
    DayStartIsMidnight(input.now, input.now);
    var k := BookOf(tables, bot.symbol);
    InOrder(k, bot.symbol);
    AccountFromBook(bot, input, tables);
    AccountIgnoresSignals(bot, input, tables);
    if AccountFor(bot, input, tables).Some? {
      var account := AccountFor(bot, input, tables).value;
      LowerMarkLosesMore(account.cash, account.position.quantity, input.feed.snapshot.LastPrice(), mark);
      EquityAsValue(account, input.feed.snapshot.LastPrice());
      TrippedMeansRefused(bot.limits, RequestFor(bot, input, account));
    }
  }

  lemma AccountIgnoresSignals(bot: Bot, input: Input, tables: Tables)
    requires bot.Valid() && input.Valid(bot) && input.feed.Observed?
    ensures forall signals :: AccountFor(bot, input, tables.(signals := signals)) == AccountFor(bot, input, tables)
  {
  }

  lemma EquityAsValue(account: AccountState, mark: real)
    ensures account.EquityAt(mark) == ValueAt(account.cash, account.position.quantity, mark)
  {
  }

  /** A cycle whose decision records a failed loss check locks its day at its mark
      and changes no holding. */
  lemma TripLocks(bot: Bot, input: Input, k: Book, k': Book, report: CycleReport)
    requires bot.Valid() && input.Valid(bot) && Advances(bot, input, k, k', report)
    requires Sound(k, bot.symbol) && AllBefore(k.snapshots, input.now)
    requires RiskCheck(DailyLoss, false) in report.decision.checks
    ensures Locked(k', bot, UtcDay(input.now), input.feed.snapshot.LastPrice())
    ensures SameHoldings(k, k', bot)
  {
    hide Verdict, Fold, SubmitTo, SignalFor, Stored, BuildCycleId, StoredFills, DayStart, ValueAt;
    DayStartIsMidnight(input.now, input.now);
    var req := RequestFor(bot, input, report.account);
    EquityAsValue(report.account, req.markPrice);
    FailedCheckMeansLoss(bot.limits, req);
    assert FirstSnapshotSince(k.snapshots, bot.symbol, DayStart(input.now)).Some?;
    assert Locked(k, bot, UtcDay(input.now), req.markPrice);
    LockedStep(bot, input, k, k', report, req.markPrice);
  }

  lemma FailedCheckMeansLoss(limits: RiskLimits, req: Request)
    requires req.Valid() && RiskCheck(DailyLoss, false) in Verdict(limits, req).checks
    ensures req.account.DailyPnlAt(req.markPrice) <= -limits.maxDailyLoss
  {
    var all := Gauntlet(limits, req);
    RulingIsPrefix(all, Wanted(limits, req));
    var i :| 0 <= i < |Verdict(limits, req).checks| && Verdict(limits, req).checks[i] == RiskCheck(DailyLoss, false);
    assert all[i] == RiskCheck(DailyLoss, false);
  }

  /** Every later cycle of the bot falls on UTC day `day`, and sees a
      mark no higher than `mark`. */
  predicate SameDayNoHigher(events: seq<Event>, from: int, bot: Bot, day: int, mark: real)
    requires ValidEvents(events) && 0 <= from
  {
    forall i :: from <= i < |events| && events[i].bot == bot && events[i].input.feed.Observed? ==>
      UtcDay(events[i].input.now) == day && events[i].input.feed.snapshot.LastPrice() <= mark
  }

  /** Once the limit has tripped, no order is sent and cash and position stay as they
      are for the rest of the day, as long as the mark does not rise above the mark
      it tripped at. */
  lemma {:induction false} LossLimitHoldsAllDay(events: seq<Event>, from: nat, bot: Bot, day: int, mark: real)
    requires Serial(events) && TradedBy(events, bot) && from <= |events|
    requires Locked(BookOf(Run(events[..from]), bot.symbol), bot, day, mark)
    requires SameDayNoHigher(events, from, bot, day, mark)
    ensures Locked(BookOf(Run(events), bot.symbol), bot, day, mark)
    ensures SameHoldings(BookOf(Run(events[..from]), bot.symbol), BookOf(Run(events), bot.symbol), bot)
    decreases |events|
  {
    hide Run, Advances, Stored, Sound, Locked, DayStart;
    if from == |events| {
      assert events[..from] == events;
    } else {
      var moved, report := LastStep(events, bot);
      var init, e := events[..|events| - 1], events[|events| - 1];
      assert init[..from] == events[..from];
      LossLimitHoldsAllDay(init, from, bot, day, mark);
      if moved {
        var k, k' := BookOf(Run(init), bot.symbol), BookOf(Run(events), bot.symbol);
        ObservedWhenMoved(bot, e.input, k, k', report);
        LockedStep(bot, e.input, k, k', report, mark);
      }
    }
  }

  /** The newest cycle of a run records a failed loss check. */
  lemma NewestCycleTrips(events: seq<Event>, bot: Bot)
    requires Serial(events) && TradedBy(events, bot) && |events| > 0 && events[|events| - 1].bot == bot
    requires var init, input := events[..|events| - 1], events[|events| - 1].input;
             && input.feed.Observed? && RunCycle(bot, input, Run(init)).Completed?
             && RiskCheck(DailyLoss, false) in RunCycle(bot, input, Run(init)).report.decision.checks
    ensures var init, input := events[..|events| - 1], events[|events| - 1].input;
            && Locked(BookOf(Run(events), bot.symbol), bot, UtcDay(input.now), input.feed.snapshot.LastPrice())
            && SameHoldings(BookOf(Run(init), bot.symbol), BookOf(Run(events), bot.symbol), bot)
  {
    hide RunCycle, Advances, Stored, Sound, Locked, DayStart, SameHoldings;
    var init, input := events[..|events| - 1], events[|events| - 1].input;
    RunIsSound(init, bot);
    InOrder(BookOf(Run(init), bot.symbol), bot.symbol);
    CycleMovesOneBook(bot, input, Run(init));
    BookStartsBefore(events);
    TripLocks(bot, input, BookOf(Run(init), bot.symbol), BookOf(Run(events), bot.symbol),
              RunCycle(bot, input, Run(init)).report);
  }

  /** Event `i` of the run sends no order, whether its cycle completes or aborts. */
  ghost predicate SendsNothing(events: seq<Event>, i: nat)
    requires ValidEvents(events) && i < |events|
  {
    var outcome := RunCycle(events[i].bot, events[i].input, Run(events[..i]));
    && AnsweredBy(events[i].bot, events[i].input, Run(events[..i])) == None
    && (outcome.Aborted? ==> outcome.reason != SubmitFailed)
  }

  lemma FailedLossCheckSendsNothing(bot: Bot, input: Input, tables: Tables)
    requires bot.Valid() && input.Valid(bot) && RunCycle(bot, input, tables).Completed?
    requires RiskCheck(DailyLoss, false) in RunCycle(bot, input, tables).report.decision.checks
    ensures AnsweredBy(bot, input, tables) == None
  {
    hide Verdict, RunCycle, RequestFor, Fold, SubmitTo, SignalFor, AccountFor;
    CycleWrites(bot, input, tables);
    var req := RequestFor(bot, input, RunCycle(bot, input, tables).report.account);
    FailedCheckMeansLoss(bot.limits, req);
    TrippedMeansRefused(bot.limits, req);
  }

  lemma UnobservedSendsNothing(events: seq<Event>, i: nat)
    requires ValidEvents(events) && i < |events| && events[i].input.feed.Unavailable?
    ensures SendsNothing(events, i)
  {
  }

  /** After the day is locked every cycle of the bot sends nothing. */
  lemma LockedDaySendsNothing(events: seq<Event>, from: nat, i: nat, bot: Bot, day: int, mark: real)
    requires Serial(events) && TradedBy(events, bot) && from <= i < |events| && events[i].bot == bot
    requires Locked(BookOf(Run(events[..from]), bot.symbol), bot, day, mark)
    requires SameDayNoHigher(events, from, bot, day, mark)
    ensures SendsNothing(events, i)
  {
    hide Run, RunCycle, Locked, DayStart, Sound;
    if events[i].input.feed.Observed? {
      var before := events[..i];
      assert before[..from] == events[..from];
      LossLimitHoldsAllDay(before, from, bot, day, mark);
      RunIsSound(before, bot);
      LockedSendsNothing(bot, events[i].input, Run(before), mark);
    } else {
      UnobservedSendsNothing(events, i);
    }
  }

  /** A cycle that records a failed loss check, and everything after it on its day: no
      order is sent, and orders, position and cash are those before it, as long as
      no mark rises above the one it tripped at. */
  lemma TripLocksTheDay(events: seq<Event>, trip: nat, bot: Bot)
    requires Serial(events) && TradedBy(events, bot) && trip < |events| && events[trip].bot == bot
    requires events[trip].input.feed.Observed?
    requires RunCycle(bot, events[trip].input, Run(events[..trip])).Completed?
    requires RiskCheck(DailyLoss, false) in RunCycle(bot, events[trip].input, Run(events[..trip])).report.decision.checks
    requires SameDayNoHigher(events, trip + 1, bot, UtcDay(events[trip].input.now), events[trip].input.feed.snapshot.LastPrice())
    ensures SameHoldings(BookOf(Run(events[..trip]), bot.symbol), BookOf(Run(events), bot.symbol), bot)
    ensures forall i :: trip <= i < |events| && events[i].bot == bot ==> SendsNothing(events, i)
  {
    hide Run, RunCycle, Locked, DayStart, SameDayNoHigher, BookOf, AnsweredBy;
    var upTo, day, mark := events[..trip + 1], UtcDay(events[trip].input.now), events[trip].input.feed.snapshot.LastPrice();
    assert upTo[..|upTo| - 1] == events[..trip] && upTo[|upTo| - 1] == events[trip];
    NewestCycleTrips(upTo, bot);
    LossLimitHoldsAllDay(events, trip + 1, bot, day, mark);
    FailedLossCheckSendsNothing(bot, events[trip].input, Run(events[..trip]));
    forall i | trip <= i < |events| && events[i].bot == bot
      ensures SendsNothing(events, i)
    {
      if i > trip {
        LockedDaySendsNothing(events, trip + 1, i, bot, day, mark);
      }
    }
  }
}
