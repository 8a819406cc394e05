/** What stands between a cycle and an order: why a cycle ends early, and what it has
    seen when it does not. */
module Guards {
  import opened Results
  import opened Decimals
  import opened Timeframes
  import opened Orders
  import opened Portfolio
  import opened Ledger
  import opened Policy
  import opened SmaCrossover
  import opened Repository
  import opened CycleIds
  import opened Cycle
  import opened Runs
  import opened Caches
  import opened Recovery

  /** Market data is there, and its newest bar opened no more than three steps ago. */
  predicate Fresh(bot: Bot, input: Input)
    requires input.Valid(bot)
  {
    && input.feed.Observed? && ParseTimeframe(bot.timeframe).Success?
    && input.now - input.feed.snapshot.candles[|input.feed.snapshot.candles| - 1].openTime
       <= 3 * ParseTimeframe(bot.timeframe).value
  }

  /** Every way in which a cycle ends before it asks the venue, exactly. */
  lemma EndsEarlyExactlyWhen(bot: Bot, input: Input, tables: Tables)
    requires bot.Valid() && input.Valid(bot)
    ensures RunCycle(bot, input, tables) == Aborted(FetchFailed, None) <==> input.feed.Unavailable?
    ensures RunCycle(bot, input, tables) == Aborted(UnknownTimeframe, None) <==>
              input.feed.Observed? && ParseTimeframe(bot.timeframe).Failure?
    ensures RunCycle(bot, input, tables) == Aborted(StaleData, None) <==>
              && input.feed.Observed? && ParseTimeframe(bot.timeframe).Success?
              && input.now - input.feed.snapshot.AsOf() > 3 * ParseTimeframe(bot.timeframe).value
    ensures RunCycle(bot, input, tables) == Aborted(InvalidAccount, None) <==>
              Fresh(bot, input) && AccountFor(bot, input, tables).None?
  {
    hide Verdict, Fold, SubmitTo, LoadAccountState, BuildCycleId, SignalFor, SignalRowOf, PositionRowOf, OrderRowOf,
         SnapshotRowOf, AlreadyExecuted, ParseTimeframe;
  }

  /** And every way in which it ends at the venue. */
  lemma EndsAtVenueExactlyWhen(bot: Bot, input: Input, tables: Tables)
    requires bot.Valid() && input.Valid(bot)
    ensures RunCycle(bot, input, tables) == Aborted(SubmitFailed, None) <==>
              && IntentSent(bot, input, tables).Some?
              && SubmitTo(bot, input, IntentSent(bot, input, tables).value).None?
    ensures AnsweredBy(bot, input, tables) ==
            if IntentSent(bot, input, tables).None? then None else SubmitTo(bot, input, IntentSent(bot, input, tables).value)
  {
    hide Verdict, Fold, SubmitTo, LoadAccountState, BuildCycleId, SignalFor, SignalRowOf, PositionRowOf, OrderRowOf,
         SnapshotRowOf, AlreadyExecuted, ParseTimeframe;
  }

  /** A completed cycle reports an execution exactly when it sent an intent, and a
      suppressed duplicate exactly when it had one but its id was already used. */
  lemma ReportsWhatHappened(bot: Bot, input: Input, tables: Tables)
    requires bot.Valid() && input.Valid(bot) && RunCycle(bot, input, tables).Completed?
    ensures var report := RunCycle(bot, input, tables).report;
            && (report.execution.Some? <==> IntentSent(bot, input, tables).Some?)
            && (report.execution.Some? ==> Some(report.execution.value.intent) == report.decision.intent)
            && (report.duplicateSuppressed <==>
                  report.decision.intent.Some? && AlreadyExecuted(tables.orders, report.decision.intent.value.clientOrderId))
  {
    hide Verdict, Fold, SubmitTo, LoadAccountState, BuildCycleId, SignalFor, SignalRowOf, PositionRowOf, OrderRowOf,
         SnapshotRowOf, AlreadyExecuted, ParseTimeframe;
  }

  /** In a run the account is refused exactly when the day's opening equity is not
      positive; cash may be negative, and a position never is. */
  lemma AccountRefusedExactlyWhen(events: seq<Event>, bot: Bot, input: Input)
    requires Serial(events) && TradedBy(events, bot)
    requires bot.Valid() && input.Valid(bot) && input.feed.Observed?
    ensures var book := BookOf(Run(events), bot.symbol);
            var worth := BookCash(book, bot.initialCash) +
                         BookPosition(book, bot.symbol).NotionalAt(input.feed.snapshot.LastPrice());
            AccountFor(bot, input, Run(events)).None? <==>
              DayOpeningEquity(book.snapshots, bot.symbol, input.now, worth) <= 0.0
  {
    hide Run, AccountFor, DayOpeningEquity, Stored, Position.NotionalAt, InTimeOrder;
    RunIsSound(events, bot);
    AccountFromBook(bot, input, Run(events));
  }

  /** The action that the closes of the observed candles call for. */
  predicate CalledFor(bot: Bot, input: Input, action: Action, closes: seq<real>)
    requires bot.Valid() && input.Valid(bot) && input.feed.Observed?
  {
    && |closes| == |input.feed.snapshot.candles| && AllPositive(closes)
    && (forall i :: 0 <= i < |closes| ==> closes[i] == input.feed.snapshot.candles[i].close)
    && action == SignalAt(bot.strategy, closes, |closes| - 1)
  }

  /** A sent order was decided on fresh data with the kill switch off, at the newest
      close, now, under the id of the newest bar, on the side its closes call for. */
  lemma SentOrderIsOfThisCycle(bot: Bot, input: Input, tables: Tables) returns (closes: seq<real>)
    requires bot.Valid() && input.Valid(bot) && IntentSent(bot, input, tables).Some?
    ensures Fresh(bot, input) && !input.killSwitch
    ensures var intent, newest := IntentSent(bot, input, tables).value,
                                  input.feed.snapshot.candles[|input.feed.snapshot.candles| - 1];
            && intent.symbol == bot.symbol && intent.referencePrice == newest.close && intent.createdAt == input.now
            && intent.clientOrderId == ClientOrderId(CycleId(bot.symbol, bot.timeframe, newest.openTime), intent.side)
            && CalledFor(bot, input, if intent.side == Buy then GoLong else GoFlat, closes)
            && !AlreadyExecuted(tables.orders, intent.clientOrderId)
  {
    hide Verdict, AlreadyExecuted, ParseTimeframe, ClientOrderId, CycleId, Judge, AccountFor;
    var req := RequestFor(bot, input, AccountFor(bot, input, tables).value);
    closes := input.feed.snapshot.Closes();
    ClosesArePositive(input.feed.snapshot);
    assert closes[..|closes|] == closes;
    IntentIsSound(bot.limits, req);
    if req.killSwitch {
      TrippedMeansRefused(bot.limits, req);
    }
  }

  /** With the kill switch on, no cycle reaches the venue, and one that completes says
      why: its decision holds one check, the failed kill switch. */
  lemma KillSwitchStopsTrading(bot: Bot, input: Input, tables: Tables)
    requires bot.Valid() && input.Valid(bot) && input.killSwitch
    ensures IntentSent(bot, input, tables) == None && AnsweredBy(bot, input, tables) == None
    ensures RunCycle(bot, input, tables).Completed? ==>
              && RunCycle(bot, input, tables).report.execution == None
              && RunCycle(bot, input, tables).report.decision.checks == [RiskCheck(KillSwitch, false)]
              && RunCycle(bot, input, tables).tables.orders == tables.orders
              && RunCycle(bot, input, tables).tables.positions == tables.positions
  {
    hide Verdict, RunCycle, AccountFor, IntentSent, SubmitTo, Fold;
    EndsAtVenueExactlyWhen(bot, input, tables);
    if IntentSent(bot, input, tables).Some? {
      var _ := SentOrderIsOfThisCycle(bot, input, tables);
    }
    if RunCycle(bot, input, tables).Completed? {
      CycleWrites(bot, input, tables);
      KilledAtOnce(bot.limits, RequestFor(bot, input, RunCycle(bot, input, tables).report.account));
    }
  }

  lemma KilledAtOnce(limits: RiskLimits, req: Request)
    requires limits.Valid() && req.Valid() && req.killSwitch
    ensures Verdict(limits, req).checks == [RiskCheck(KillSwitch, false)] && Verdict(limits, req).intent == None
  {
    hide Verdict;
    TrippedMeansRefused(limits, req);
    AuditTrail(limits, req);
    ChecksTellTheTruth(limits, req);
    FirstIsKillSwitch(limits, req);
  }

  lemma FirstIsKillSwitch(limits: RiskLimits, req: Request)
    requires req.Valid()
    ensures |Verdict(limits, req).checks| > 0 && Verdict(limits, req).checks[0] == RiskCheck(KillSwitch, !req.killSwitch)
  {
    GauntletNames(limits, req);
    RulingIsPrefix(Gauntlet(limits, req), Wanted(limits, req));
  }
}
