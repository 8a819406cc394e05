/** One trading cycle: market data, signal, policy, execution, persistence; and
    the process around it, which commits a completed cycle or nothing. */
module Cycle {
  import opened Results
  import opened Timeframes
  import opened Market
  import opened Orders
  import opened Portfolio
  import opened Ledger
  import opened Policy
  import opened SmaCrossover
  import opened Simulator
  import opened Repository
  import opened CycleIds

  const MAX_SNAPSHOT_AGE_FACTOR := 3

  datatype Backend = Simulated(venue: SimulatedVenue) | Sandbox

  datatype Bot = Bot(
    symbol: string, timeframe: string, initialCash: real, limits: RiskLimits, strategy: SmaConfig, backend: Backend)
  {
    predicate Valid() {
      limits.Valid() && strategy.Valid() && (backend.Simulated? ==> backend.venue.Valid())
    }
  }

  datatype Feed = Unavailable | Observed(snapshot: MarketSnapshot)

  datatype VenueAnswer = Raised | Answered(status: OrderStatus, venueOrderId: Option<string>, fills: seq<Fill>)

  /** What one cycle meets: its clock, the market data, the kill switch, and, if it
      sends an order, the venue's clock (simulated) or answer (sandbox). */
  datatype Input = Input(now: int, feed: Feed, killSwitch: bool, venueClock: int, answer: VenueAnswer)
  {
    predicate Valid(bot: Bot) {
      && (feed.Observed? ==>
            feed.snapshot.Valid() && feed.snapshot.symbol == bot.symbol && feed.snapshot.timeframe == bot.timeframe)
      && (answer.Answered? ==> ValidFills(answer.fills))
    }
  }

  datatype Abort =
    FetchFailed | UnknownTimeframe | StaleData | InvalidAccount | SubmitFailed | LedgerRejected(error: LedgerError)

  datatype CycleReport = CycleReport(
    cycleId: string, signal: Signal, account: AccountState, decision: PolicyDecision,
    execution: Option<OrderExecution>, equity: EquitySnapshot, duplicateSuppressed: bool)

  /** How a cycle ends. An aborted one may already have been answered by the venue. */
  datatype CycleOutcome =
    | Aborted(reason: Abort, answered: Option<OrderExecution>)
    | Completed(tables: Tables, report: CycleReport)

  function SubmitTo(bot: Bot, input: Input, intent: OrderIntent): (r: Option<OrderExecution>)
    requires input.Valid(bot)
    ensures r.Some? ==> r.value.intent == intent && ValidFills(r.value.fills)
  {
    match bot.backend
    case Simulated(venue) => venue.Submit(intent, input.venueClock)
    case Sandbox =>
      match input.answer
      case Raised => None
      case Answered(status, venueOrderId, fills) => Some(OrderExecution(intent, status, venueOrderId, fills))
  }

  lemma ClosesArePositive(snapshot: MarketSnapshot)
    requires snapshot.Valid()
    ensures AllPositive(snapshot.Closes())
  {
  }

  function SignalFor(bot: Bot, snapshot: MarketSnapshot): (r: Signal)
    requires bot.Valid() && snapshot.Valid()
    ensures r.Valid() && r.symbol == snapshot.symbol
  {
    ClosesArePositive(snapshot);
    OpinionStrength(bot.strategy, snapshot.Closes());
    Evaluate(bot.strategy, snapshot)
  }

  function EquityOf(input: Input, symbol: string, markPrice: real, cash: real, position: Position, opening: real): EquitySnapshot {
    EquitySnapshot(input.now, symbol, markPrice, cash, position.quantity, cash + position.NotionalAt(markPrice), opening)
  }

  /** The end of every completed cycle: one equity snapshot. */
  function Close(
      bot: Bot, input: Input, tables: Tables, req: Request, execution: Option<OrderExecution>,
      duplicate: bool, cash: real, position: Position): CycleOutcome
    requires req.Valid()
  {
    var equity := EquityOf(input, bot.symbol, req.markPrice, cash, position, req.account.dayOpeningEquity);
    Completed(
      tables.(snapshots := tables.snapshots + [SnapshotRowOf(req.cycleId, equity)]),
      CycleReport(req.cycleId, req.signal, req.account, Verdict(bot.limits, req), execution, equity, duplicate))
  }

  function RequestFor(bot: Bot, input: Input, account: AccountState): (r: Request)
    requires bot.Valid() && input.Valid(bot) && input.feed.Observed? && account.Valid()
    ensures r.Valid()
  {
    var snapshot := input.feed.snapshot;
    Request(SignalFor(bot, snapshot), account, snapshot.LastPrice(), input.killSwitch, input.now, BuildCycleId(snapshot))
  }

  /** Signal recorded, account loaded: decide, and execute if the verdict says so. */
  function Trade(bot: Bot, input: Input, noted: Tables, req: Request): CycleOutcome
    requires bot.Valid() && input.Valid(bot) && req.Valid()
  {
    var account, decision := req.account, Verdict(bot.limits, req);
    match decision.intent
    case None =>
      Close(bot, input, noted, req, None, false, account.cash, account.position)
    case Some(intent) =>
      if AlreadyExecuted(noted.orders, intent.clientOrderId) then
        Close(bot, input, noted, req, None, true, account.cash, account.position)
      else
        match SubmitTo(bot, input, intent)
        case None => Aborted(SubmitFailed, None)
        case Some(execution) =>
          match Fold(account.cash, account.position, execution.fills)
          case Failure(error) => Aborted(LedgerRejected(error), Some(execution))
          case Success(update) =>
            var executed := noted.(
              orders := noted.orders + [OrderRowOf(req.cycleId, execution)],
              positions := noted.positions[update.position.symbol := PositionRowOf(update.position, input.now)]);
            Close(bot, input, executed, req, Some(execution), false, update.cash, update.position)
  }

  function AccountFor(bot: Bot, input: Input, tables: Tables): (r: Option<AccountState>)
    requires bot.Valid() && input.Valid(bot) && input.feed.Observed?
    ensures r.Some? ==> r.value.Valid() && r.value.position.symbol == bot.symbol
  {
    LoadAccountState(tables.positions, tables.snapshots, bot.symbol, bot.initialCash, input.feed.snapshot.LastPrice(), input.now)
  }

  function RunCycle(bot: Bot, input: Input, tables: Tables): CycleOutcome
    requires bot.Valid() && input.Valid(bot)
  {
    if input.feed.Unavailable? then Aborted(FetchFailed, None)
    else
      var snapshot, step := input.feed.snapshot, ParseTimeframe(bot.timeframe);
      if step.Failure? then Aborted(UnknownTimeframe, None)
      else if IsStale(snapshot.AsOf(), step.value, input.now, MAX_SNAPSHOT_AGE_FACTOR) then Aborted(StaleData, None)
      else
        var noted := tables.(signals := tables.signals + [SignalRowOf(BuildCycleId(snapshot), SignalFor(bot, snapshot))]);
        match AccountFor(bot, input, noted)
        case None => Aborted(InvalidAccount, None)
        case Some(account) => Trade(bot, input, noted, RequestFor(bot, input, account))
  }

  /** The tables after an invocation: a cycle that does not complete leaves none of
      its writes behind. */
  function Commit(bot: Bot, input: Input, tables: Tables): Tables
    requires bot.Valid() && input.Valid(bot)
  {
    match RunCycle(bot, input, tables)
    case Aborted(_, _) => tables
    case Completed(after, _) => after
  }

  /** The answer a cycle got, whether or not it was committed. */
  function AnsweredBy(bot: Bot, input: Input, tables: Tables): Option<OrderExecution>
    requires bot.Valid() && input.Valid(bot)
  {
    match RunCycle(bot, input, tables)
    case Aborted(_, answered) => answered
    case Completed(_, report) => report.execution
  }

  class TradingCycle {
    const bot: Bot

    constructor (bot: Bot)
      requires bot.Valid()
      ensures this.bot == bot
    {
      this.bot := bot;
    }

    method Run(session: Session, input: Input) returns (r: Result<CycleReport, Abort>)
      requires bot.Valid() && input.Valid(bot)
      modifies session
      ensures match RunCycle(bot, input, old(session.Contents()))
              case Aborted(reason, _) => r == Failure(reason)
              case Completed(tables, report) => r == Success(report) && session.Contents() == tables
    {
      hide Verdict, Fold, SubmitTo, LoadAccountState, BuildCycleId, SignalFor, SignalRowOf, OrderRowOf, PositionRowOf,
           SnapshotRowOf, AlreadyExecuted, ParseTimeframe, IsStale;
      if input.feed.Unavailable? {
        return Failure(FetchFailed);
      }
      var snapshot := input.feed.snapshot;
      var step := ParseTimeframe(bot.timeframe);
      if step.Failure? {
        return Failure(UnknownTimeframe);
      }
      if IsStale(snapshot.AsOf(), step.value, input.now, MAX_SNAPSHOT_AGE_FACTOR) {
        return Failure(StaleData);
      }
      var cycleId := BuildCycleId(snapshot);
      var markPrice := snapshot.LastPrice();
      var signal := SignalFor(bot, snapshot);
      session.RecordSignal(cycleId, signal);

      var loaded := LoadAccountState(
        session.positions, session.snapshots, bot.symbol, bot.initialCash, markPrice, input.now);
      if loaded.None? {
        return Failure(InvalidAccount);
      }
      var account := loaded.value;
      var req := Request(signal, account, markPrice, input.killSwitch, input.now, cycleId);
      ghost var noted := session.Contents();
      assert RunCycle(bot, input, old(session.Contents())) == Trade(bot, input, noted, req);

      var engine := new PolicyEngine(bot.limits);
      var decision := engine.Decide(req);
      var execution: Option<OrderExecution> := None;
      var duplicateSuppressed := false;
      var cash, position := account.cash, account.position;

      if decision.outcome == Submit {
        AuditTrail(bot.limits, req);
        var intent := decision.intent.value;
        var executedBefore := AlreadyExecuted(session.orders, intent.clientOrderId);
        if executedBefore {
          duplicateSuppressed := true;
        } else {
          execution := SubmitTo(bot, input, intent);
          if execution.None? {
            return Failure(SubmitFailed);
          }
          session.RecordExecution(cycleId, execution.value);
          var update := ApplyExecution(cash, position, execution.value);
          if update.Failure? {
            return Failure(LedgerRejected(update.error));
          }
          cash, position := update.value.cash, update.value.position;
          session.SavePosition(position, input.now);
        }
      } else {
        AuditTrail(bot.limits, req);
      }
      var equity := EquitySnapshot(
        input.now, bot.symbol, markPrice, cash, position.quantity, cash + position.NotionalAt(markPrice),
        account.dayOpeningEquity);
      session.RecordEquitySnapshot(cycleId, equity);
      return Success(CycleReport(cycleId, signal, account, decision, execution, equity, duplicateSuppressed));
    }
  }

  /** The committed state, and one process run against it. */
  class Database {
    var tables: Tables

    constructor ()
      ensures tables == EMPTY
    {
      tables := EMPTY;
    }

    method Invoke(bot: Bot, input: Input) returns (ok: bool)
      requires bot.Valid() && input.Valid(bot)
      modifies this
      ensures tables == Commit(bot, input, old(tables))
      ensures ok <==> RunCycle(bot, input, old(tables)).Completed?
    {
      var session := new Session(tables);
      var cycle := new TradingCycle(bot);
      var r := cycle.Run(session, input);
      if r.Failure? {
        return false;
      }
      tables := session.Contents();
      return true;
    }
  }
}
