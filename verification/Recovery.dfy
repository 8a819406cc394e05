/** Crash and retry against a venue that rejects a repeated client order id: what the
    venue holds and what the database holds differ by exactly the fills whose
    recording was lost, and a lost fill stays lost. */
module Recovery {
  import opened Results
  import opened Decimals
  import opened Timeframes
  import opened Orders
  import opened Portfolio
  import opened Ledger
  import opened Policy
  import opened Simulator
  import opened Repository
  import opened CycleIds
  import opened Cycle
  import opened Runs
  import opened Caches
  import opened Limits
  import opened Days

  /** One order the venue executed. */
  datatype Entry = Entry(clientOrderId: string, symbol: string, fills: seq<Fill>)

  datatype World = World(tables: Tables, log: seq<Entry>)

  /** How an invocation goes: to its end; killed before it submits; killed after it
      submits but before it commits; or to its end, but with the venue's reply lost,
      which the gateway reports as a rejection. */
  datatype Fate = Finishes | DiesBeforeSubmit | DiesAfterSubmit | ReplyLost

  datatype Attempt = Attempt(bot: Bot, input: Input, fate: Fate)
  {
    predicate Valid() {
      bot.Valid() && bot.backend.Sandbox? && input.Valid(bot)
    }

    predicate Commits() {
      fate.Finishes? || fate.ReplyLost?
    }
  }

  predicate Known(log: seq<Entry>, clientOrderId: string) {
    exists i :: 0 <= i < |log| && log[i].clientOrderId == clientOrderId
  }

  /** The intent with which a cycle reaches the venue, if it gets that far. */
  function IntentSent(bot: Bot, input: Input, tables: Tables): Option<OrderIntent>
    requires bot.Valid() && input.Valid(bot)
  {
    if input.feed.Unavailable? || ParseTimeframe(bot.timeframe).Failure?
       || IsStale(input.feed.snapshot.AsOf(), ParseTimeframe(bot.timeframe).value, input.now, MAX_SNAPSHOT_AGE_FACTOR)
    then None
    else
      match AccountFor(bot, input, tables)
      case None => None
      case Some(account) =>
        var intent := Verdict(bot.limits, RequestFor(bot, input, account)).intent;
        if intent.Some? && AlreadyExecuted(tables.orders, intent.value.clientOrderId) then None else intent
  }

  /** A repeated id is never executed again. */
  predicate Executes(log: seq<Entry>, intent: OrderIntent, answer: VenueAnswer) {
    answer.Answered? && |answer.fills| > 0 && !Known(log, intent.clientOrderId)
  }

  const REJECTION := Answered(Rejected, None, [])

  function ReplyTo(log: seq<Entry>, intent: OrderIntent, attempt: Attempt): VenueAnswer {
    if attempt.input.answer.Raised? then Raised
    else if attempt.fate.ReplyLost? || Known(log, intent.clientOrderId) then REJECTION
    else attempt.input.answer
  }

  function Step(world: World, attempt: Attempt): World
    requires attempt.Valid()
  {
    var bot, input := attempt.bot, attempt.input;
    match IntentSent(bot, input, world.tables)
    case None =>
      if attempt.Commits() then world.(tables := Commit(bot, input, world.tables)) else world
    case Some(intent) =>
      var executed := !attempt.fate.DiesBeforeSubmit? && Executes(world.log, intent, input.answer);
      var reply := input.(answer := ReplyTo(world.log, intent, attempt));
      World(if attempt.Commits() then Commit(bot, reply, world.tables) else world.tables,
            if executed then world.log + [Entry(intent.clientOrderId, bot.symbol, input.answer.fills)] else world.log)
  }

  predicate ValidAttempts(attempts: seq<Attempt>) {
    forall i :: 0 <= i < |attempts| ==> attempts[i].Valid()
  }

  function Unfold(world: World, attempts: seq<Attempt>): World
    requires ValidAttempts(attempts)
  {
    if |attempts| == 0 then world
    else Step(Unfold(world, attempts[..|attempts| - 1]), attempts[|attempts| - 1])
  }

  predicate Recorded(orders: seq<OrderRow>, clientOrderId: string) {
    exists i :: 0 <= i < |orders| && orders[i].clientOrderId == clientOrderId && |orders[i].fills| > 0
  }

  function VenueQuantity(log: seq<Entry>, symbol: string): real {
    if |log| == 0 then 0.0
    else
      var last := log[|log| - 1];
      VenueQuantity(log[..|log| - 1], symbol) + if last.symbol == symbol then SignedQuantity(last.fills) else 0.0
  }

  /** The executed orders that no committed order row with fills accounts for. */
  function LostQuantity(log: seq<Entry>, orders: seq<OrderRow>, symbol: string): real {
    if |log| == 0 then 0.0
    else
      var last := log[|log| - 1];
      LostQuantity(log[..|log| - 1], orders, symbol) +
      if last.symbol == symbol && !Recorded(orders, last.clientOrderId) then SignedQuantity(last.fills) else 0.0
  }

  function DatabaseQuantity(tables: Tables, symbol: string): real {
    LoadPosition(tables.positions, symbol).quantity
  }

  predicate UniqueEntries(log: seq<Entry>) {
    forall i, j :: 0 <= i < j < |log| ==> log[i].clientOrderId != log[j].clientOrderId
  }

  /** The venue reports quantities that the columns hold exactly. */
  predicate StorableFills(fills: seq<Fill>) {
    forall i :: 0 <= i < |fills| ==> OnGrid(fills[i].quantity, COLUMN)
  }

  predicate StorableAttempt(attempt: Attempt) {
    attempt.input.answer.Answered? ==> StorableFills(attempt.input.answer.fills)
  }

  ghost predicate Reconciles(world: World) {
    && UniqueEntries(world.log)
    && (forall symbol {:trigger DatabaseQuantity(world.tables, symbol)} ::
          && OnGrid(DatabaseQuantity(world.tables, symbol), COLUMN)
          && VenueQuantity(world.log, symbol) - DatabaseQuantity(world.tables, symbol) ==
             LostQuantity(world.log, world.tables.orders, symbol))
  }

  lemma {:induction false} StorableSum(fills: seq<Fill>)
    requires StorableFills(fills)
    ensures OnGrid(SignedQuantity(fills), COLUMN)
  {
    hide OnGrid;
    if |fills| == 0 {
      GridFrom(0.0, COLUMN, 0);
    } else {
      var last := fills[|fills| - 1];
      StorableSum(fills[..|fills| - 1]);
      GridSum(SignedQuantity(fills[..|fills| - 1]), last.quantity, COLUMN);
    }
  }

  lemma LogAppended(log: seq<Entry>, entry: Entry, orders: seq<OrderRow>, symbol: string)
    ensures VenueQuantity(log + [entry], symbol) ==
            VenueQuantity(log, symbol) + if entry.symbol == symbol then SignedQuantity(entry.fills) else 0.0
    ensures LostQuantity(log + [entry], orders, symbol) ==
            LostQuantity(log, orders, symbol) +
            if entry.symbol == symbol && !Recorded(orders, entry.clientOrderId) then SignedQuantity(entry.fills) else 0.0
  {
    assert (log + [entry])[..|log|] == log;
  }

  /** An order row changes what is recorded for its own id only, and only with fills. */
  lemma {:induction false} RowAppended(log: seq<Entry>, orders: seq<OrderRow>, row: OrderRow, symbol: string)
    requires |row.fills| == 0 || !Known(log, row.clientOrderId)
    ensures LostQuantity(log, orders + [row], symbol) == LostQuantity(log, orders, symbol)
  {
    if |log| > 0 {
      var init, last := log[..|log| - 1], log[|log| - 1];
      assert forall id :: Known(init, id) ==> Known(log, id);
      RowAppended(init, orders, row, symbol);
      RecordedAppended(orders, row, last.clientOrderId);
      assert Known(log, last.clientOrderId);
    }
  }

  lemma RecordedAppended(orders: seq<OrderRow>, row: OrderRow, id: string)
    ensures Recorded(orders + [row], id) <==> Recorded(orders, id) || (row.clientOrderId == id && |row.fills| > 0)
  {
    var all := orders + [row];
    if Recorded(orders, id) {
      var i :| 0 <= i < |orders| && orders[i].clientOrderId == id && |orders[i].fills| > 0;
      assert all[i] == orders[i];
    }
    if row.clientOrderId == id && |row.fills| > 0 {
      assert all[|orders|] == row;
    }
  }

  lemma UnexecutedIsUnrecorded(orders: seq<OrderRow>, id: string)
    requires !AlreadyExecuted(orders, id)
    ensures !Recorded(orders, id)
  {
  }

  /** A cycle that completes executed exactly the intent it was going to send. */
  lemma CompletedAsSent(bot: Bot, input: Input, tables: Tables)
    requires bot.Valid() && bot.backend.Sandbox? && input.Valid(bot) && RunCycle(bot, input, tables).Completed?
    ensures var done := RunCycle(bot, input, tables);
            match done.report.execution
            case None =>
              && IntentSent(bot, input, tables) == None
              && done.tables.orders == tables.orders && done.tables.positions == tables.positions
            case Some(x) =>
              && IntentSent(bot, input, tables) == Some(x.intent)
              && input.answer.Answered? && x.fills == input.answer.fills
              && x.status == input.answer.status && x.venueOrderId == input.answer.venueOrderId
              && !AlreadyExecuted(tables.orders, x.intent.clientOrderId)
              && done.tables.orders == tables.orders + [OrderRowOf(done.report.cycleId, x)]
              && (forall s :: s != bot.symbol ==> DatabaseQuantity(done.tables, s) == DatabaseQuantity(tables, s))
              && DatabaseQuantity(done.tables, bot.symbol) ==
                 Stored(DatabaseQuantity(tables, bot.symbol) + SignedQuantity(x.fills))
  {
    hide Verdict, Fold, BuildCycleId, SignalFor, SignalRowOf, PositionRowOf, OrderRowOf, SnapshotRowOf,
         AlreadyExecuted, Stored, SignedQuantity, RequestFor, LoadAccountState;
    var done := RunCycle(bot, input, tables);
    CycleWrites(bot, input, tables);
    if done.report.execution.Some? {
      var account, x := done.report.account, done.report.execution.value;
      AccountPosition(bot, input, tables);
      FoldConserves(account.cash, account.position, x.fills);
      SavedQuantity(Fold(account.cash, account.position, x.fills).value.position, input.now);
    }
  }

  lemma AccountPosition(bot: Bot, input: Input, tables: Tables)
    requires bot.Valid() && input.Valid(bot) && input.feed.Observed?
    ensures AccountFor(bot, input, tables).Some? ==>
              AccountFor(bot, input, tables).value.position == LoadPosition(tables.positions, bot.symbol)
  {
  }

  lemma SavedQuantity(position: Position, now: int)
    ensures PositionRowOf(position, now).quantity == Stored(position.quantity)
  {
  }

  lemma SentIgnoresAnswer(bot: Bot, input: Input, answer: VenueAnswer, tables: Tables)
    requires bot.Valid() && input.Valid(bot) && input.(answer := answer).Valid(bot)
    ensures IntentSent(bot, input.(answer := answer), tables) == IntentSent(bot, input, tables)
  {
  }

  /** The effect of one attempt on what is held where. */
  lemma StepReconciles(world: World, attempt: Attempt)
    requires attempt.Valid() && StorableAttempt(attempt) && Reconciles(world)
    ensures Reconciles(Step(world, attempt))
  {
    hide IntentSent, RunCycle, Recorded, Known, SignedQuantity, DatabaseQuantity, OnGrid, AlreadyExecuted;
    var bot, tables, log := attempt.bot, world.tables, world.log;
    var after := Step(world, attempt);
    match IntentSent(bot, attempt.input, tables) {
      case None =>
        if attempt.Commits() && RunCycle(bot, attempt.input, tables).Completed? {
          CompletedAsSent(bot, attempt.input, tables);
          SamePositions(tables, after.tables);
        }
      case Some(intent) =>
        var reply := attempt.input.(answer := ReplyTo(log, intent, attempt));
        if Executes(log, intent, attempt.input.answer) {
          NewEntryIsUnique(log, intent, attempt.input.answer, bot.symbol);
        }
        IntentIsUnexecuted(bot, attempt.input, tables);
        forall symbol
          ensures OnGrid(DatabaseQuantity(after.tables, symbol), COLUMN)
          ensures VenueQuantity(after.log, symbol) - DatabaseQuantity(after.tables, symbol) ==
                  LostQuantity(after.log, after.tables.orders, symbol)
        {
          if attempt.Commits() && RunCycle(bot, reply, tables).Completed? {
            CommitReconciles(world, attempt, intent, symbol);
          } else {
            LossReconciles(world, attempt, intent, symbol);
          }
        }
    }
  }

  lemma SamePositions(tables: Tables, after: Tables)
    requires after.positions == tables.positions
    ensures forall s :: DatabaseQuantity(after, s) == DatabaseQuantity(tables, s)
  {
  }

  lemma NewEntryIsUnique(log: seq<Entry>, intent: OrderIntent, answer: VenueAnswer, symbol: string)
    requires UniqueEntries(log) && Executes(log, intent, answer)
    ensures UniqueEntries(log + [Entry(intent.clientOrderId, symbol, answer.fills)])
  {
  }

  lemma IntentIsUnexecuted(bot: Bot, input: Input, tables: Tables)
    requires bot.Valid() && input.Valid(bot) && IntentSent(bot, input, tables).Some?
    ensures !AlreadyExecuted(tables.orders, IntentSent(bot, input, tables).value.clientOrderId)
  {
  }

  /** Nothing committed: whatever the venue executed is lost. */
  lemma LossReconciles(world: World, attempt: Attempt, intent: OrderIntent, symbol: string)
    requires attempt.Valid() && Reconciles(world)
    requires IntentSent(attempt.bot, attempt.input, world.tables) == Some(intent)
    requires Step(world, attempt).tables == world.tables
    ensures var after := Step(world, attempt);
            && OnGrid(DatabaseQuantity(after.tables, symbol), COLUMN)
            && VenueQuantity(after.log, symbol) - DatabaseQuantity(after.tables, symbol) ==
               LostQuantity(after.log, after.tables.orders, symbol)
  {
    hide IntentSent, RunCycle, Known, SignedQuantity, DatabaseQuantity, OnGrid, AlreadyExecuted, Commit, VenueQuantity, LostQuantity;
    IntentIsUnexecuted(attempt.bot, attempt.input, world.tables);
    UnexecutedIsUnrecorded(world.tables.orders, intent.clientOrderId);
    assert OnGrid(DatabaseQuantity(world.tables, symbol), COLUMN);
    LogAppended(world.log, Entry(intent.clientOrderId, attempt.bot.symbol,
                                 if attempt.input.answer.Answered? then attempt.input.answer.fills else []),
                world.tables.orders, symbol);
  }

  /** Committed: executed and answered fills are recorded, anything else is lost. */
  lemma CommitReconciles(world: World, attempt: Attempt, intent: OrderIntent, symbol: string)
    requires attempt.Valid() && StorableAttempt(attempt) && Reconciles(world) && attempt.Commits()
    requires IntentSent(attempt.bot, attempt.input, world.tables) == Some(intent)
    requires RunCycle(attempt.bot, attempt.input.(answer := ReplyTo(world.log, intent, attempt)), world.tables).Completed?
    ensures var after := Step(world, attempt);
            && OnGrid(DatabaseQuantity(after.tables, symbol), COLUMN)
            && VenueQuantity(after.log, symbol) - DatabaseQuantity(after.tables, symbol) ==
               LostQuantity(after.log, after.tables.orders, symbol)
  {
    hide IntentSent, RunCycle, Known, SignedQuantity, DatabaseQuantity, OnGrid, AlreadyExecuted, VenueQuantity, LostQuantity,
         Recorded, Stored;
    var bot, tables, log := attempt.bot, world.tables, world.log;
    var answer := ReplyTo(log, intent, attempt);
    var reply := attempt.input.(answer := answer);
    var after := Step(world, attempt);
    SentIgnoresAnswer(bot, attempt.input, answer, tables);
    CompletedAsSent(bot, reply, tables);
    var done := RunCycle(bot, reply, tables);
    var x := done.report.execution.value;
    var row := OrderRowOf(done.report.cycleId, x);
    assert OnGrid(DatabaseQuantity(tables, symbol), COLUMN) && OnGrid(DatabaseQuantity(tables, bot.symbol), COLUMN);
    StorableSum(x.fills);
    GridSum(DatabaseQuantity(tables, bot.symbol), SignedQuantity(x.fills), COLUMN);
    StoredOnce(DatabaseQuantity(tables, bot.symbol) + SignedQuantity(x.fills));
    IntentIsUnexecuted(bot, attempt.input, tables);
    UnexecutedIsUnrecorded(tables.orders, intent.clientOrderId);
    RowAppended(log, tables.orders, row, symbol);
    RecordedAppended(tables.orders, row, intent.clientOrderId);
    if |x.fills| == 0 {
      NothingMoves(x.fills);
    }
    if Executes(log, intent, attempt.input.answer) {
      LogAppended(log, Entry(intent.clientOrderId, bot.symbol, attempt.input.answer.fills), after.tables.orders, symbol);
    }
  }

  lemma NothingMoves(fills: seq<Fill>)
    requires |fills| == 0
    ensures SignedQuantity(fills) == 0.0
  {
  }

  const START := World(EMPTY, [])

  predicate StorableAttempts(attempts: seq<Attempt>) {
    forall i :: 0 <= i < |attempts| ==> StorableAttempt(attempts[i])
  }

  /** An attempt makes the venue execute its order. */
  predicate Executed(world: World, attempt: Attempt)
    requires attempt.Valid()
  {
    var intent := IntentSent(attempt.bot, attempt.input, world.tables);
    intent.Some? && !attempt.fate.DiesBeforeSubmit? && Executes(world.log, intent.value, attempt.input.answer)
  }

  /** An attempt loses what it executed: killed in the window between submit and
      commit, its reply lost, or rolled back by the ledger. */
  predicate Loses(world: World, attempt: Attempt)
    requires attempt.Valid()
  {
    && Executed(world, attempt)
    && match attempt.fate
       case DiesBeforeSubmit => false
       case DiesAfterSubmit => true
       case ReplyLost => true
       case Finishes => RunCycle(attempt.bot, attempt.input, world.tables).Aborted?
  }

  function LossOf(world: World, attempt: Attempt, symbol: string): real
    requires attempt.Valid()
  {
    if attempt.bot.symbol == symbol && Loses(world, attempt) then SignedQuantity(attempt.input.answer.fills) else 0.0
  }

  /** The net fills lost by the attempts, each in the world it met. */
  function LossesOver(world: World, attempts: seq<Attempt>, symbol: string): real
    requires ValidAttempts(attempts)
  {
    if |attempts| == 0 then 0.0
    else
      var init, last := attempts[..|attempts| - 1], attempts[|attempts| - 1];
      LossesOver(world, init, symbol) + LossOf(Unfold(world, init), last, symbol)
  }

  /** What an attempt loses is what becomes executed and unrecorded. */
  lemma StepLoses(world: World, attempt: Attempt, symbol: string)
    requires attempt.Valid()
    ensures var after := Step(world, attempt);
            LostQuantity(after.log, after.tables.orders, symbol) ==
            LostQuantity(world.log, world.tables.orders, symbol) + LossOf(world, attempt, symbol)
  {
    hide IntentSent, RunCycle, Recorded, Known, SignedQuantity, AlreadyExecuted, VenueQuantity, LostQuantity;
    var bot, tables, log := attempt.bot, world.tables, world.log;
    match IntentSent(bot, attempt.input, tables) {
      case None =>
        if attempt.Commits() && RunCycle(bot, attempt.input, tables).Completed? {
          CompletedAsSent(bot, attempt.input, tables);
        }
      case Some(intent) =>
        var answer := attempt.input.answer;
        var entry := Entry(intent.clientOrderId, bot.symbol, if answer.Answered? then answer.fills else []);
        IntentIsUnexecuted(bot, attempt.input, tables);
        UnexecutedIsUnrecorded(tables.orders, intent.clientOrderId);
        LogAppended(log, entry, Step(world, attempt).tables.orders, symbol);
        if attempt.Commits() && RunCycle(bot, attempt.input.(answer := ReplyTo(log, intent, attempt)), tables).Completed? {
          CommitRecords(world, attempt, intent, symbol);
        }
    }
  }

  /** A commit records fills exactly when they were executed and the reply arrived. */
  lemma CommitRecords(world: World, attempt: Attempt, intent: OrderIntent, symbol: string)
    requires attempt.Valid() && attempt.Commits()
    requires IntentSent(attempt.bot, attempt.input, world.tables) == Some(intent)
    requires RunCycle(attempt.bot, attempt.input.(answer := ReplyTo(world.log, intent, attempt)), world.tables).Completed?
    ensures var after := Step(world, attempt);
            && LostQuantity(world.log, after.tables.orders, symbol) == LostQuantity(world.log, world.tables.orders, symbol)
            && (Recorded(after.tables.orders, intent.clientOrderId) <==>
                  attempt.fate.Finishes? && Executes(world.log, intent, attempt.input.answer))
  {
    hide IntentSent, RunCycle, Recorded, Known, SignedQuantity, AlreadyExecuted, VenueQuantity, LostQuantity, DatabaseQuantity,
         Stored;
    var bot, tables, log := attempt.bot, world.tables, world.log;
    var reply := attempt.input.(answer := ReplyTo(log, intent, attempt));
    SentIgnoresAnswer(bot, attempt.input, reply.answer, tables);
    CompletedAsSent(bot, reply, tables);
    var done := RunCycle(bot, reply, tables);
    var row := OrderRowOf(done.report.cycleId, done.report.execution.value);
    IntentIsUnexecuted(bot, attempt.input, tables);
    UnexecutedIsUnrecorded(tables.orders, intent.clientOrderId);
    RowAppended(log, tables.orders, row, symbol);
    RecordedAppended(tables.orders, row, intent.clientOrderId);
  }

  lemma {:induction false} LostIsWhatAttemptsLose(attempts: seq<Attempt>, symbol: string)
    requires ValidAttempts(attempts)
    ensures var after := Unfold(START, attempts);
            LostQuantity(after.log, after.tables.orders, symbol) == LossesOver(START, attempts, symbol)
  {
    hide Step, LossOf;
    if |attempts| > 0 {
      LostIsWhatAttemptsLose(attempts[..|attempts| - 1], symbol);
      StepLoses(Unfold(START, attempts[..|attempts| - 1]), attempts[|attempts| - 1], symbol);
    }
  }

  lemma {:induction false} RunReconciles(attempts: seq<Attempt>)
    requires ValidAttempts(attempts) && StorableAttempts(attempts)
    ensures Reconciles(Unfold(START, attempts))
  {
    hide Step, Reconciles;
    if |attempts| == 0 {
      StartReconciles();
    } else {
      RunReconciles(attempts[..|attempts| - 1]);
      StepReconciles(Unfold(START, attempts[..|attempts| - 1]), attempts[|attempts| - 1]);
    }
  }

  /** Over every interleaving of completed cycles, crashes before submit, crashes
      between submit and commit, and lost replies: the venue executes each id at most
      once, and for every symbol the venue holds beyond the database exactly the net
      fills of the attempts that lost them. */
  lemma VenueAndDatabaseReconcile(attempts: seq<Attempt>, symbol: string)
    requires ValidAttempts(attempts) && StorableAttempts(attempts)
    ensures var after := Unfold(START, attempts);
            && UniqueEntries(after.log)
            && VenueQuantity(after.log, symbol) - DatabaseQuantity(after.tables, symbol) == LossesOver(START, attempts, symbol)
  {
    hide Unfold, LossesOver, VenueQuantity, LostQuantity, DatabaseQuantity, UniqueEntries, OnGrid;
    RunReconciles(attempts);
    LostIsWhatAttemptsLose(attempts, symbol);
    assert OnGrid(DatabaseQuantity(Unfold(START, attempts).tables, symbol), COLUMN);
  }

  // ---------- When something is lost ----------

  /** The answer is made of fills of the order's own symbol and side. */
  predicate OwnAnswer(world: World, attempt: Attempt)
    requires attempt.Valid()
  {
    var intent, answer := IntentSent(attempt.bot, attempt.input, world.tables), attempt.input.answer;
    intent.Some? && answer.Answered? ==>
      forall i :: 0 <= i < |answer.fills| ==>
        answer.fills[i].symbol == intent.value.symbol && answer.fills[i].side == intent.value.side
  }

  /** An attempt that is neither killed nor cut off loses what it executed exactly when
      the venue sold more than the database holds. */
  lemma FinishedAttemptLosesExactlyWhen(world: World, attempt: Attempt)
    requires attempt.Valid() && attempt.fate.Finishes? && Executed(world, attempt) && OwnAnswer(world, attempt)
    ensures Loses(world, attempt) <==>
              && IntentSent(attempt.bot, attempt.input, world.tables).value.side == Sell
              && FilledQuantity(attempt.input.answer.fills) > DatabaseQuantity(world.tables, attempt.bot.symbol)
  {
    hide Verdict, Fold, LoadAccountState, BuildCycleId, SignalFor, AlreadyExecuted, FilledQuantity, SignalRowOf,
         PositionRowOf, OrderRowOf, SnapshotRowOf, DatabaseQuantity, RequestFor;
    var bot, input, tables := attempt.bot, attempt.input, world.tables;
    SentIsAnswered(bot, input, tables);
    RolledBackExactlyWhen(bot, input, tables);
    HeldIsLoaded(bot, input, tables);
  }

  lemma SentIsAnswered(bot: Bot, input: Input, tables: Tables)
    requires bot.Valid() && bot.backend.Sandbox? && input.Valid(bot) && input.answer.Answered?
    requires IntentSent(bot, input, tables).Some?
    ensures var x := AnsweredBy(bot, input, tables);
            && x.Some? && x.value.fills == input.answer.fills
            && x.value.intent == IntentSent(bot, input, tables).value
  {
    hide Verdict, Fold, LoadAccountState, BuildCycleId, SignalFor, AlreadyExecuted, SignalRowOf, PositionRowOf, OrderRowOf,
         SnapshotRowOf;
  }

  lemma HeldIsLoaded(bot: Bot, input: Input, tables: Tables)
    requires bot.Valid() && input.Valid(bot) && input.feed.Observed? && AccountFor(bot, input, tables).Some?
    ensures AccountFor(bot, input, tables).value.position.quantity == DatabaseQuantity(tables, bot.symbol)
  {
  }

  /** The venue, when it executes at all, fills no more than was asked. */
  predicate HonestAnswer(world: World, attempt: Attempt)
    requires attempt.Valid()
  {
    Executed(world, attempt) ==>
      var intent := IntentSent(attempt.bot, attempt.input, world.tables).value;
      Honest(intent.symbol, intent.side, intent.quantity, attempt.input.answer.fills)
  }

  /** With honest answers, only a crash between submit and commit or a lost reply loses. */
  lemma HonestLossIsACrash(world: World, attempt: Attempt)
    requires attempt.Valid() && HonestAnswer(world, attempt)
    ensures Loses(world, attempt) <==>
              Executed(world, attempt) && (attempt.fate.DiesAfterSubmit? || attempt.fate.ReplyLost?)
  {
    hide IntentSent, RunCycle, Known, Honest;
    if attempt.fate.Finishes? && Executed(world, attempt) {
      SentIsAnswered(attempt.bot, attempt.input, world.tables);
      SentOrdersAreNeverRolledBack(attempt.bot, attempt.input, world.tables);
    }
  }

  /** No attempt is killed between submit and commit or cut off from its reply, and the
      venue is honest. */
  predicate CrashFree(attempts: seq<Attempt>)
    requires ValidAttempts(attempts)
  {
    forall i :: 0 <= i < |attempts| ==>
      && (attempts[i].fate.Finishes? || attempts[i].fate.DiesBeforeSubmit?)
      && HonestAnswer(Unfold(START, attempts[..i]), attempts[i])
  }

  lemma {:induction false} CrashFreeLosesNothing(attempts: seq<Attempt>, symbol: string)
    requires ValidAttempts(attempts) && CrashFree(attempts)
    ensures LossesOver(START, attempts, symbol) == 0.0
  {
    hide Unfold, HonestAnswer, Loses, Executed;
    if |attempts| > 0 {
      var init, last := attempts[..|attempts| - 1], attempts[|attempts| - 1];
      assert forall i :: 0 <= i < |init| ==> init[i] == attempts[i] && init[..i] == attempts[..i];
      CrashFreeLosesNothing(init, symbol);
      HonestLossIsACrash(Unfold(START, init), last);
    }
  }

  /** So without crashes in that window venue and database agree on every symbol. */
  lemma CrashFreeRunsAgree(attempts: seq<Attempt>, symbol: string)
    requires ValidAttempts(attempts) && StorableAttempts(attempts) && CrashFree(attempts)
    ensures VenueQuantity(Unfold(START, attempts).log, symbol) == DatabaseQuantity(Unfold(START, attempts).tables, symbol)
  {
    hide Unfold, LossesOver, VenueQuantity, DatabaseQuantity, UniqueEntries, CrashFree, StorableAttempts;
    VenueAndDatabaseReconcile(attempts, symbol);
    CrashFreeLosesNothing(attempts, symbol);
  }

  lemma StartReconciles()
    ensures Reconciles(START)
  {
    GridFrom(0.0, COLUMN, 0);
  }

  /** A retry of an order that the venue already executed is recorded as rejected,
      without fills, and moves no quantity. */
  lemma RetryIsRejected(world: World, attempt: Attempt, intent: OrderIntent)
    requires attempt.Valid() && attempt.Commits() && attempt.input.answer.Answered?
    requires IntentSent(attempt.bot, attempt.input, world.tables) == Some(intent) && Known(world.log, intent.clientOrderId)
    ensures var after := Step(world, attempt);
            && after.log == world.log
            && |after.tables.orders| == |world.tables.orders| + 1
            && world.tables.orders <= after.tables.orders
            && after.tables.orders[|world.tables.orders|].clientOrderId == intent.clientOrderId
            && after.tables.orders[|world.tables.orders|].status == Rejected
            && after.tables.orders[|world.tables.orders|].fills == []
            && DatabaseQuantity(after.tables, attempt.bot.symbol) == Stored(DatabaseQuantity(world.tables, attempt.bot.symbol))
  {
    hide AlreadyExecuted, Known, Stored, DatabaseQuantity, SignedQuantity, Verdict, Fold;
    var bot, reply := attempt.bot, attempt.input.(answer := REJECTION);
    SentIgnoresAnswer(bot, attempt.input, REJECTION, world.tables);
    RejectionCompletes(bot, reply, world.tables);
    CompletedAsSent(bot, reply, world.tables);
    NothingMoves([]);
  }

  lemma RejectionCompletes(bot: Bot, input: Input, tables: Tables)
    requires bot.Valid() && bot.backend.Sandbox? && input.Valid(bot) && input.answer == REJECTION
    requires IntentSent(bot, input, tables).Some?
    ensures RunCycle(bot, input, tables).Completed?
  {
    hide Verdict, AlreadyExecuted, BuildCycleId, SignalFor, SignalRowOf, PositionRowOf, OrderRowOf, SnapshotRowOf, LoadAccountState;
  }

  /** What is lost stays lost: no later attempt ever records it. */
  lemma {:induction false} LostFillsAreNeverRecovered(world: World, attempts: seq<Attempt>, id: string)
    requires ValidAttempts(attempts) && Known(world.log, id) && !Recorded(world.tables.orders, id)
    ensures Known(Unfold(world, attempts).log, id) && !Recorded(Unfold(world, attempts).tables.orders, id)
  {
    hide Step, Known, Recorded;
    if |attempts| > 0 {
      LostFillsAreNeverRecovered(world, attempts[..|attempts| - 1], id);
      StepRecoversNothing(Unfold(world, attempts[..|attempts| - 1]), attempts[|attempts| - 1], id);
    }
  }

  lemma StepRecoversNothing(world: World, attempt: Attempt, id: string)
    requires attempt.Valid() && Known(world.log, id) && !Recorded(world.tables.orders, id)
    ensures Known(Step(world, attempt).log, id) && !Recorded(Step(world, attempt).tables.orders, id)
  {
    hide IntentSent, RunCycle, Recorded, AlreadyExecuted, DatabaseQuantity, SignedQuantity, Stored;
    var bot, tables := attempt.bot, world.tables;
    var after := Step(world, attempt);
    assert Known(after.log, id) by {
      var i :| 0 <= i < |world.log| && world.log[i].clientOrderId == id;
      assert after.log[i] == world.log[i];
    }
    match IntentSent(bot, attempt.input, tables) {
      case None =>
        if attempt.Commits() && RunCycle(bot, attempt.input, tables).Completed? {
          CompletedAsSent(bot, attempt.input, tables);
        }
      case Some(intent) =>
        var reply := attempt.input.(answer := ReplyTo(world.log, intent, attempt));
        if attempt.Commits() && RunCycle(bot, reply, tables).Completed? {
          SentIgnoresAnswer(bot, attempt.input, reply.answer, tables);
          CompletedAsSent(bot, reply, tables);
          var done := RunCycle(bot, reply, tables);
          RecordedAppended(tables.orders, OrderRowOf(done.report.cycleId, done.report.execution.value), id);
        }
    }
  }

  // ---------- The simulated venue ----------

  lemma VerdictIgnoresTime(limits: RiskLimits, req: Request, later: int)
    requires req.Valid()
    ensures var d, d' := Verdict(limits, req), Verdict(limits, req.(now := later));
            && (d.intent.Some? <==> d'.intent.Some?)
            && (d.intent.Some? ==> d'.intent.value == d.intent.value.(createdAt := later))
  {
    hide ShareOf, SizeFor, Quantize, LargeEnough;
    assert Gauntlet(limits, req.(now := later)) == Gauntlet(limits, req);
    assert Wanted(limits, req.(now := later)) == Wanted(limits, req).(createdAt := later);
  }

  /** The same bar, met again later the same day. */
  predicate SameBarLater(bot: Bot, first: Input, again: Input)
    requires first.Valid(bot) && again.Valid(bot)
  {
    && first.feed.Observed? && again.feed == first.feed
    && again.killSwitch == first.killSwitch
    && UtcDay(again.now) == UtcDay(first.now)
    && ParseTimeframe(bot.timeframe).Success?
    && again.now - again.feed.snapshot.AsOf() <= 3 * ParseTimeframe(bot.timeframe).value
  }

  lemma RequestLater(bot: Bot, first: Input, again: Input, tables: Tables)
    requires bot.Valid() && first.Valid(bot) && again.Valid(bot) && SameBarLater(bot, first, again)
    ensures AccountFor(bot, again, tables) == AccountFor(bot, first, tables)
    ensures AccountFor(bot, first, tables).Some? ==>
              var account := AccountFor(bot, first, tables).value;
              RequestFor(bot, again, account) == RequestFor(bot, first, account).(now := again.now)
  {
    hide SignalFor, BuildCycleId, DayStart, UtcDay;
    DayStartIsMidnight(again.now, first.now);
  }

  /** The simulated venue does not reject a repeated id. If a cycle was answered and
      then lost (its tables are the old ones), a retry of the bar is answered again:
      the same client order id, side and quantity are executed a second time. */
  lemma SimulatedRetryExecutesAgain(bot: Bot, first: Input, again: Input, tables: Tables)
    requires bot.Valid() && bot.backend.Simulated? && first.Valid(bot) && again.Valid(bot)
    requires SameBarLater(bot, first, again) && AnsweredBy(bot, first, tables).Some?
    ensures AnsweredBy(bot, again, tables).Some?
    ensures var x, x' := AnsweredBy(bot, first, tables).value, AnsweredBy(bot, again, tables).value;
            && x'.intent == x.intent.(createdAt := again.now)
            && |x.fills| == 1 == |x'.fills|
            && x'.fills[0] == x.fills[0].(filledAt := again.venueClock)
  {
    hide Verdict, Fold, LoadAccountState, BuildCycleId, SignalFor, SignalRowOf, PositionRowOf, OrderRowOf,
         SnapshotRowOf, AlreadyExecuted, SimulatedVenue.FillPrice, SimulatedVenue.FeeFor, RequestFor, ParseTimeframe, DayStart;
    RequestLater(bot, first, again, tables);
    var req := RequestFor(bot, first, AccountFor(bot, first, tables).value);
    VerdictIgnoresTime(bot.limits, req, again.now);
  }
}
