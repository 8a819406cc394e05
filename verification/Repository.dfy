/** The tables and the operations on them. NUMERIC(38, 18) columns round what is
    written; a session's changes become visible to others only when committed. */
module Repository {
  import opened Results
  import opened Decimals
  import opened Timeframes
  import opened Orders
  import opened Portfolio

  const STRENGTH_SCALE := 100_000.0

  datatype SignalRow = SignalRow(cycleId: string, symbol: string, action: Action, strength: real, asOf: int)

  datatype OrderRow = OrderRow(
    clientOrderId: string, cycleId: string, symbol: string, side: Side, quantity: real, referencePrice: real,
    status: OrderStatus, venueOrderId: Option<string>, createdAt: int, fills: seq<Fill>)

  datatype PositionRow = PositionRow(quantity: real, averagePrice: real, updatedAt: int)

  datatype SnapshotRow = SnapshotRow(
    cycleId: string, symbol: string, markPrice: real, cash: real, positionQuantity: real,
    equity: real, dayOpeningEquity: real, takenAt: int)

  datatype Tables = Tables(
    signals: seq<SignalRow>, orders: seq<OrderRow>, positions: map<string, PositionRow>, snapshots: seq<SnapshotRow>)

  const EMPTY := Tables([], [], map[], [])

  function SignalRowOf(cycleId: string, signal: Signal): SignalRow {
    SignalRow(cycleId, signal.symbol, signal.action, RoundHalfUp(signal.strength, STRENGTH_SCALE), signal.asOf)
  }

  function StoredFill(fill: Fill): Fill {
    fill.(quantity := Stored(fill.quantity), price := Stored(fill.price), fee := Stored(fill.fee))
  }

  function StoredFills(fills: seq<Fill>): (r: seq<Fill>)
    ensures |r| == |fills| && forall i :: 0 <= i < |r| ==> r[i] == StoredFill(fills[i])
  {
    seq(|fills|, i requires 0 <= i < |fills| => StoredFill(fills[i]))
  }

  function OrderRowOf(cycleId: string, execution: OrderExecution): OrderRow {
    var intent := execution.intent;
    OrderRow(intent.clientOrderId, cycleId, intent.symbol, intent.side, Stored(intent.quantity),
             Stored(intent.referencePrice), execution.status, execution.venueOrderId, intent.createdAt,
             StoredFills(execution.fills))
  }

  function PositionRowOf(position: Position, now: int): PositionRow {
    PositionRow(Stored(position.quantity), Stored(position.averagePrice), now)
  }

  function SnapshotRowOf(cycleId: string, snapshot: EquitySnapshot): SnapshotRow {
    SnapshotRow(cycleId, snapshot.symbol, Stored(snapshot.markPrice), Stored(snapshot.cash),
                Stored(snapshot.positionQuantity), Stored(snapshot.equity), Stored(snapshot.dayOpeningEquity),
                snapshot.takenAt)
  }

  /** A stored amount: the nearest multiple of 1e-18. */
  predicate Kept(written: real, read: real) {
    RoundsTo(written, read, 1_000_000_000_000_000_000.0)
  }

  lemma StoredIsKept(x: real)
    ensures Kept(x, Stored(x))
  {
    RoundHalfUpExactlyWhen(x, Stored(x), COLUMN);
  }

  /** A signal's row holds all of it, the strength in five decimals. */
  lemma SignalRowHolds(cycleId: string, signal: Signal)
    ensures var row := SignalRowOf(cycleId, signal);
            && row.cycleId == cycleId && row.symbol == signal.symbol && row.action == signal.action && row.asOf == signal.asOf
            && RoundsTo(signal.strength, row.strength, 100_000.0)
  {
    RoundHalfUpExactlyWhen(signal.strength, SignalRowOf(cycleId, signal).strength, STRENGTH_SCALE);
  }

  /** A fill's row holds all of it, its amounts in eighteen decimals. */
  lemma FillRowHolds(fill: Fill)
    ensures var row := StoredFill(fill);
            && row.clientOrderId == fill.clientOrderId && row.symbol == fill.symbol && row.side == fill.side
            && row.filledAt == fill.filledAt
            && Kept(fill.quantity, row.quantity) && Kept(fill.price, row.price) && Kept(fill.fee, row.fee)
  {
    hide Stored, Kept;
    StoredIsKept(fill.quantity);
    StoredIsKept(fill.price);
    StoredIsKept(fill.fee);
  }

  /** An order's row holds intent and answer, its amounts in eighteen decimals. */
  lemma OrderRowHolds(cycleId: string, execution: OrderExecution)
    ensures var row, intent := OrderRowOf(cycleId, execution), execution.intent;
            && row.clientOrderId == intent.clientOrderId && row.cycleId == cycleId && row.symbol == intent.symbol
            && row.side == intent.side && row.createdAt == intent.createdAt
            && row.status == execution.status && row.venueOrderId == execution.venueOrderId
            && Kept(intent.quantity, row.quantity) && Kept(intent.referencePrice, row.referencePrice)
            && |row.fills| == |execution.fills|
            && forall i :: 0 <= i < |row.fills| ==> row.fills[i] == StoredFill(execution.fills[i])
  {
    hide Stored, Kept;
    StoredIsKept(execution.intent.quantity);
    StoredIsKept(execution.intent.referencePrice);
  }

  lemma PositionRowHolds(position: Position, now: int)
    ensures var row := PositionRowOf(position, now);
            Kept(position.quantity, row.quantity) && Kept(position.averagePrice, row.averagePrice) && row.updatedAt == now
  {
    hide Stored, Kept;
    StoredIsKept(position.quantity);
    StoredIsKept(position.averagePrice);
  }

  lemma SnapshotRowHolds(cycleId: string, snapshot: EquitySnapshot)
    ensures var row := SnapshotRowOf(cycleId, snapshot);
            && row.cycleId == cycleId && row.symbol == snapshot.symbol && row.takenAt == snapshot.takenAt
            && Kept(snapshot.markPrice, row.markPrice) && Kept(snapshot.cash, row.cash)
            && Kept(snapshot.positionQuantity, row.positionQuantity) && Kept(snapshot.equity, row.equity)
            && Kept(snapshot.dayOpeningEquity, row.dayOpeningEquity)
  {
    hide Stored, Kept;
    StoredIsKept(snapshot.markPrice);
    StoredIsKept(snapshot.cash);
    StoredIsKept(snapshot.positionQuantity);
    StoredIsKept(snapshot.equity);
    StoredIsKept(snapshot.dayOpeningEquity);
  }

  /** The newest snapshot of a symbol; of several taken at once, the last inserted. */
  function LatestSnapshotFor(rows: seq<SnapshotRow>, symbol: string): (r: Option<SnapshotRow>)
    ensures r.Some? ==> r.value in rows && r.value.symbol == symbol
    ensures forall i :: 0 <= i < |rows| && rows[i].symbol == symbol ==> r.Some? && rows[i].takenAt <= r.value.takenAt
  {
    if |rows| == 0 then None
    else
      var older, row := LatestSnapshotFor(rows[..|rows| - 1], symbol), rows[|rows| - 1];
      if row.symbol == symbol && (older.None? || older.value.takenAt <= row.takenAt) then Some(row) else older
  }

  /** The oldest snapshot of a symbol taken at or after a moment; of several taken
      at once, the first inserted. */
  function FirstSnapshotSince(rows: seq<SnapshotRow>, symbol: string, moment: int): (r: Option<SnapshotRow>)
    ensures r.Some? ==> r.value in rows && r.value.symbol == symbol && r.value.takenAt >= moment
    ensures forall i :: 0 <= i < |rows| && rows[i].symbol == symbol && rows[i].takenAt >= moment ==>
              r.Some? && r.value.takenAt <= rows[i].takenAt
  {
    if |rows| == 0 then None
    else
      var others, row := FirstSnapshotSince(rows[..|rows| - 1], symbol, moment), rows[|rows| - 1];
      if row.symbol == symbol && row.takenAt >= moment && (others.None? || row.takenAt < others.value.takenAt) then Some(row)
      else others
  }

  /** Midnight UTC before `now`. */
  function DayStart(now: int): int {
    FloorToStep(now, DAY)
  }

  function DayOpeningEquity(rows: seq<SnapshotRow>, symbol: string, now: int, fallback: real): real {
    var first := FirstSnapshotSince(rows, symbol, DayStart(now));
    if first.None? then fallback else first.value.equity
  }

  function LoadPosition(positions: map<string, PositionRow>, symbol: string): Position {
    if symbol in positions then Position(symbol, positions[symbol].quantity, positions[symbol].averagePrice)
    else Flat(symbol)
  }

  function LoadCash(rows: seq<SnapshotRow>, symbol: string, initialCash: real): real {
    var latest := LatestSnapshotFor(rows, symbol);
    if latest.None? then initialCash else latest.value.cash
  }

  /** The account as the tables tell it, or None when it fails validation. */
  function LoadAccountState(
      positions: map<string, PositionRow>, rows: seq<SnapshotRow>,
      symbol: string, initialCash: real, markPrice: real, now: int): (r: Option<AccountState>)
    ensures r.Some? ==> r.value.Valid() && r.value.position.symbol == symbol
  {
    var cash, position := LoadCash(rows, symbol, initialCash), LoadPosition(positions, symbol);
    var account := AccountState(
      cash, position, DayOpeningEquity(rows, symbol, now, cash + position.NotionalAt(markPrice)));
    if account.Valid() then Some(account) else None
  }

  predicate AlreadyExecuted(orders: seq<OrderRow>, clientOrderId: string) {
    exists i :: 0 <= i < |orders| && orders[i].clientOrderId == clientOrderId
  }

  class Session {
    var signals: seq<SignalRow>
    var orders: seq<OrderRow>
    var positions: map<string, PositionRow>
    var snapshots: seq<SnapshotRow>

    function Contents(): Tables
      reads this
    {
      Tables(signals, orders, positions, snapshots)
    }

    constructor (tables: Tables)
      ensures Contents() == tables
    {
      signals, orders, positions, snapshots := tables.signals, tables.orders, tables.positions, tables.snapshots;
    }

    method RecordSignal(cycleId: string, signal: Signal)
      modifies this`signals
      ensures signals == old(signals) + [SignalRowOf(cycleId, signal)]
    {
      signals := signals + [SignalRowOf(cycleId, signal)];
    }

    method RecordExecution(cycleId: string, execution: OrderExecution)
      modifies this`orders
      ensures orders == old(orders) + [OrderRowOf(cycleId, execution)]
    {
      orders := orders + [OrderRowOf(cycleId, execution)];
    }

    method SavePosition(position: Position, now: int)
      modifies this`positions
      ensures positions == old(positions)[position.symbol := PositionRowOf(position, now)]
    {
      positions := positions[position.symbol := PositionRowOf(position, now)];
    }

    method RecordEquitySnapshot(cycleId: string, snapshot: EquitySnapshot)
      modifies this`snapshots
      ensures snapshots == old(snapshots) + [SnapshotRowOf(cycleId, snapshot)]
    {
      snapshots := snapshots + [SnapshotRowOf(cycleId, snapshot)];
    }
  }
}
