/** The closed string unions and the rows of the remote store that the core reads. Only
    the fields the core inspects are kept; the others are displayed and never examined. */
module DatabaseTypes {

  import opened Outcomes

  /** `trade_signals.side`. */
  datatype Side = Buy | Sell

  /** `trade_signals.status`. */
  datatype SignalStatus = Pending | Active | Completed | Cancelled

  /** The string the store holds for a status; the signal filter compares against it. */
  function StatusName(s: SignalStatus): string
  {
    match s
    case Pending => "pending"
    case Active => "active"
    case Completed => "completed"
    case Cancelled => "cancelled"
  }

  /** `fair_value_gaps.gap_type`. */
  datatype GapType = Bullish | Bearish

  /** `liquidity_zones.zone_type`. */
  datatype ZoneType = BuySide | SellSide

  /** A row of `trade_signals`; `createdAt` is the ISO timestamp the list is ordered by. */
  datatype TradeSignal = TradeSignal(
    id: string,
    pair: string,
    side: Side,
    status: SignalStatus,
    entryPrice: real,
    stopLoss: real,
    takeProfit: real,
    profitLoss: Option<real>,
    createdAt: string)

  /** A column value of a `user_settings` row or update. */
  datatype Value = Text(s: string) | Number(n: real) | Flag(b: bool)

  /** A row of `user_settings`, keyed by column name (`user_id`, `equity`, `risk_percent`,
      `preferred_pairs`, ..., `updated_at`). */
  type SettingsRow = map<string, Value>
}
