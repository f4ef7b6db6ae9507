/**
  The exchange's records: orders, commands, execution reports, level deltas
  and batches. Prices are counted in ticks; a command price that is not a
  finite number is its own case, because the exchange rejects it.
 */
module Orders {

  datatype Option<+T> = None | Some(value: T)

  datatype Side = Buy | Sell
  datatype OrderType = Limit | Market
  datatype TimeInForce = Day | Gtc | Ioc
  datatype ExecStatus = Accepted | Resting | PartialFill | Filled | Canceled | Rejected | Replaced
  datatype BookDeltaAction = Add | Modify | Delete

  // The range of the exchange's 64-bit price type. A market order is given
  // the end of the range that crosses every price.
  const MIN_TICKS := -0x8000_0000_0000_0000
  const MAX_TICKS := 0x7FFF_FFFF_FFFF_FFFF

  type PriceTicks = p: int | MIN_TICKS <= p <= MAX_TICKS witness 0

  datatype Price = Ticks(ticks: PriceTicks) | NotFinite

  // A reading of the millisecond clock, which is never zero: a zero in a
  // command means "now".
  type Clock = t: nat | t > 0 witness 1

  function EffectiveTime(time: nat, now: Clock): Clock {
    if time == 0 then now else time
  }

  datatype Order = Order(
    id: string,
    symbol: string,
    side: Side,
    kind: OrderType,
    tif: TimeInForce,
    price: int,
    original: int,
    remaining: int,
    time: nat,
    sequence: nat,
    metadata: string)

  datatype OrderCommand = OrderCommand(
    id: string,
    symbol: string,
    side: Side,
    kind: OrderType,
    tif: TimeInForce,
    price: Price,
    quantity: int,
    time: nat,
    metadata: string)

  datatype CancelCommand = CancelCommand(id: string, reason: string, time: nat)

  datatype ReplaceCommand = ReplaceCommand(id: string, price: Option<Price>, quantity: Option<int>, time: nat)

  datatype MarketDataTick = MarketDataTick(
    symbol: string,
    bestBid: Option<PriceTicks>,
    bestAsk: Option<PriceTicks>,
    last: Option<PriceTicks>,
    time: nat)

  datatype ExecutionReport = ExecutionReport(
    id: string,
    contra: string,
    symbol: string,
    side: Side,
    status: ExecStatus,
    limit: Price,
    execution: int,
    fill: int,
    remaining: int,
    time: nat,
    sequence: nat,
    reason: string,
    metadata: string)

  datatype BookDelta = BookDelta(
    symbol: string,
    action: BookDeltaAction,
    side: Side,
    price: int,
    quantity: int,
    orders: nat,
    time: nat,
    sequence: nat)

  datatype Batch = Batch(reports: seq<ExecutionReport>, deltas: seq<BookDelta>)
  {
    function Report(r: ExecutionReport): Batch { this.(reports := reports + [r]) }
    function Delta(d: BookDelta): Batch { this.(deltas := deltas + [d]) }
    function Then(b: Batch): Batch { Batch(reports + b.reports, deltas + b.deltas) }
  }

  const EMPTY := Batch([], [])

  // Where the registry says a resting order is.
  datatype Location = Location(symbol: string, side: Side, price: int)

  type Registry = map<string, Location>

  function Opposite(d: Side): Side {
    if d.Buy? then Sell else Buy
  }

  /** Price p has strictly better priority than q among resting orders of side d. */
  predicate Ahead(d: Side, p: int, q: int) {
    if d.Buy? then p > q else p < q
  }

  /** An incoming order of side d limited at `limit` may trade at `resting`. */
  predicate Crosses(d: Side, limit: int, resting: int) {
    if d.Buy? then limit >= resting else limit <= resting
  }

  function MarketBoundary(d: Side): PriceTicks {
    if d.Buy? then MAX_TICKS else MIN_TICKS
  }

  /** The market tick trades through a resting order of side d at price p. */
  predicate Triggered(d: Side, tick: MarketDataTick, p: int) {
    if d.Buy? then
      (tick.last.Some? && tick.last.value <= p) || (tick.bestAsk.Some? && tick.bestAsk.value <= p)
    else
      (tick.last.Some? && tick.last.value >= p) || (tick.bestBid.Some? && tick.bestBid.value >= p)
  }

  function Min(a: int, b: int): int {
    if a <= b then a else b
  }

  function Max(a: int, b: int): int {
    if a >= b then a else b
  }

  function Abs(a: int): int {
    if a < 0 then -a else a
  }

  function ReportFor(o: Order, status: ExecStatus, fill: int, execution: int, reason: string, time: nat, sequence: nat)
    : ExecutionReport
    requires MIN_TICKS <= o.price <= MAX_TICKS
  {
    ExecutionReport(o.id, "", o.symbol, o.side, status, Ticks(o.price), execution, fill, o.remaining,
                    time, sequence, reason, o.metadata)
  }

  function FillReport(o: Order, contra: string, fill: int, execution: int, time: nat, sequence: nat): ExecutionReport
    requires MIN_TICKS <= o.price <= MAX_TICKS
  {
    ReportFor(o, if o.remaining == 0 then Filled else PartialFill, fill, execution, "fill", time, sequence)
    .(contra := contra)
  }
}
