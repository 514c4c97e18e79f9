/** Contracts shared by the backtest engine, its books and its verifier.

    Decimals are exact reals, instants are integer milliseconds since the epoch, and the
    sequential text identifiers (`O000000000001`, `F000000000001`) are their sequence numbers.
  */
module Domain {

  datatype Option<+T> = None | Some(value: T)

  /** The named errors with which a run, a replay or a verification can stop. */
  datatype Failure =
    // raised because of the inputs, the strategy or a configured limit
    | StrategyFailure | SnapshotInvalid | UnsupportedMarket | MaximumCandles | MaximumEvents
    | InvalidExecutionPrice | InvalidMarkPrice | InvalidReferencePrice | StopBelowTick
    | InvalidIndicatorInput
    // raised only when the engine's own books disagree
    | InsufficientCash | InsufficientPosition | InvalidPortfolio
    | LedgerNegative | LedgerDivergence | IllegalTransition | InvalidContext | MissingState
    // raised by the independent checks of a finished run
    | OversoldTrade | InvalidTrade | ResultCorrupt
  {
    /** The errors that accuse the engine of disagreeing with itself. */
    predicate AccusesOwnBooks() {
      || InsufficientCash? || InsufficientPosition? || InvalidPortfolio?
      || LedgerNegative? || LedgerDivergence? || IllegalTransition?
      || InvalidContext? || MissingState?
    }
  }

  datatype Outcome<+T> = Ok(value: T) | Err(error: Failure) {
    predicate IsFailure() { Err? }

    function PropagateFailure<U>(): Outcome<U>
      requires Err?
    {
      Err(error)
    }

    function Extract(): T
      requires Ok?
    {
      value
    }
  }

  type Positive = r: real | 0.0 < r witness 1.0
  type NonNegative = r: real | 0.0 <= r
  type Bps = r: real | 0.0 <= r <= 1000.0
  type Percent = r: real | 0.0 < r < 100.0 witness 1.0
  type Count = n: nat | 1 <= n witness 1

  function Min(a: real, b: real): real { if a <= b then a else b }

  function Max(a: real, b: real): real { if a >= b then a else b }

  function Abs(a: real): real { if a >= 0.0 then a else -a }

  datatype Side = Buy | Sell
  datatype Liquidity = Maker | Taker
  datatype TimeInForce = GTC | IOC | DAY
  datatype Kind = Market | Limit(limit: Positive) | StopMarket(stop: Positive)
  datatype Status = Created | Open | Filled | Cancelled | Rejected | Expired
  datatype FillReason = MarketOpen | LimitTouched | LimitGap | StopTriggered | StopGap | ForceClose

  /** `StopLossTag` stands for the one reserved client tag; every other tag is opaque. */
  datatype Tag = NoTag | StopLossTag | OtherTag(name: string)

  datatype RejectionCode =
    | RiskHaltActive | MaximumOpenOrders | MaximumTotalOrders | InvalidQuantity | InvalidPrice
    | NotionalTooSmall | NotionalTooLarge | CashTooLow | PositionLimitExceeded | PositionTooSmall

  datatype Intent = Intent(side: Side, kind: Kind, quantity: Positive, tif: TimeInForce, tag: Tag)

  datatype Order = Order(
    id: nat, sequence: nat, createdAt: int, createdIndex: int, eligibleIndex: int,
    intent: Intent, status: Status, openedAt: Option<int>, terminalAt: Option<int>,
    rejection: Option<RejectionCode>)

  datatype Fill = Fill(
    fillId: nat, orderId: nat, reason: FillReason, liquidity: Liquidity, side: Side,
    quantity: Positive, basePrice: Positive, price: Positive, notional: Positive,
    fee: NonNegative, slippage: NonNegative, time: int, candleIndex: nat)

  /** Instrument, market and timeframe identity is one opaque number. */
  datatype CandleRecord = Candle(
    identity: int, spot: bool, closed: bool, openTime: int, closeTime: int,
    open: real, high: real, low: real, close: real)

  predicate ValidCandle(c: CandleRecord) {
    && c.openTime < c.closeTime
    && c.low <= c.open <= c.high
    && c.low <= c.close <= c.high
  }

  type Candle = c: CandleRecord | ValidCandle(c) witness Candle(0, true, true, 0, 1, 1.0, 1.0, 1.0, 1.0)

  datatype FeeModel = FeeModel(makerBps: Bps, takerBps: Bps) {
    function Rate(liquidity: Liquidity): real {
      (if liquidity == Maker then makerBps else takerBps) / 10000.0
    }
  }

  datatype SizingPolicy =
    | ExplicitQuantity
    | FixedNotional(value: Positive, reserve: NonNegative)
    | EquityPercent(value: Positive, reserve: NonNegative)

  datatype StopPolicy = StopDisabled | FixedPercent(percent: Percent)

  datatype Constraints = Constraints(
    minimumQuantity: Positive, step: Positive, tick: Positive,
    minimumNotional: NonNegative, maximumNotional: Option<Positive>)

  datatype RiskLimits = RiskLimits(
    maxOrderNotional: Option<Positive>, maxPositionNotional: Option<Positive>,
    maxOpenOrders: Count, maxTotalOrders: Count,
    maxDrawdownPct: Option<NonNegative>, stopOnMaxDrawdown: bool,
    allowAllIn: bool, quoteReserve: NonNegative, stop: StopPolicy)

  datatype RegimePolicy = RegimePolicy(
    fast: Count, slow: Count, atr: Count, volatileRatio: Positive, trendThreshold: Positive)

  datatype Config = Config(
    capital: Positive, fees: FeeModel, slippageBps: Bps, forceClose: bool,
    sizing: SizingPolicy, constraints: Constraints, limits: RiskLimits,
    historyWindow: Count, maxCandles: Count, maxOrders: Count, maxEvents: Count,
    contextStart: int, evaluationStart: int, rangeEnd: int,
    lifecycle: nat, regime: Option<RegimePolicy>)
  {
    /** The cash a BUY must leave behind. */
    function Reserve(): NonNegative {
      if limits.allowAllIn then 0.0 else limits.quoteReserve
    }

    function SlippageRate(): real { slippageBps / 10000.0 }

    /** The evaluation is not empty and starts inside the context it ends with. */
    predicate RangesNest() { contextStart <= evaluationStart < rangeEnd }
  }
}
