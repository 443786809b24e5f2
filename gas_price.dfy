/**
 * The pure part of the gas-price helper: the price table built from a
 * gas-oracle response, the resolution of a speed name to a whole number of
 * gwei, and the conversion of gwei to the chain's base unit.
 *
 * JavaScript numbers are modelled as exact reals (and `parseInt` results as
 * integers); the fetch itself is not modelled, its parsed body is a parameter.
 */
module GasPrice {
  import opened Wrappers

  // ---------------------------------------------------------------------------
  // Speed names
  // ---------------------------------------------------------------------------

  /** The seven speed names a caller may pass: the type `typeof gasSpeed[number]`. */
  datatype Speed = Safe | SafeLow | Low | Std | Standard | Fast | Fastest

  /** The string literal each speed stands for. */
  function Name(s: Speed): string {
    match s
    case Safe => "safe"
    case SafeLow => "safeLow"
    case Low => "low"
    case Std => "std"
    case Standard => "standard"
    case Fast => "fast"
    case Fastest => "fastest"
  }

  /** The exported `gasSpeed` array, in its declared order. */
  const GAS_SPEED: seq<string> := ["safe", "safeLow", "low", "std", "standard", "fast", "fastest"]

  /**
   * `Speed` is exactly the set of names in `gasSpeed`: every speed has its
   * name there, every name there belongs to one speed, and no two speeds
   * share a name. So a match over `Speed` is a switch over every name.
   */
  lemma SpeedsAreGasSpeedNames()
    ensures |GAS_SPEED| == 7
    ensures forall s: Speed :: Name(s) in GAS_SPEED
    ensures forall name :: name in GAS_SPEED ==> exists s: Speed :: Name(s) == name
    ensures forall s: Speed, t: Speed :: Name(s) == Name(t) ==> s == t
  {
    forall name | name in GAS_SPEED
      ensures exists s: Speed :: Name(s) == name
    {
      var i :| 0 <= i < |GAS_SPEED| && GAS_SPEED[i] == name;
      var s :=
        if i == 0 then Safe else if i == 1 then SafeLow else if i == 2 then Low
        else if i == 3 then Std else if i == 4 then Standard else if i == 5 then Fast
        else Fastest;
      assert Name(s) == name;
    }
  }

  // ---------------------------------------------------------------------------
  // The price table
  // ---------------------------------------------------------------------------

  /** The three entries of a price table. */
  datatype TierName = SafeLowTier | StandardTier | FastTier

  /** One entry of the table, in gwei. */
  datatype Tier = Tier(maxPriorityFee: real, maxFee: real)

  /** The record type `PricesData`. */
  datatype PricesData = PricesData(
    safeLow: Tier,
    standard: Tier,
    fast: Tier,
    estimatedBaseFee: real,
    blockTime: int,
    blockNumber: int)

  /** The entry of `prices` named by `t`. */
  function Entry(prices: PricesData, t: TierName): Tier {
    match t
    case SafeLowTier => prices.safeLow
    case StandardTier => prices.standard
    case FastTier => prices.fast
  }

  /** The `result` object of the oracle's reply, with its numeric strings already parsed. */
  datatype OracleResult = OracleResult(
    safeGasPrice: real,
    proposeGasPrice: real,
    fastGasPrice: real,
    suggestBaseFee: real,
    lastBlock: int)

  /** A truthy reply body: its `status` and its `result` object, which may be missing. */
  datatype OracleResponse = OracleResponse(status: string, result: Option<OracleResult>)

  /** What the helper throws instead of returning a price. */
  datatype Error =
    | FetchFailed   // the "Failed to fetch gas prices" error: no body, or a status other than "1"
    | ResultMissing // the TypeError thrown when a successful body has no `result` object

  /** The suggested priority fee the oracle gives for the entry `t`. */
  function Suggested(res: OracleResult, t: TierName): real {
    match t
    case SafeLowTier => res.safeGasPrice
    case StandardTier => res.proposeGasPrice
    case FastTier => res.fastGasPrice
  }

  /**
   * The invariant every table built from a reply keeps: each entry's maximum
   * fee is its priority fee on top of the estimated base fee, and the block
   * time, which the oracle does not report, is zero.
   */
  predicate Consistent(prices: PricesData) {
    && (forall t: TierName :: Entry(prices, t).maxFee == Entry(prices, t).maxPriorityFee + prices.estimatedBaseFee)
    && prices.blockTime == 0
  }

  /**
   * The status check and the construction of the price table. A missing body
   * or a status other than "1" is rejected before anything is read from the
   * body; otherwise each entry takes its suggested price from the oracle.
   */
  function BuildPrices(data: Option<OracleResponse>): (r: Result<PricesData, Error>)
    ensures r.Err? <==> data.None? || data.value.status != "1" || data.value.result.None?
    ensures (data.None? || data.value.status != "1") ==> r == Err(FetchFailed)
    ensures r.Ok? ==> Consistent(r.value)
    ensures r.Ok? ==>
      var res := data.value.result.value;
      && (forall t: TierName :: Entry(r.value, t).maxPriorityFee == Suggested(res, t))
      && r.value.estimatedBaseFee == res.suggestBaseFee
      && r.value.blockNumber == res.lastBlock
  {
    if data.None? || data.value.status != "1" then
      Err(FetchFailed)
    else if data.value.result.None? then
      Err(ResultMissing)
    else
      var res := data.value.result.value;
      Ok(PricesData(
        safeLow := Tier(res.safeGasPrice, res.safeGasPrice + res.suggestBaseFee),
        standard := Tier(res.proposeGasPrice, res.proposeGasPrice + res.suggestBaseFee),
        fast := Tier(res.fastGasPrice, res.fastGasPrice + res.suggestBaseFee),
        estimatedBaseFee := res.suggestBaseFee,
        blockTime := 0,
        blockNumber := res.lastBlock))
  }

  /**
   * With non-negative suggestions from the oracle, no entry's maximum fee
   * is below the estimated base fee.
   */
  lemma MaxFeeCoversBaseFee(data: Option<OracleResponse>)
    requires BuildPrices(data).Ok?
    requires forall t: TierName :: Suggested(data.value.result.value, t) >= 0.0
    ensures forall t: TierName :: Entry(BuildPrices(data).value, t).maxFee >= BuildPrices(data).value.estimatedBaseFee
  {
  }

  // ---------------------------------------------------------------------------
  // Speed resolution
  // ---------------------------------------------------------------------------

  /** `Math.ceil`: the least integer not below `x`. */
  function Ceil(x: real): (r: int)
    ensures x <= r as real < x + 1.0
  {
    -((-x).Floor)
  }

  /** The alias group of a speed: the entry of the table it reads. */
  function Group(s: Speed): TierName {
    if s in {Safe, SafeLow, Low} then SafeLowTier
    else if s in {Std, Standard} then StandardTier
    else FastTier
  }

  /**
   * `fromSpeed`: the ceiling of the maximum fee of the entry the speed's
   * alias group names, so never below that fee and less than one gwei above it.
   */
  function FromSpeed(prices: PricesData, speed: Speed): (r: int)
    ensures r == Ceil(Entry(prices, Group(speed)).maxFee)
    ensures Entry(prices, Group(speed)).maxFee <= r as real < Entry(prices, Group(speed)).maxFee + 1.0
  {
    match speed
    case Safe | SafeLow | Low => Ceil(prices.safeLow.maxFee)
    case Std | Standard => Ceil(prices.standard.maxFee)
    case Fast | Fastest => Ceil(prices.fast.maxFee)
  }

  /**
   * The alias groups are exactly the sets of speeds that cannot be told
   * apart: two speeds give the same price on every table if and only if they
   * belong to the same group.
   */
  lemma SamePriceIffSameGroup(s: Speed, t: Speed)
    ensures (forall prices: PricesData :: FromSpeed(prices, s) == FromSpeed(prices, t)) <==> Group(s) == Group(t)
  {
    if Group(s) != Group(t) {
      var prices := PricesData(Tier(0.0, 0.0), Tier(0.0, 1.0), Tier(0.0, 2.0), 0.0, 0, 0);
      assert FromSpeed(prices, s) != FromSpeed(prices, t);
    }
  }

  // ---------------------------------------------------------------------------
  // Gwei scaling
  // ---------------------------------------------------------------------------

  /** One gwei in the chain's base unit: 10 to the 9th. */
  const GWEI: int := 1_000_000_000

  /** `parseGwei` applied to a whole number of gwei: the amount in base units. */
  function ParseGwei(n: int): (r: int)
    ensures r % GWEI == 0 && r / GWEI == n
  {
    n * GWEI
  }

  /** The exported floor of 30 gwei. */
  const MIN_MATIC_GAS_PRICE: int := ParseGwei(30)

  lemma MinMaticGasPriceIsThirtyGwei()
    ensures MIN_MATIC_GAS_PRICE == 30 * GWEI
  {
  }

  // ---------------------------------------------------------------------------
  // The entry point
  // ---------------------------------------------------------------------------

  /** The options record `GasPriceOptions`; the two bounds are accepted but never read. */
  datatype GasPriceOptions = GasPriceOptions(
    speed: Option<Speed>,
    maxGasPrice: Option<real>,
    minGasPrice: Option<real>)

  /** `options.speed || 'standard'`: an absent or null speed means `standard`. */
  function SelectedSpeed(options: GasPriceOptions): Speed {
    options.speed.GetOr(Standard)
  }

  /**
   * `getGasPrice` on the parsed reply body `data`: the error of the table
   * construction, or the selected entry's maximum fee rounded up to whole
   * gwei and scaled to base units.
   */
  function GetGasPrice(data: Option<OracleResponse>, options: GasPriceOptions): (r: Result<int, Error>)
    ensures r.Err? <==> BuildPrices(data).Err?
    ensures r.Err? ==> r.error == BuildPrices(data).error
    ensures r.Ok? ==>
      var fee := Entry(BuildPrices(data).value, Group(SelectedSpeed(options))).maxFee;
      && r.value == Ceil(fee) * GWEI
      && fee * GWEI as real <= r.value as real < (fee + 1.0) * GWEI as real
  {
    var prices :- BuildPrices(data);
    Ok(ParseGwei(FromSpeed(prices, SelectedSpeed(options))))
  }

  /** An absent or null speed gives the same outcome as `standard`. */
  lemma DefaultSpeedIsStandard(data: Option<OracleResponse>, options: GasPriceOptions)
    requires options.speed.None?
    ensures GetGasPrice(data, options) == GetGasPrice(data, options.(speed := Some(Standard)))
  {
  }

  /** The outcome does not depend on `maxGasPrice` or `minGasPrice`: no clamping happens. */
  lemma BoundsAreIgnored(data: Option<OracleResponse>, options: GasPriceOptions, maxGasPrice: Option<real>, minGasPrice: Option<real>)
    ensures GetGasPrice(data, options) == GetGasPrice(data, options.(maxGasPrice := maxGasPrice, minGasPrice := minGasPrice))
  {
  }
}
