/** The Hive Engine side-chain service: PEAKE balance and stake lookups over a token-balance query,
    the PEAKE price with its fallback, and the PeakeCoin reward calculator. The RPC queries
    themselves are outside the model; their outcomes are parameters. */
module Engine {
  import opened Wrappers
  import opened Numbers

  /** One row of the `tokens/balances` table; amounts are decimal text, as the chain returns them. */
  datatype HiveEngineToken = HiveEngineToken(
    symbol: string,
    name: string,
    balance: string,
    stake: string,
    delegationsIn: string,
    delegationsOut: string,
    pendingUnstake: string)

  /** The fields of a `market/metrics` row the application reads. */
  datatype TokenMarketData = TokenMarketData(symbol: string, volume: real, lastDayPrice: real, lastPrice: real)

  datatype UserTier = Professional | Enterprise | BusinessCritical
  datatype BonusType = BatchBonus | FrequencyBonus | VolumeBonus | LoyaltyBonus

  datatype PeakeCoinReward = PeakeCoinReward(
    transactionId: string,
    baseReward: real,
    multiplier: real,
    bonusType: BonusType,
    totalReward: real,
    timestamp: int)

  const PeakeSymbol := "PEAKE"
  /** Price used when no market data is available. */
  const FallbackPrice: real := 0.05

  /** `balances.find(token => token.symbol === 'PEAKE')`. */
  function FindPeake(tokens: seq<HiveEngineToken>): (r: Option<HiveEngineToken>)
    ensures r.None? <==> forall k :: 0 <= k < |tokens| ==> tokens[k].symbol != PeakeSymbol
    ensures r.Some? ==> r.value.symbol == PeakeSymbol
    ensures r.Some? ==> exists k :: 0 <= k < |tokens| && tokens[k] == r.value && (forall j :: 0 <= j < k ==> tokens[j].symbol != PeakeSymbol)
  {
    if tokens == [] then None
    else if tokens[0].symbol == PeakeSymbol then Some(tokens[0])
    else
      var r := FindPeake(tokens[1..]);
      assert forall j :: 0 < j < |tokens| ==> tokens[j] == tokens[1..][j - 1];
      r
  }

  /** `getPeakeCoinBalance`: `query` is the token-balance query, absent when the request failed. */
  function PeakeCoinBalance(query: Option<seq<HiveEngineToken>>): (r: Num)
    ensures query.None? ==> r == Finite(0.0)
    ensures query.Some? && FindPeake(query.value).None? ==> r == Finite(0.0)
    ensures query.Some? && FindPeake(query.value).Some? ==> r == ParseFloat(FindPeake(query.value).value.balance)
  {
    match query
    case None => Finite(0.0)
    case Some(tokens) =>
      match FindPeake(tokens)
      case None => Finite(0.0)
      case Some(t) => ParseFloat(t.balance)
  }

  /** `getPeakeCoinStake`: as the balance lookup, reading the staked amount. */
  function PeakeCoinStake(query: Option<seq<HiveEngineToken>>): (r: Num)
    ensures query.None? ==> r == Finite(0.0)
    ensures query.Some? && FindPeake(query.value).None? ==> r == Finite(0.0)
    ensures query.Some? && FindPeake(query.value).Some? ==> r == ParseFloat(FindPeake(query.value).value.stake)
  {
    match query
    case None => Finite(0.0)
    case Some(tokens) =>
      match FindPeake(tokens)
      case None => Finite(0.0)
      case Some(t) => ParseFloat(t.stake)
  }

  /** `getPeakeCoinPrice`: `marketData?.lastPrice || 0.05`; `market` is absent when the query
      failed or returned null. */
  function PeakeCoinPrice(market: Option<TokenMarketData>): (r: real)
    ensures market.None? || market.value.lastPrice == 0.0 ==> r == FallbackPrice
    ensures market.Some? && market.value.lastPrice != 0.0 ==> r == market.value.lastPrice
  {
    if market.Some? && market.value.lastPrice != 0.0 then market.value.lastPrice else FallbackPrice
  }

  /** The base reward rate of a transaction type; unknown types get 1. */
  function BaseRate(transactionType: string): (r: real)
    ensures 0.1 <= r <= 3.0
    ensures transactionType !in {"transfer_to_vesting", "custom_json", "comment", "vote"} ==> r == 1.0
  {
    match transactionType
    case "transfer" => 1.0
    case "transfer_to_vesting" => 2.0
    case "custom_json" => 0.5
    case "comment" => 3.0
    case "vote" => 0.1
    case _ => 1.0
  }

  /** The tier factor: 1 for professional, rising to 2 for business-critical. */
  function TierMultiplier(tier: UserTier): (r: real)
    ensures 1.0 <= r <= 2.0
    ensures r == 1.0 <==> tier == Professional
    ensures r == 2.0 <==> tier == BusinessCritical
  {
    match tier
    case Professional => 1.0
    case Enterprise => 1.5
    case BusinessCritical => 2.0
  }

  /** A batch earns a quarter more. */
  function BatchMultiplier(isBatch: bool): (r: real)
    ensures r >= 1.0 && (r > 1.0 <==> isBatch)
  {
    if isBatch then 1.25 else 1.0
  }

  /** `rate(type) * Math.min(amount / 100, 10)`. */
  function BaseReward(transactionType: string, amount: real): (r: real)
    ensures r <= 10.0 * BaseRate(transactionType)
    ensures amount >= 0.0 ==> r >= 0.0
  {
    BaseRate(transactionType) * Min(amount / 100.0, 10.0)
  }

  /** `calculatePeakeCoinRewards`; `now` is the creation time of the record. */
  function CalculatePeakeCoinRewards(transactionType: string, amount: real, isBatch: bool, tier: UserTier, now: int): (r: PeakeCoinReward)
    ensures r.transactionId == "" && r.timestamp == now
    ensures r.baseReward == BaseReward(transactionType, amount)
    ensures r.multiplier == TierMultiplier(tier) * BatchMultiplier(isBatch)
    ensures r.totalReward == r.baseReward * r.multiplier
    ensures r.bonusType == (if isBatch then BatchBonus else VolumeBonus)
  {
    var base := BaseReward(transactionType, amount);
    var tierMultiplier := TierMultiplier(tier);
    var batchMultiplier := BatchMultiplier(isBatch);
    PeakeCoinReward("", base, tierMultiplier * batchMultiplier,
      if isBatch then BatchBonus else VolumeBonus, base * tierMultiplier * batchMultiplier, now)
  }

  /** The base reward never exceeds ten times the rate, reaches it from an amount of 1000 on,
      and grows with the amount. */
  lemma BaseRewardCappedAndMonotone(transactionType: string, a1: real, a2: real)
    requires a1 <= a2
    ensures BaseReward(transactionType, a1) <= BaseReward(transactionType, a2)
    ensures BaseReward(transactionType, a2) <= 10.0 * BaseRate(transactionType)
    ensures a2 >= 1000.0 ==> BaseReward(transactionType, a2) == 10.0 * BaseRate(transactionType)
  {
    var rate := BaseRate(transactionType);
    var m1, m2 := Min(a1 / 100.0, 10.0), Min(a2 / 100.0, 10.0);
    assert m1 <= m2 <= 10.0;
    assert rate * m1 <= rate * m2 by {
      assert rate * (m2 - m1) >= 0.0;
    }
  }

  /** The multiplier is the tier's factor times 1.25 for a batch: between 1 and 2.5. */
  lemma MultiplierRange(transactionType: string, amount: real, isBatch: bool, tier: UserTier, now: int)
    ensures var r := CalculatePeakeCoinRewards(transactionType, amount, isBatch, tier, now);
      1.0 <= r.multiplier <= 2.5 && (r.multiplier > 2.0 <==> isBatch && tier == BusinessCritical)
  {
  }
}
