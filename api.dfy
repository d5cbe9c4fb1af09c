/**
 * The endpoint catalog of src/api.rs: four closed route enumerations, one per
 * product family, the `API` sum over them, and the total resolution of a route
 * to its REST path (`impl From<API> for String`).
 *
 * Every path literal of the source is written here as a root (the
 * `/<api>/<version>/` part, such as `FapiV1` for `/fapi/v1/`) followed by a
 * named tail (`PingTail` for `ping`). `Path` is the source's nested match, with
 * one function per inner match: the tail of each route comes from a table in
 * the order of the source's arms, and its root from the class of the route
 * (`Futures.TickerPrice` is one of the four routes pinned to version 2, so it
 * resolves to `FapiV2 + TickerPriceTail`, which is `/fapi/v2/ticker/price`).
 * The module also gives a recogniser per family that maps a path back to its
 * route, and the same-name correspondence between the two derivative families.
 */
module Api {
  import opened Wrappers

  /** A route of any product family. */
  datatype API =
    | Spot(spot: Spot)
    | Savings(sapi: Sapi)
    | Futures(futures: Futures)
    | FuturesCoin(coin: FuturesCoin)

  /** Spot trading routes. */
  datatype Spot =
    | Ping | Time | ExchangeInfo | Depth | Trades | HistoricalTrades | AggTrades
    | Klines | AvgPrice | Ticker24hr | Price | BookTicker | Order | OrderTest
    | OpenOrders | AllOrders | Oco | OrderList | AllOrderList | OpenOrderList
    | Account | MyTrades | UserDataStream

  /** Wallet routes, reached through the spot host. */
  datatype Sapi = AllCoins | AssetDetail | DepositAddress | SpotFuturesTransfer

  /** USDT-margined derivatives routes. */
  datatype Futures =
    | Ping | Time | ExchangeInfo | Depth | Trades | HistoricalTrades | AggTrades
    | Klines | ContinuousKlines | IndexPriceKlines | MarkPriceKlines | PremiumIndex
    | FundingRate | Ticker24hr | TickerPrice | BookTicker | AllForceOrders
    | AllOpenOrders | AllOrders | UserTrades | Order | PositionRisk | Balance
    | PositionSide | OpenInterest | OpenInterestHist | TopLongShortAccountRatio
    | TopLongShortPositionRatio | GlobalLongShortAccountRatio | TakerlongshortRatio
    | LvtKlines | IndexInfo | ChangeInitialLeverage | Account | OpenOrders
    | UserDataStream | Income | MarginType | SubAccountSummary
  {
    /** The five market-analytics routes. */
    predicate IsAnalytics() {
      || OpenInterestHist? || TopLongShortAccountRatio? || TopLongShortPositionRatio?
      || GlobalLongShortAccountRatio? || TakerlongshortRatio?
    }

    /** The routes the catalog resolves to version 2 of the derivatives API. */
    predicate IsPinnedV2() {
      TickerPrice? || PositionRisk? || Balance? || Account?
    }

    /** The routes the catalog resolves to version 1 of the derivatives API. */
    predicate IsV1() {
      !IsAnalytics() && !IsPinnedV2() && !SubAccountSummary?
    }
  }

  /** Coin-margined derivatives routes: the names of `Futures` but `SubAccountSummary`. */
  datatype FuturesCoin =
    | Ping | Time | ExchangeInfo | Depth | Trades | HistoricalTrades | AggTrades
    | Klines | ContinuousKlines | IndexPriceKlines | MarkPriceKlines | PremiumIndex
    | FundingRate | Ticker24hr | TickerPrice | BookTicker | AllForceOrders
    | AllOpenOrders | AllOrders | UserTrades | Order | PositionRisk | Balance
    | PositionSide | OpenInterest | OpenInterestHist | TopLongShortAccountRatio
    | TopLongShortPositionRatio | GlobalLongShortAccountRatio | TakerlongshortRatio
    | LvtKlines | IndexInfo | ChangeInitialLeverage | Account | OpenOrders
    | UserDataStream | Income | MarginType
  {
    /** The five market-analytics routes. */
    predicate IsAnalytics() {
      || OpenInterestHist? || TopLongShortAccountRatio? || TopLongShortPositionRatio?
      || GlobalLongShortAccountRatio? || TakerlongshortRatio?
    }

    /** The routes the catalog resolves to version 2 of the derivatives API. */
    predicate IsPinnedV2() {
      TickerPrice? || PositionRisk? || Balance? || Account?
    }

    /** The routes the catalog resolves to version 1 of the derivatives API. */
    predicate IsV1() {
      !IsAnalytics() && !IsPinnedV2()
    }
  }

  // ---------------------------------------------------------------------------
  // Roots and tails of the path literals (src/api.rs:147-256)
  // ---------------------------------------------------------------------------

  const ApiV3 := "/api/v3/"
  const SapiV1 := "/sapi/v1/"
  const SapiV2 := "/sapi/v2/"
  const FapiV1 := "/fapi/v1/"
  const FapiV2 := "/fapi/v2/"
  const DapiV1 := "/dapi/v1/"
  const DapiV2 := "/dapi/v2/"
  const FuturesData := "/futures/data/"

  /** The prefix shared by the two versions of the USDT-margined API. */
  const Fapi := "/fapi/"
  /** The prefix shared by the two versions of the coin-margined API. */
  const Dapi := "/dapi/"

  /** Any of the roots. */
  predicate IsRoot(r: string) {
    r == ApiV3 || r == SapiV1 || r == SapiV2 || r == FapiV1 || r == FapiV2
    || r == DapiV1 || r == DapiV2 || r == FuturesData
  }

  // The tails, each named after its text and shared by every family that
  // serves it.

  const PingTail := "ping"
  const TimeTail := "time"
  const ExchangeInfoTail := "exchangeInfo"
  const DepthTail := "depth"
  const TradesTail := "trades"
  const HistoricalTradesTail := "historicalTrades"
  const AggTradesTail := "aggTrades"
  const KlinesTail := "klines"
  const AvgPriceTail := "avgPrice"
  const Ticker24hrTail := "ticker/24hr"
  const TickerPriceTail := "ticker/price"
  const TickerBookTickerTail := "ticker/bookTicker"
  const OrderTail := "order"
  const OrderTestTail := "order/test"
  const OpenOrdersTail := "openOrders"
  const AllOrdersTail := "allOrders"
  const OrderOcoTail := "order/oco"
  const OrderListTail := "orderList"
  const AllOrderListTail := "allOrderList"
  const OpenOrderListTail := "openOrderList"
  const AccountTail := "account"
  const MyTradesTail := "myTrades"
  const UserDataStreamTail := "userDataStream"
  const CapitalConfigGetallTail := "capital/config/getall"
  const AssetAssetDetailTail := "asset/assetDetail"
  const CapitalDepositAddressTail := "capital/deposit/address"
  const FuturesTransferTail := "futures/transfer"
  const ContinuousKlinesTail := "continuousKlines"
  const IndexPriceKlinesTail := "indexPriceKlines"
  const MarkPriceKlinesTail := "markPriceKlines"
  const PremiumIndexTail := "premiumIndex"
  const FundingRateTail := "fundingRate"
  const AllForceOrdersTail := "allForceOrders"
  const AllOpenOrdersTail := "allOpenOrders"
  const UserTradesTail := "userTrades"
  const PositionSideDualTail := "positionSide/dual"
  const PositionRiskTail := "positionRisk"
  const BalanceTail := "balance"
  const OpenInterestTail := "openInterest"
  const OpenInterestHistTail := "openInterestHist"
  const TopLongShortAccountRatioTail := "topLongShortAccountRatio"
  const TopLongShortPositionRatioTail := "topLongShortPositionRatio"
  const GlobalLongShortAccountRatioTail := "globalLongShortAccountRatio"
  const TakerlongshortRatioTail := "takerlongshortRatio"
  const LvtKlinesTail := "lvtKlines"
  const IndexInfoTail := "indexInfo"
  const LeverageTail := "leverage"
  const ListenKeyTail := "listenKey"
  const IncomeTail := "income"
  const MarginTypeTail := "marginType"
  const SubAccountFuturesAccountSummaryTail := "sub-account/futures/accountSummary"
  // ---------------------------------------------------------------------------
  // Resolution
  // ---------------------------------------------------------------------------

  /**
   * A tail: the non-empty part of a path after its root. It does not begin
   * with `/`, so the root's closing slash is the only one at the seam.
   */
  predicate IsTail(t: string) {
    0 < |t| && t[0] != '/'
  }

  /**
   * The REST path of a route: total over every variant of every family, and
   * always the root of the route's class followed by a tail.
   */
  function Path(item: API): (r: string)
    ensures Root(item) <= r && IsTail(r[|Root(item)|..])
  {
    match item
    case Spot(route) => SpotPath(route)
    case Savings(route) => SapiPath(route)
    case Futures(route) => FuturesPath(route)
    case FuturesCoin(route) => FuturesCoinPath(route)
  }

  /** The path of a spot route: every one is served under `/api/v3/`. */
  function SpotPath(route: Spot): (r: string)
    ensures ApiV3 <= r && IsTail(r[|ApiV3|..])
  {
    ApiV3 + SpotTail(route)
  }

  /** The path of a savings route: every one is served under `/sapi/v1/`. */
  function SapiPath(route: Sapi): (r: string)
    ensures SapiV1 <= r && IsTail(r[|SapiV1|..])
  {
    SapiV1 + SapiTail(route)
  }

  /** The path of a USDT-margined route: a tail under the root of its class. */
  function FuturesPath(route: Futures): (r: string)
    ensures FuturesRoot(route) <= r && IsTail(r[|FuturesRoot(route)|..])
  {
    FuturesRoot(route) + FuturesTail(route)
  }

  /** The path of a coin-margined route: a tail under the root of its class. */
  function FuturesCoinPath(route: FuturesCoin): (r: string)
    ensures FuturesCoinRoot(route) <= r && IsTail(r[|FuturesCoinRoot(route)|..])
  {
    FuturesCoinRoot(route) + FuturesCoinTail(route)
  }

  /** The part of a spot path after `ApiV3`, in the order of src/api.rs:147-169. */
  function SpotTail(route: Spot): (r: string)
    ensures IsTail(r)
  {
    match route
    case Ping => PingTail
    case Time => TimeTail
    case ExchangeInfo => ExchangeInfoTail
    case Depth => DepthTail
    case Trades => TradesTail
    case HistoricalTrades => HistoricalTradesTail
    case AggTrades => AggTradesTail
    case Klines => KlinesTail
    case AvgPrice => AvgPriceTail
    case Ticker24hr => Ticker24hrTail
    case Price => TickerPriceTail
    case BookTicker => TickerBookTickerTail
    case Order => OrderTail
    case OrderTest => OrderTestTail
    case OpenOrders => OpenOrdersTail
    case AllOrders => AllOrdersTail
    case Oco => OrderOcoTail
    case OrderList => OrderListTail
    case AllOrderList => AllOrderListTail
    case OpenOrderList => OpenOrderListTail
    case Account => AccountTail
    case MyTrades => MyTradesTail
    case UserDataStream => UserDataStreamTail
  }

  /** The part of a savings path after `SapiV1`, src/api.rs:172-175. */
  function SapiTail(route: Sapi): (r: string)
    ensures IsTail(r)
  {
    match route
    case AllCoins => CapitalConfigGetallTail
    case AssetDetail => AssetAssetDetailTail
    case DepositAddress => CapitalDepositAddressTail
    case SpotFuturesTransfer => FuturesTransferTail
  }

  /** The part of a USDT-margined path after its root, src/api.rs:178-216. */
  function FuturesTail(route: Futures): (r: string)
    ensures IsTail(r)
  {
    match route
    case Ping => PingTail
    case Time => TimeTail
    case ExchangeInfo => ExchangeInfoTail
    case Depth => DepthTail
    case Trades => TradesTail
    case HistoricalTrades => HistoricalTradesTail
    case AggTrades => AggTradesTail
    case Klines => KlinesTail
    case ContinuousKlines => ContinuousKlinesTail
    case IndexPriceKlines => IndexPriceKlinesTail
    case MarkPriceKlines => MarkPriceKlinesTail
    case PremiumIndex => PremiumIndexTail
    case FundingRate => FundingRateTail
    case Ticker24hr => Ticker24hrTail
    case TickerPrice => TickerPriceTail
    case BookTicker => TickerBookTickerTail
    case AllForceOrders => AllForceOrdersTail
    case AllOpenOrders => AllOpenOrdersTail
    case AllOrders => AllOrdersTail
    case UserTrades => UserTradesTail
    case PositionSide => PositionSideDualTail
    case Order => OrderTail
    case PositionRisk => PositionRiskTail
    case Balance => BalanceTail
    case OpenInterest => OpenInterestTail
    case OpenInterestHist => OpenInterestHistTail
    case TopLongShortAccountRatio => TopLongShortAccountRatioTail
    case TopLongShortPositionRatio => TopLongShortPositionRatioTail
    case GlobalLongShortAccountRatio => GlobalLongShortAccountRatioTail
    case TakerlongshortRatio => TakerlongshortRatioTail
    case LvtKlines => LvtKlinesTail
    case IndexInfo => IndexInfoTail
    case ChangeInitialLeverage => LeverageTail
    case Account => AccountTail
    case OpenOrders => OpenOrdersTail
    case UserDataStream => ListenKeyTail
    case Income => IncomeTail
    case MarginType => MarginTypeTail
    case SubAccountSummary => SubAccountFuturesAccountSummaryTail
  }

  /** The part of a coin-margined path after its root, src/api.rs:219-256. */
  function FuturesCoinTail(route: FuturesCoin): (r: string)
    ensures IsTail(r)
  {
    match route
    case Ping => PingTail
    case Time => TimeTail
    case ExchangeInfo => ExchangeInfoTail
    case Depth => DepthTail
    case Trades => TradesTail
    case HistoricalTrades => HistoricalTradesTail
    case AggTrades => AggTradesTail
    case Klines => KlinesTail
    case ContinuousKlines => ContinuousKlinesTail
    case IndexPriceKlines => IndexPriceKlinesTail
    case MarkPriceKlines => MarkPriceKlinesTail
    case PremiumIndex => PremiumIndexTail
    case FundingRate => FundingRateTail
    case Ticker24hr => Ticker24hrTail
    case TickerPrice => TickerPriceTail
    case BookTicker => TickerBookTickerTail
    case AllForceOrders => AllForceOrdersTail
    case AllOpenOrders => AllOpenOrdersTail
    case AllOrders => AllOrdersTail
    case UserTrades => UserTradesTail
    case PositionSide => PositionSideDualTail
    case Order => OrderTail
    case PositionRisk => PositionRiskTail
    case Balance => BalanceTail
    case OpenInterest => OpenInterestTail
    case OpenInterestHist => OpenInterestHistTail
    case TopLongShortAccountRatio => TopLongShortAccountRatioTail
    case TopLongShortPositionRatio => TopLongShortPositionRatioTail
    case GlobalLongShortAccountRatio => GlobalLongShortAccountRatioTail
    case TakerlongshortRatio => TakerlongshortRatioTail
    case LvtKlines => LvtKlinesTail
    case IndexInfo => IndexInfoTail
    case ChangeInitialLeverage => LeverageTail
    case Account => AccountTail
    case OpenOrders => OpenOrdersTail
    case UserDataStream => ListenKeyTail
    case Income => IncomeTail
    case MarginType => MarginTypeTail
  }

  // ---------------------------------------------------------------------------
  // The root each route class is expected under
  // ---------------------------------------------------------------------------

  /** The root a USDT-margined route is expected under. */
  function FuturesRoot(route: Futures): (r: string)
    ensures IsRoot(r)
  {
    if route.IsAnalytics() then FuturesData
    else if route.SubAccountSummary? then SapiV2
    else if route.IsPinnedV2() then FapiV2
    else FapiV1
  }

  /** The root a coin-margined route is expected under. */
  function FuturesCoinRoot(route: FuturesCoin): (r: string)
    ensures IsRoot(r)
  {
    if route.IsAnalytics() then FuturesData
    else if route.IsPinnedV2() then DapiV2
    else DapiV1
  }

  /** The root a route of any family is expected under. */
  function Root(item: API): (r: string)
    ensures IsRoot(r)
  {
    match item
    case Spot(_) => ApiV3
    case Savings(_) => SapiV1
    case Futures(route) => FuturesRoot(route)
    case FuturesCoin(route) => FuturesCoinRoot(route)
  }

  // ---------------------------------------------------------------------------
  // Recognisers: a path back to its route. A path is split at its root and
  // the tail is looked up among the tails served under that root; each
  // candidate tail is tested by length before it is compared.
  // ---------------------------------------------------------------------------

  /** The spot route whose path is `p`, if any. */
  function ParseSpot(p: string): Option<Spot> {
    if ApiV3 <= p then ParseSpotTail(p[|ApiV3|..]) else None
  }

  /** The savings route whose path is `p`, if any. */
  function ParseSapi(p: string): Option<Sapi> {
    if SapiV1 <= p then ParseSapiTail(p[|SapiV1|..]) else None
  }

  /** The USDT-margined route whose path is `p`, if any. */
  function ParseFutures(p: string): Option<Futures> {
    if FapiV1 <= p then ParseV1Tail(p[|FapiV1|..])
    else if FapiV2 <= p then ParseV2Tail(p[|FapiV2|..])
    else if FuturesData <= p then ParseDataTail(p[|FuturesData|..])
    else if SapiV2 <= p && p[|SapiV2|..] == SubAccountFuturesAccountSummaryTail then
      Some(Futures.SubAccountSummary)
    else None
  }

  /**
   * The coin-margined route whose path is `p`, if any: the same tails as the
   * USDT-margined routes, under the coin-margined roots.
   */
  function ParseFuturesCoin(p: string): Option<FuturesCoin> {
    if DapiV1 <= p then ToCoin(ParseV1Tail(p[|DapiV1|..]))
    else if DapiV2 <= p then ToCoin(ParseV2Tail(p[|DapiV2|..]))
    else if FuturesData <= p then ToCoin(ParseDataTail(p[|FuturesData|..]))
    else None
  }

  /** The spot route served as `ApiV3 + t`. */
  function ParseSpotTail(t: string): Option<Spot> {
    if |t| == 4 && t == PingTail then Some(Spot.Ping)
    else if |t| == 4 && t == TimeTail then Some(Spot.Time)
    else if |t| == 12 && t == ExchangeInfoTail then Some(Spot.ExchangeInfo)
    else if |t| == 5 && t == DepthTail then Some(Spot.Depth)
    else if |t| == 6 && t == TradesTail then Some(Spot.Trades)
    else if |t| == 16 && t == HistoricalTradesTail then Some(Spot.HistoricalTrades)
    else if |t| == 9 && t == AggTradesTail then Some(Spot.AggTrades)
    else if |t| == 6 && t == KlinesTail then Some(Spot.Klines)
    else if |t| == 8 && t == AvgPriceTail then Some(Spot.AvgPrice)
    else if |t| == 11 && t == Ticker24hrTail then Some(Spot.Ticker24hr)
    else if |t| == 12 && t == TickerPriceTail then Some(Spot.Price)
    else if |t| == 17 && t == TickerBookTickerTail then Some(Spot.BookTicker)
    else if |t| == 5 && t == OrderTail then Some(Spot.Order)
    else if |t| == 10 && t == OrderTestTail then Some(Spot.OrderTest)
    else if |t| == 10 && t == OpenOrdersTail then Some(Spot.OpenOrders)
    else if |t| == 9 && t == AllOrdersTail then Some(Spot.AllOrders)
    else if |t| == 9 && t == OrderOcoTail then Some(Spot.Oco)
    else if |t| == 9 && t == OrderListTail then Some(Spot.OrderList)
    else if |t| == 12 && t == AllOrderListTail then Some(Spot.AllOrderList)
    else if |t| == 13 && t == OpenOrderListTail then Some(Spot.OpenOrderList)
    else if |t| == 7 && t == AccountTail then Some(Spot.Account)
    else if |t| == 8 && t == MyTradesTail then Some(Spot.MyTrades)
    else if |t| == 14 && t == UserDataStreamTail then Some(Spot.UserDataStream)
    else None
  }

  /** The savings route served as `SapiV1 + t`. */
  function ParseSapiTail(t: string): Option<Sapi> {
    if |t| == 21 && t == CapitalConfigGetallTail then Some(Sapi.AllCoins)
    else if |t| == 17 && t == AssetAssetDetailTail then Some(Sapi.AssetDetail)
    else if |t| == 23 && t == CapitalDepositAddressTail then Some(Sapi.DepositAddress)
    else if |t| == 16 && t == FuturesTransferTail then Some(Sapi.SpotFuturesTransfer)
    else None
  }

  /** The USDT-margined route served as `FapiV1 + t`. */
  function ParseV1Tail(t: string): Option<Futures> {
    if |t| == 4 && t == PingTail then Some(Futures.Ping)
    else if |t| == 4 && t == TimeTail then Some(Futures.Time)
    else if |t| == 12 && t == ExchangeInfoTail then Some(Futures.ExchangeInfo)
    else if |t| == 5 && t == DepthTail then Some(Futures.Depth)
    else if |t| == 6 && t == TradesTail then Some(Futures.Trades)
    else if |t| == 16 && t == HistoricalTradesTail then Some(Futures.HistoricalTrades)
    else if |t| == 9 && t == AggTradesTail then Some(Futures.AggTrades)
    else if |t| == 6 && t == KlinesTail then Some(Futures.Klines)
    else if |t| == 16 && t == ContinuousKlinesTail then Some(Futures.ContinuousKlines)
    else if |t| == 16 && t == IndexPriceKlinesTail then Some(Futures.IndexPriceKlines)
    else if |t| == 15 && t == MarkPriceKlinesTail then Some(Futures.MarkPriceKlines)
    else if |t| == 12 && t == PremiumIndexTail then Some(Futures.PremiumIndex)
    else if |t| == 11 && t == FundingRateTail then Some(Futures.FundingRate)
    else if |t| == 11 && t == Ticker24hrTail then Some(Futures.Ticker24hr)
    else if |t| == 17 && t == TickerBookTickerTail then Some(Futures.BookTicker)
    else if |t| == 14 && t == AllForceOrdersTail then Some(Futures.AllForceOrders)
    else if |t| == 13 && t == AllOpenOrdersTail then Some(Futures.AllOpenOrders)
    else if |t| == 9 && t == AllOrdersTail then Some(Futures.AllOrders)
    else if |t| == 10 && t == UserTradesTail then Some(Futures.UserTrades)
    else if |t| == 17 && t == PositionSideDualTail then Some(Futures.PositionSide)
    else if |t| == 5 && t == OrderTail then Some(Futures.Order)
    else if |t| == 12 && t == OpenInterestTail then Some(Futures.OpenInterest)
    else if |t| == 9 && t == LvtKlinesTail then Some(Futures.LvtKlines)
    else if |t| == 9 && t == IndexInfoTail then Some(Futures.IndexInfo)
    else if |t| == 8 && t == LeverageTail then Some(Futures.ChangeInitialLeverage)
    else if |t| == 10 && t == OpenOrdersTail then Some(Futures.OpenOrders)
    else if |t| == 9 && t == ListenKeyTail then Some(Futures.UserDataStream)
    else if |t| == 6 && t == IncomeTail then Some(Futures.Income)
    else if |t| == 10 && t == MarginTypeTail then Some(Futures.MarginType)
    else None
  }

  /** The USDT-margined route served as `FapiV2 + t`. */
  function ParseV2Tail(t: string): Option<Futures> {
    if |t| == 12 && t == TickerPriceTail then Some(Futures.TickerPrice)
    else if |t| == 12 && t == PositionRiskTail then Some(Futures.PositionRisk)
    else if |t| == 7 && t == BalanceTail then Some(Futures.Balance)
    else if |t| == 7 && t == AccountTail then Some(Futures.Account)
    else None
  }

  /** The analytics route served as `FuturesData + t`. */
  function ParseDataTail(t: string): Option<Futures> {
    if |t| == 16 && t == OpenInterestHistTail then Some(Futures.OpenInterestHist)
    else if |t| == 24 && t == TopLongShortAccountRatioTail then Some(Futures.TopLongShortAccountRatio)
    else if |t| == 25 && t == TopLongShortPositionRatioTail then Some(Futures.TopLongShortPositionRatio)
    else if |t| == 27 && t == GlobalLongShortAccountRatioTail then Some(Futures.GlobalLongShortAccountRatio)
    else if |t| == 19 && t == TakerlongshortRatioTail then Some(Futures.TakerlongshortRatio)
    else None
  }

  /** The coin-margined namesake of a recognised USDT-margined route. */
  function ToCoin(found: Option<Futures>): Option<FuturesCoin> {
    match found
    case None => None
    case Some(route) => FuturesToCoin(route)
  }

  // ---------------------------------------------------------------------------
  // The same-name correspondence between the two derivative families
  // ---------------------------------------------------------------------------

  /** The USDT-margined route of the same name. */
  function CoinToFutures(route: FuturesCoin): Futures {
    match route
    case Ping => Futures.Ping
    case Time => Futures.Time
    case ExchangeInfo => Futures.ExchangeInfo
    case Depth => Futures.Depth
    case Trades => Futures.Trades
    case HistoricalTrades => Futures.HistoricalTrades
    case AggTrades => Futures.AggTrades
    case Klines => Futures.Klines
    case ContinuousKlines => Futures.ContinuousKlines
    case IndexPriceKlines => Futures.IndexPriceKlines
    case MarkPriceKlines => Futures.MarkPriceKlines
    case PremiumIndex => Futures.PremiumIndex
    case FundingRate => Futures.FundingRate
    case Ticker24hr => Futures.Ticker24hr
    case TickerPrice => Futures.TickerPrice
    case BookTicker => Futures.BookTicker
    case AllForceOrders => Futures.AllForceOrders
    case AllOpenOrders => Futures.AllOpenOrders
    case AllOrders => Futures.AllOrders
    case UserTrades => Futures.UserTrades
    case PositionSide => Futures.PositionSide
    case Order => Futures.Order
    case PositionRisk => Futures.PositionRisk
    case Balance => Futures.Balance
    case OpenInterest => Futures.OpenInterest
    case OpenInterestHist => Futures.OpenInterestHist
    case TopLongShortAccountRatio => Futures.TopLongShortAccountRatio
    case TopLongShortPositionRatio => Futures.TopLongShortPositionRatio
    case GlobalLongShortAccountRatio => Futures.GlobalLongShortAccountRatio
    case TakerlongshortRatio => Futures.TakerlongshortRatio
    case LvtKlines => Futures.LvtKlines
    case IndexInfo => Futures.IndexInfo
    case ChangeInitialLeverage => Futures.ChangeInitialLeverage
    case Account => Futures.Account
    case OpenOrders => Futures.OpenOrders
    case UserDataStream => Futures.UserDataStream
    case Income => Futures.Income
    case MarginType => Futures.MarginType
  }

  /** The coin-margined route of the same name; `SubAccountSummary` has none. */
  function FuturesToCoin(route: Futures): Option<FuturesCoin> {
    match route
    case Ping => Some(FuturesCoin.Ping)
    case Time => Some(FuturesCoin.Time)
    case ExchangeInfo => Some(FuturesCoin.ExchangeInfo)
    case Depth => Some(FuturesCoin.Depth)
    case Trades => Some(FuturesCoin.Trades)
    case HistoricalTrades => Some(FuturesCoin.HistoricalTrades)
    case AggTrades => Some(FuturesCoin.AggTrades)
    case Klines => Some(FuturesCoin.Klines)
    case ContinuousKlines => Some(FuturesCoin.ContinuousKlines)
    case IndexPriceKlines => Some(FuturesCoin.IndexPriceKlines)
    case MarkPriceKlines => Some(FuturesCoin.MarkPriceKlines)
    case PremiumIndex => Some(FuturesCoin.PremiumIndex)
    case FundingRate => Some(FuturesCoin.FundingRate)
    case Ticker24hr => Some(FuturesCoin.Ticker24hr)
    case TickerPrice => Some(FuturesCoin.TickerPrice)
    case BookTicker => Some(FuturesCoin.BookTicker)
    case AllForceOrders => Some(FuturesCoin.AllForceOrders)
    case AllOpenOrders => Some(FuturesCoin.AllOpenOrders)
    case AllOrders => Some(FuturesCoin.AllOrders)
    case UserTrades => Some(FuturesCoin.UserTrades)
    case PositionSide => Some(FuturesCoin.PositionSide)
    case Order => Some(FuturesCoin.Order)
    case PositionRisk => Some(FuturesCoin.PositionRisk)
    case Balance => Some(FuturesCoin.Balance)
    case OpenInterest => Some(FuturesCoin.OpenInterest)
    case OpenInterestHist => Some(FuturesCoin.OpenInterestHist)
    case TopLongShortAccountRatio => Some(FuturesCoin.TopLongShortAccountRatio)
    case TopLongShortPositionRatio => Some(FuturesCoin.TopLongShortPositionRatio)
    case GlobalLongShortAccountRatio => Some(FuturesCoin.GlobalLongShortAccountRatio)
    case TakerlongshortRatio => Some(FuturesCoin.TakerlongshortRatio)
    case LvtKlines => Some(FuturesCoin.LvtKlines)
    case IndexInfo => Some(FuturesCoin.IndexInfo)
    case ChangeInitialLeverage => Some(FuturesCoin.ChangeInitialLeverage)
    case Account => Some(FuturesCoin.Account)
    case OpenOrders => Some(FuturesCoin.OpenOrders)
    case UserDataStream => Some(FuturesCoin.UserDataStream)
    case Income => Some(FuturesCoin.Income)
    case MarginType => Some(FuturesCoin.MarginType)
    case SubAccountSummary => None
  }
}
