/**
 * Route-by-route facts about the catalog, a few arms of the match in
 * src/api.rs at a time, and the lemmas that collect them over a whole root:
 * each tail is recognised again by the recogniser of its root, a recognised
 * tail is the tail of the route it names, and each coin-margined tail is the
 * tail of its USDT-margined namesake.
 */
module ApiFacts {
  import opened Wrappers
  import opened Api

  // Spot tails

  /** The tail of a spot route is recognised as that route. */
  lemma SpotTailsRecognised(route: Spot)
    ensures ParseSpotTail(SpotTail(route)) == Some(route)
  {
  }

  /** Spot tails are recognised only as their own routes, src/api.rs:147-150. */
  lemma SpotTailsSound1(t: string, route: Spot)
    requires route.Ping? || route.Time? || route.ExchangeInfo? || route.Depth?
    requires ParseSpotTail(t) == Some(route)
    ensures SpotTail(route) == t
  {
  }

  /** Spot tails are recognised only as their own routes, src/api.rs:151-154. */
  lemma SpotTailsSound2(t: string, route: Spot)
    requires route.Trades? || route.HistoricalTrades? || route.AggTrades? || route.Klines?
    requires ParseSpotTail(t) == Some(route)
    ensures SpotTail(route) == t
  {
  }

  /** Spot tails are recognised only as their own routes, src/api.rs:155-158. */
  lemma SpotTailsSound3(t: string, route: Spot)
    requires route.AvgPrice? || route.Ticker24hr? || route.Price? || route.BookTicker?
    requires ParseSpotTail(t) == Some(route)
    ensures SpotTail(route) == t
  {
  }

  /** Spot tails are recognised only as their own routes, src/api.rs:159-162. */
  lemma SpotTailsSound4(t: string, route: Spot)
    requires route.Order? || route.OrderTest? || route.OpenOrders? || route.AllOrders?
    requires ParseSpotTail(t) == Some(route)
    ensures SpotTail(route) == t
  {
  }

  /** Spot tails are recognised only as their own routes, src/api.rs:163-166. */
  lemma SpotTailsSound5(t: string, route: Spot)
    requires route.Oco? || route.OrderList? || route.AllOrderList? || route.OpenOrderList?
    requires ParseSpotTail(t) == Some(route)
    ensures SpotTail(route) == t
  {
  }

  /** Spot tails are recognised only as their own routes, src/api.rs:167-169. */
  lemma SpotTailsSound6(t: string, route: Spot)
    requires route.Account? || route.MyTrades? || route.UserDataStream?
    requires ParseSpotTail(t) == Some(route)
    ensures SpotTail(route) == t
  {
  }

  /** A tail recognised as a spot route is that route's tail. */
  lemma SpotTailsSound(t: string, route: Spot)
    requires ParseSpotTail(t) == Some(route)
    ensures SpotTail(route) == t
  {
    if route.Ping? || route.Time? || route.ExchangeInfo? || route.Depth? {
      SpotTailsSound1(t, route);
    } else if route.Trades? || route.HistoricalTrades? || route.AggTrades? || route.Klines? {
      SpotTailsSound2(t, route);
    } else if route.AvgPrice? || route.Ticker24hr? || route.Price? || route.BookTicker? {
      SpotTailsSound3(t, route);
    } else if route.Order? || route.OrderTest? || route.OpenOrders? || route.AllOrders? {
      SpotTailsSound4(t, route);
    } else if route.Oco? || route.OrderList? || route.AllOrderList? || route.OpenOrderList? {
      SpotTailsSound5(t, route);
    } else {
      SpotTailsSound6(t, route);
    }
  }

  // Savings tails

  /** The tail of a savings route is recognised as that route. */
  lemma SapiTailsRecognised(route: Sapi)
    ensures ParseSapiTail(SapiTail(route)) == Some(route)
  {
  }

  /** A tail recognised as a savings route is that route's tail. */
  lemma SapiTailsSound(t: string, route: Sapi)
    requires ParseSapiTail(t) == Some(route)
    ensures SapiTail(route) == t
  {
  }

  // Version 1 tails

  /** Version 1 tails are recognised, src/api.rs:178-181. */
  lemma V1TailsRecognised1(route: Futures)
    requires route.Ping? || route.Time? || route.ExchangeInfo? || route.Depth?
    ensures ParseV1Tail(FuturesTail(route)) == Some(route)
  {
  }

  /** Version 1 tails are recognised, src/api.rs:182-185. */
  lemma V1TailsRecognised2(route: Futures)
    requires route.Trades? || route.HistoricalTrades? || route.AggTrades? || route.Klines?
    ensures ParseV1Tail(FuturesTail(route)) == Some(route)
  {
  }

  /** Version 1 tails are recognised, src/api.rs:186-189. */
  lemma V1TailsRecognised3(route: Futures)
    requires route.ContinuousKlines? || route.IndexPriceKlines? || route.MarkPriceKlines? || route.PremiumIndex?
    ensures ParseV1Tail(FuturesTail(route)) == Some(route)
  {
  }

  /** Version 1 tails are recognised, src/api.rs:190-194. */
  lemma V1TailsRecognised4(route: Futures)
    requires route.FundingRate? || route.Ticker24hr? || route.BookTicker? || route.AllForceOrders?
    ensures ParseV1Tail(FuturesTail(route)) == Some(route)
  {
  }

  /** Version 1 tails are recognised, src/api.rs:195-198. */
  lemma V1TailsRecognised5(route: Futures)
    requires route.AllOpenOrders? || route.AllOrders? || route.UserTrades? || route.PositionSide?
    ensures ParseV1Tail(FuturesTail(route)) == Some(route)
  {
  }

  /** Version 1 tails are recognised, src/api.rs:199-209. */
  lemma V1TailsRecognised6(route: Futures)
    requires route.Order? || route.OpenInterest? || route.LvtKlines? || route.IndexInfo?
    ensures ParseV1Tail(FuturesTail(route)) == Some(route)
  {
  }

  /** Version 1 tails are recognised, src/api.rs:210-214. */
  lemma V1TailsRecognised7(route: Futures)
    requires route.ChangeInitialLeverage? || route.OpenOrders? || route.UserDataStream? || route.Income?
    ensures ParseV1Tail(FuturesTail(route)) == Some(route)
  {
  }

  /** Version 1 tails are recognised, src/api.rs:215. */
  lemma V1TailsRecognised8(route: Futures)
    requires route.MarginType?
    ensures ParseV1Tail(FuturesTail(route)) == Some(route)
  {
  }

  /** The tail of a version 1 route is recognised as that route. */
  lemma V1TailsRecognised(route: Futures)
    requires route.IsV1()
    ensures ParseV1Tail(FuturesTail(route)) == Some(route)
  {
    if route.Ping? || route.Time? || route.ExchangeInfo? || route.Depth? {
      V1TailsRecognised1(route);
    } else if route.Trades? || route.HistoricalTrades? || route.AggTrades? || route.Klines? {
      V1TailsRecognised2(route);
    } else if route.ContinuousKlines? || route.IndexPriceKlines? || route.MarkPriceKlines? || route.PremiumIndex? {
      V1TailsRecognised3(route);
    } else if route.FundingRate? || route.Ticker24hr? || route.BookTicker? || route.AllForceOrders? {
      V1TailsRecognised4(route);
    } else if route.AllOpenOrders? || route.AllOrders? || route.UserTrades? || route.PositionSide? {
      V1TailsRecognised5(route);
    } else if route.Order? || route.OpenInterest? || route.LvtKlines? || route.IndexInfo? {
      V1TailsRecognised6(route);
    } else if route.ChangeInitialLeverage? || route.OpenOrders? || route.UserDataStream? || route.Income? {
      V1TailsRecognised7(route);
    } else {
      V1TailsRecognised8(route);
    }
  }

  /** Version 1 tails are recognised only as their own routes, src/api.rs:178-181. */
  lemma V1TailsSound1(t: string, route: Futures)
    requires route.Ping? || route.Time? || route.ExchangeInfo? || route.Depth?
    requires ParseV1Tail(t) == Some(route)
    ensures FuturesTail(route) == t
  {
  }

  /** Version 1 tails are recognised only as their own routes, src/api.rs:182-185. */
  lemma V1TailsSound2(t: string, route: Futures)
    requires route.Trades? || route.HistoricalTrades? || route.AggTrades? || route.Klines?
    requires ParseV1Tail(t) == Some(route)
    ensures FuturesTail(route) == t
  {
  }

  /** Version 1 tails are recognised only as their own routes, src/api.rs:186-189. */
  lemma V1TailsSound3(t: string, route: Futures)
    requires route.ContinuousKlines? || route.IndexPriceKlines? || route.MarkPriceKlines? || route.PremiumIndex?
    requires ParseV1Tail(t) == Some(route)
    ensures FuturesTail(route) == t
  {
  }

  /** Version 1 tails are recognised only as their own routes, src/api.rs:190-194. */
  lemma V1TailsSound4(t: string, route: Futures)
    requires route.FundingRate? || route.Ticker24hr? || route.BookTicker? || route.AllForceOrders?
    requires ParseV1Tail(t) == Some(route)
    ensures FuturesTail(route) == t
  {
  }

  /** Version 1 tails are recognised only as their own routes, src/api.rs:195-198. */
  lemma V1TailsSound5(t: string, route: Futures)
    requires route.AllOpenOrders? || route.AllOrders? || route.UserTrades? || route.PositionSide?
    requires ParseV1Tail(t) == Some(route)
    ensures FuturesTail(route) == t
  {
  }

  /** Version 1 tails are recognised only as their own routes, src/api.rs:199-209. */
  lemma V1TailsSound6(t: string, route: Futures)
    requires route.Order? || route.OpenInterest? || route.LvtKlines? || route.IndexInfo?
    requires ParseV1Tail(t) == Some(route)
    ensures FuturesTail(route) == t
  {
  }

  /** Version 1 tails are recognised only as their own routes, src/api.rs:210-214. */
  lemma V1TailsSound7(t: string, route: Futures)
    requires route.ChangeInitialLeverage? || route.OpenOrders? || route.UserDataStream? || route.Income?
    requires ParseV1Tail(t) == Some(route)
    ensures FuturesTail(route) == t
  {
  }

  /** Version 1 tails are recognised only as their own routes, src/api.rs:215. */
  lemma V1TailsSound8(t: string, route: Futures)
    requires route.MarginType?
    requires ParseV1Tail(t) == Some(route)
    ensures FuturesTail(route) == t
  {
  }

  /** ParseV1Tail recognises routes of its own root only. */
  lemma V1TailsInRange(t: string)
    ensures ParseV1Tail(t).Some? ==> ParseV1Tail(t).value.IsV1()
  {
  }

  /** A tail recognised as a version 1 route is that route's tail. */
  lemma V1TailsSound(t: string, route: Futures)
    requires ParseV1Tail(t) == Some(route)
    ensures FuturesTail(route) == t && route.IsV1()
  {
    V1TailsInRange(t);
    if route.Ping? || route.Time? || route.ExchangeInfo? || route.Depth? {
      V1TailsSound1(t, route);
    } else if route.Trades? || route.HistoricalTrades? || route.AggTrades? || route.Klines? {
      V1TailsSound2(t, route);
    } else if route.ContinuousKlines? || route.IndexPriceKlines? || route.MarkPriceKlines? || route.PremiumIndex? {
      V1TailsSound3(t, route);
    } else if route.FundingRate? || route.Ticker24hr? || route.BookTicker? || route.AllForceOrders? {
      V1TailsSound4(t, route);
    } else if route.AllOpenOrders? || route.AllOrders? || route.UserTrades? || route.PositionSide? {
      V1TailsSound5(t, route);
    } else if route.Order? || route.OpenInterest? || route.LvtKlines? || route.IndexInfo? {
      V1TailsSound6(t, route);
    } else if route.ChangeInitialLeverage? || route.OpenOrders? || route.UserDataStream? || route.Income? {
      V1TailsSound7(t, route);
    } else {
      V1TailsSound8(t, route);
    }
  }

  // Version 2 tails

  /** The tail of a version 2 route is recognised as that route. */
  lemma V2TailsRecognised(route: Futures)
    requires route.IsPinnedV2()
    ensures ParseV2Tail(FuturesTail(route)) == Some(route)
  {
  }

  /** ParseV2Tail recognises routes of its own root only. */
  lemma V2TailsInRange(t: string)
    ensures ParseV2Tail(t).Some? ==> ParseV2Tail(t).value.IsPinnedV2()
  {
  }

  /** A tail recognised as a version 2 route is that route's tail. */
  lemma V2TailsSound(t: string, route: Futures)
    requires ParseV2Tail(t) == Some(route)
    ensures FuturesTail(route) == t && route.IsPinnedV2()
  {
    V2TailsInRange(t);
  }

  // Analytics tails

  /** The tail of an analytics route is recognised as that route. */
  lemma DataTailsRecognised(route: Futures)
    requires route.IsAnalytics()
    ensures ParseDataTail(FuturesTail(route)) == Some(route)
  {
  }

  /** ParseDataTail recognises routes of its own root only. */
  lemma DataTailsInRange(t: string)
    ensures ParseDataTail(t).Some? ==> ParseDataTail(t).value.IsAnalytics()
  {
  }

  /** A tail recognised as an analytics route is that route's tail. */
  lemma DataTailsSound(t: string, route: Futures)
    requires ParseDataTail(t) == Some(route)
    ensures FuturesTail(route) == t && route.IsAnalytics()
  {
    DataTailsInRange(t);
  }

  // Coin-margined tails

  /** Coin-margined tails are those of their namesakes, src/api.rs:219-220. */
  lemma CoinTailsMirrored1(route: FuturesCoin)
    requires route.Ping? || route.Time?
    ensures FuturesCoinTail(route) == FuturesTail(CoinToFutures(route))
  {
  }

  /** Coin-margined tails are those of their namesakes, src/api.rs:221-222. */
  lemma CoinTailsMirrored2(route: FuturesCoin)
    requires route.ExchangeInfo? || route.Depth?
    ensures FuturesCoinTail(route) == FuturesTail(CoinToFutures(route))
  {
  }

  /** Coin-margined tails are those of their namesakes, src/api.rs:223-224. */
  lemma CoinTailsMirrored3(route: FuturesCoin)
    requires route.Trades? || route.HistoricalTrades?
    ensures FuturesCoinTail(route) == FuturesTail(CoinToFutures(route))
  {
  }

  /** Coin-margined tails are those of their namesakes, src/api.rs:225-226. */
  lemma CoinTailsMirrored4(route: FuturesCoin)
    requires route.AggTrades? || route.Klines?
    ensures FuturesCoinTail(route) == FuturesTail(CoinToFutures(route))
  {
  }

  /** Coin-margined tails are those of their namesakes, src/api.rs:227-228. */
  lemma CoinTailsMirrored5(route: FuturesCoin)
    requires route.ContinuousKlines? || route.IndexPriceKlines?
    ensures FuturesCoinTail(route) == FuturesTail(CoinToFutures(route))
  {
  }

  /** Coin-margined tails are those of their namesakes, src/api.rs:229-230. */
  lemma CoinTailsMirrored6(route: FuturesCoin)
    requires route.MarkPriceKlines? || route.PremiumIndex?
    ensures FuturesCoinTail(route) == FuturesTail(CoinToFutures(route))
  {
  }

  /** Coin-margined tails are those of their namesakes, src/api.rs:231-232. */
  lemma CoinTailsMirrored7(route: FuturesCoin)
    requires route.FundingRate? || route.Ticker24hr?
    ensures FuturesCoinTail(route) == FuturesTail(CoinToFutures(route))
  {
  }

  /** Coin-margined tails are those of their namesakes, src/api.rs:233-234. */
  lemma CoinTailsMirrored8(route: FuturesCoin)
    requires route.TickerPrice? || route.BookTicker?
    ensures FuturesCoinTail(route) == FuturesTail(CoinToFutures(route))
  {
  }

  /** Coin-margined tails are those of their namesakes, src/api.rs:235-236. */
  lemma CoinTailsMirrored9(route: FuturesCoin)
    requires route.AllForceOrders? || route.AllOpenOrders?
    ensures FuturesCoinTail(route) == FuturesTail(CoinToFutures(route))
  {
  }

  /** Coin-margined tails are those of their namesakes, src/api.rs:237-238. */
  lemma CoinTailsMirrored10(route: FuturesCoin)
    requires route.AllOrders? || route.UserTrades?
    ensures FuturesCoinTail(route) == FuturesTail(CoinToFutures(route))
  {
  }

  /** Coin-margined tails are those of their namesakes, src/api.rs:239-240. */
  lemma CoinTailsMirrored11(route: FuturesCoin)
    requires route.PositionSide? || route.Order?
    ensures FuturesCoinTail(route) == FuturesTail(CoinToFutures(route))
  {
  }

  /** Coin-margined tails are those of their namesakes, src/api.rs:241-242. */
  lemma CoinTailsMirrored12(route: FuturesCoin)
    requires route.PositionRisk? || route.Balance?
    ensures FuturesCoinTail(route) == FuturesTail(CoinToFutures(route))
  {
  }

  /** Coin-margined tails are those of their namesakes, src/api.rs:243-244. */
  lemma CoinTailsMirrored13(route: FuturesCoin)
    requires route.OpenInterest? || route.OpenInterestHist?
    ensures FuturesCoinTail(route) == FuturesTail(CoinToFutures(route))
  {
  }

  /** Coin-margined tails are those of their namesakes, src/api.rs:245-246. */
  lemma CoinTailsMirrored14(route: FuturesCoin)
    requires route.TopLongShortAccountRatio? || route.TopLongShortPositionRatio?
    ensures FuturesCoinTail(route) == FuturesTail(CoinToFutures(route))
  {
  }

  /** Coin-margined tails are those of their namesakes, src/api.rs:247-248. */
  lemma CoinTailsMirrored15(route: FuturesCoin)
    requires route.GlobalLongShortAccountRatio? || route.TakerlongshortRatio?
    ensures FuturesCoinTail(route) == FuturesTail(CoinToFutures(route))
  {
  }

  /** Coin-margined tails are those of their namesakes, src/api.rs:249-250. */
  lemma CoinTailsMirrored16(route: FuturesCoin)
    requires route.LvtKlines? || route.IndexInfo?
    ensures FuturesCoinTail(route) == FuturesTail(CoinToFutures(route))
  {
  }

  /** Coin-margined tails are those of their namesakes, src/api.rs:251-252. */
  lemma CoinTailsMirrored17(route: FuturesCoin)
    requires route.ChangeInitialLeverage? || route.Account?
    ensures FuturesCoinTail(route) == FuturesTail(CoinToFutures(route))
  {
  }

  /** Coin-margined tails are those of their namesakes, src/api.rs:253-254. */
  lemma CoinTailsMirrored18(route: FuturesCoin)
    requires route.OpenOrders? || route.UserDataStream?
    ensures FuturesCoinTail(route) == FuturesTail(CoinToFutures(route))
  {
  }

  /** Coin-margined tails are those of their namesakes, src/api.rs:255-256. */
  lemma CoinTailsMirrored19(route: FuturesCoin)
    requires route.Income? || route.MarginType?
    ensures FuturesCoinTail(route) == FuturesTail(CoinToFutures(route))
  {
  }

  /** Every coin-margined route has the tail of its USDT-margined namesake. */
  lemma CoinTailsMirrored(route: FuturesCoin)
    ensures FuturesCoinTail(route) == FuturesTail(CoinToFutures(route))
  {
    if route.Ping? || route.Time? {
      CoinTailsMirrored1(route);
    } else if route.ExchangeInfo? || route.Depth? {
      CoinTailsMirrored2(route);
    } else if route.Trades? || route.HistoricalTrades? {
      CoinTailsMirrored3(route);
    } else if route.AggTrades? || route.Klines? {
      CoinTailsMirrored4(route);
    } else if route.ContinuousKlines? || route.IndexPriceKlines? {
      CoinTailsMirrored5(route);
    } else if route.MarkPriceKlines? || route.PremiumIndex? {
      CoinTailsMirrored6(route);
    } else if route.FundingRate? || route.Ticker24hr? {
      CoinTailsMirrored7(route);
    } else if route.TickerPrice? || route.BookTicker? {
      CoinTailsMirrored8(route);
    } else if route.AllForceOrders? || route.AllOpenOrders? {
      CoinTailsMirrored9(route);
    } else if route.AllOrders? || route.UserTrades? {
      CoinTailsMirrored10(route);
    } else if route.PositionSide? || route.Order? {
      CoinTailsMirrored11(route);
    } else if route.PositionRisk? || route.Balance? {
      CoinTailsMirrored12(route);
    } else if route.OpenInterest? || route.OpenInterestHist? {
      CoinTailsMirrored13(route);
    } else if route.TopLongShortAccountRatio? || route.TopLongShortPositionRatio? {
      CoinTailsMirrored14(route);
    } else if route.GlobalLongShortAccountRatio? || route.TakerlongshortRatio? {
      CoinTailsMirrored15(route);
    } else if route.LvtKlines? || route.IndexInfo? {
      CoinTailsMirrored16(route);
    } else if route.ChangeInitialLeverage? || route.Account? {
      CoinTailsMirrored17(route);
    } else if route.OpenOrders? || route.UserDataStream? {
      CoinTailsMirrored18(route);
    } else {
      CoinTailsMirrored19(route);
    }
  }

  // The same-name correspondence

  /** Coin-margined routes and their namesakes, src/api.rs:60-141. */
  lemma CoinNamesakes1(route: FuturesCoin)
    requires route.Ping? || route.Time? || route.ExchangeInfo?
    ensures FuturesToCoin(CoinToFutures(route)) == Some(route)
    ensures CoinToFutures(route).IsAnalytics() == route.IsAnalytics()
    ensures CoinToFutures(route).IsPinnedV2() == route.IsPinnedV2()
  {
  }

  /** Coin-margined routes and their namesakes, src/api.rs:60-141. */
  lemma CoinNamesakes2(route: FuturesCoin)
    requires route.Depth? || route.Trades? || route.HistoricalTrades?
    ensures FuturesToCoin(CoinToFutures(route)) == Some(route)
    ensures CoinToFutures(route).IsAnalytics() == route.IsAnalytics()
    ensures CoinToFutures(route).IsPinnedV2() == route.IsPinnedV2()
  {
  }

  /** Coin-margined routes and their namesakes, src/api.rs:60-141. */
  lemma CoinNamesakes3(route: FuturesCoin)
    requires route.AggTrades? || route.Klines? || route.ContinuousKlines?
    ensures FuturesToCoin(CoinToFutures(route)) == Some(route)
    ensures CoinToFutures(route).IsAnalytics() == route.IsAnalytics()
    ensures CoinToFutures(route).IsPinnedV2() == route.IsPinnedV2()
  {
  }

  /** Coin-margined routes and their namesakes, src/api.rs:60-141. */
  lemma CoinNamesakes4(route: FuturesCoin)
    requires route.IndexPriceKlines? || route.MarkPriceKlines? || route.PremiumIndex?
    ensures FuturesToCoin(CoinToFutures(route)) == Some(route)
    ensures CoinToFutures(route).IsAnalytics() == route.IsAnalytics()
    ensures CoinToFutures(route).IsPinnedV2() == route.IsPinnedV2()
  {
  }

  /** Coin-margined routes and their namesakes, src/api.rs:60-141. */
  lemma CoinNamesakes5(route: FuturesCoin)
    requires route.FundingRate? || route.Ticker24hr? || route.TickerPrice?
    ensures FuturesToCoin(CoinToFutures(route)) == Some(route)
    ensures CoinToFutures(route).IsAnalytics() == route.IsAnalytics()
    ensures CoinToFutures(route).IsPinnedV2() == route.IsPinnedV2()
  {
  }

  /** Coin-margined routes and their namesakes, src/api.rs:60-141. */
  lemma CoinNamesakes6(route: FuturesCoin)
    requires route.BookTicker? || route.AllForceOrders? || route.AllOpenOrders?
    ensures FuturesToCoin(CoinToFutures(route)) == Some(route)
    ensures CoinToFutures(route).IsAnalytics() == route.IsAnalytics()
    ensures CoinToFutures(route).IsPinnedV2() == route.IsPinnedV2()
  {
  }

  /** Coin-margined routes and their namesakes, src/api.rs:60-141. */
  lemma CoinNamesakes7(route: FuturesCoin)
    requires route.AllOrders? || route.UserTrades? || route.PositionSide?
    ensures FuturesToCoin(CoinToFutures(route)) == Some(route)
    ensures CoinToFutures(route).IsAnalytics() == route.IsAnalytics()
    ensures CoinToFutures(route).IsPinnedV2() == route.IsPinnedV2()
  {
  }

  /** Coin-margined routes and their namesakes, src/api.rs:60-141. */
  lemma CoinNamesakes8(route: FuturesCoin)
    requires route.Order? || route.PositionRisk? || route.Balance?
    ensures FuturesToCoin(CoinToFutures(route)) == Some(route)
    ensures CoinToFutures(route).IsAnalytics() == route.IsAnalytics()
    ensures CoinToFutures(route).IsPinnedV2() == route.IsPinnedV2()
  {
  }

  /** Coin-margined routes and their namesakes, src/api.rs:60-141. */
  lemma CoinNamesakes9(route: FuturesCoin)
    requires route.OpenInterest? || route.OpenInterestHist? || route.TopLongShortAccountRatio?
    ensures FuturesToCoin(CoinToFutures(route)) == Some(route)
    ensures CoinToFutures(route).IsAnalytics() == route.IsAnalytics()
    ensures CoinToFutures(route).IsPinnedV2() == route.IsPinnedV2()
  {
  }

  /** Coin-margined routes and their namesakes, src/api.rs:60-141. */
  lemma CoinNamesakes10(route: FuturesCoin)
    requires route.TopLongShortPositionRatio? || route.GlobalLongShortAccountRatio? || route.TakerlongshortRatio?
    ensures FuturesToCoin(CoinToFutures(route)) == Some(route)
    ensures CoinToFutures(route).IsAnalytics() == route.IsAnalytics()
    ensures CoinToFutures(route).IsPinnedV2() == route.IsPinnedV2()
  {
  }

  /** Coin-margined routes and their namesakes, src/api.rs:60-141. */
  lemma CoinNamesakes11(route: FuturesCoin)
    requires route.LvtKlines? || route.IndexInfo? || route.ChangeInitialLeverage?
    ensures FuturesToCoin(CoinToFutures(route)) == Some(route)
    ensures CoinToFutures(route).IsAnalytics() == route.IsAnalytics()
    ensures CoinToFutures(route).IsPinnedV2() == route.IsPinnedV2()
  {
  }

  /** Coin-margined routes and their namesakes, src/api.rs:60-141. */
  lemma CoinNamesakes12(route: FuturesCoin)
    requires route.Account? || route.OpenOrders? || route.UserDataStream?
    ensures FuturesToCoin(CoinToFutures(route)) == Some(route)
    ensures CoinToFutures(route).IsAnalytics() == route.IsAnalytics()
    ensures CoinToFutures(route).IsPinnedV2() == route.IsPinnedV2()
  {
  }

  /** Coin-margined routes and their namesakes, src/api.rs:60-141. */
  lemma CoinNamesakes13(route: FuturesCoin)
    requires route.Income? || route.MarginType?
    ensures FuturesToCoin(CoinToFutures(route)) == Some(route)
    ensures CoinToFutures(route).IsAnalytics() == route.IsAnalytics()
    ensures CoinToFutures(route).IsPinnedV2() == route.IsPinnedV2()
  {
  }

  /**
   * A coin-margined route is the namesake of its USDT-margined namesake, and
   * the two are in the same class.
   */
  lemma CoinNamesakes(route: FuturesCoin)
    ensures FuturesToCoin(CoinToFutures(route)) == Some(route)
    ensures CoinToFutures(route).IsAnalytics() == route.IsAnalytics()
    ensures CoinToFutures(route).IsPinnedV2() == route.IsPinnedV2()
  {
    if route.Ping? || route.Time? || route.ExchangeInfo? {
      CoinNamesakes1(route);
    } else if route.Depth? || route.Trades? || route.HistoricalTrades? {
      CoinNamesakes2(route);
    } else if route.AggTrades? || route.Klines? || route.ContinuousKlines? {
      CoinNamesakes3(route);
    } else if route.IndexPriceKlines? || route.MarkPriceKlines? || route.PremiumIndex? {
      CoinNamesakes4(route);
    } else if route.FundingRate? || route.Ticker24hr? || route.TickerPrice? {
      CoinNamesakes5(route);
    } else if route.BookTicker? || route.AllForceOrders? || route.AllOpenOrders? {
      CoinNamesakes6(route);
    } else if route.AllOrders? || route.UserTrades? || route.PositionSide? {
      CoinNamesakes7(route);
    } else if route.Order? || route.PositionRisk? || route.Balance? {
      CoinNamesakes8(route);
    } else if route.OpenInterest? || route.OpenInterestHist? || route.TopLongShortAccountRatio? {
      CoinNamesakes9(route);
    } else if route.TopLongShortPositionRatio? || route.GlobalLongShortAccountRatio? || route.TakerlongshortRatio? {
      CoinNamesakes10(route);
    } else if route.LvtKlines? || route.IndexInfo? || route.ChangeInitialLeverage? {
      CoinNamesakes11(route);
    } else if route.Account? || route.OpenOrders? || route.UserDataStream? {
      CoinNamesakes12(route);
    } else {
      CoinNamesakes13(route);
    }
  }

  /** USDT-margined routes and their namesakes, src/api.rs:60-141. */
  lemma FuturesNamesakes1(route: Futures)
    requires route.Ping? || route.Time? || route.ExchangeInfo?
    ensures FuturesToCoin(route).None? <==> route.SubAccountSummary?
    ensures FuturesToCoin(route).Some? ==> CoinToFutures(FuturesToCoin(route).value) == route
  {
  }

  /** USDT-margined routes and their namesakes, src/api.rs:60-141. */
  lemma FuturesNamesakes2(route: Futures)
    requires route.Depth? || route.Trades? || route.HistoricalTrades?
    ensures FuturesToCoin(route).None? <==> route.SubAccountSummary?
    ensures FuturesToCoin(route).Some? ==> CoinToFutures(FuturesToCoin(route).value) == route
  {
  }

  /** USDT-margined routes and their namesakes, src/api.rs:60-141. */
  lemma FuturesNamesakes3(route: Futures)
    requires route.AggTrades? || route.Klines? || route.ContinuousKlines?
    ensures FuturesToCoin(route).None? <==> route.SubAccountSummary?
    ensures FuturesToCoin(route).Some? ==> CoinToFutures(FuturesToCoin(route).value) == route
  {
  }

  /** USDT-margined routes and their namesakes, src/api.rs:60-141. */
  lemma FuturesNamesakes4(route: Futures)
    requires route.IndexPriceKlines? || route.MarkPriceKlines? || route.PremiumIndex?
    ensures FuturesToCoin(route).None? <==> route.SubAccountSummary?
    ensures FuturesToCoin(route).Some? ==> CoinToFutures(FuturesToCoin(route).value) == route
  {
  }

  /** USDT-margined routes and their namesakes, src/api.rs:60-141. */
  lemma FuturesNamesakes5(route: Futures)
    requires route.FundingRate? || route.Ticker24hr? || route.TickerPrice?
    ensures FuturesToCoin(route).None? <==> route.SubAccountSummary?
    ensures FuturesToCoin(route).Some? ==> CoinToFutures(FuturesToCoin(route).value) == route
  {
  }

  /** USDT-margined routes and their namesakes, src/api.rs:60-141. */
  lemma FuturesNamesakes6(route: Futures)
    requires route.BookTicker? || route.AllForceOrders? || route.AllOpenOrders?
    ensures FuturesToCoin(route).None? <==> route.SubAccountSummary?
    ensures FuturesToCoin(route).Some? ==> CoinToFutures(FuturesToCoin(route).value) == route
  {
  }

  /** USDT-margined routes and their namesakes, src/api.rs:60-141. */
  lemma FuturesNamesakes7(route: Futures)
    requires route.AllOrders? || route.UserTrades? || route.PositionSide?
    ensures FuturesToCoin(route).None? <==> route.SubAccountSummary?
    ensures FuturesToCoin(route).Some? ==> CoinToFutures(FuturesToCoin(route).value) == route
  {
  }

  /** USDT-margined routes and their namesakes, src/api.rs:60-141. */
  lemma FuturesNamesakes8(route: Futures)
    requires route.Order? || route.PositionRisk? || route.Balance?
    ensures FuturesToCoin(route).None? <==> route.SubAccountSummary?
    ensures FuturesToCoin(route).Some? ==> CoinToFutures(FuturesToCoin(route).value) == route
  {
  }

  /** USDT-margined routes and their namesakes, src/api.rs:60-141. */
  lemma FuturesNamesakes9(route: Futures)
    requires route.OpenInterest? || route.OpenInterestHist? || route.TopLongShortAccountRatio?
    ensures FuturesToCoin(route).None? <==> route.SubAccountSummary?
    ensures FuturesToCoin(route).Some? ==> CoinToFutures(FuturesToCoin(route).value) == route
  {
  }

  /** USDT-margined routes and their namesakes, src/api.rs:60-141. */
  lemma FuturesNamesakes10(route: Futures)
    requires route.TopLongShortPositionRatio? || route.GlobalLongShortAccountRatio? || route.TakerlongshortRatio?
    ensures FuturesToCoin(route).None? <==> route.SubAccountSummary?
    ensures FuturesToCoin(route).Some? ==> CoinToFutures(FuturesToCoin(route).value) == route
  {
  }

  /** USDT-margined routes and their namesakes, src/api.rs:60-141. */
  lemma FuturesNamesakes11(route: Futures)
    requires route.LvtKlines? || route.IndexInfo? || route.ChangeInitialLeverage?
    ensures FuturesToCoin(route).None? <==> route.SubAccountSummary?
    ensures FuturesToCoin(route).Some? ==> CoinToFutures(FuturesToCoin(route).value) == route
  {
  }

  /** USDT-margined routes and their namesakes, src/api.rs:60-141. */
  lemma FuturesNamesakes12(route: Futures)
    requires route.Account? || route.OpenOrders? || route.UserDataStream?
    ensures FuturesToCoin(route).None? <==> route.SubAccountSummary?
    ensures FuturesToCoin(route).Some? ==> CoinToFutures(FuturesToCoin(route).value) == route
  {
  }

  /** USDT-margined routes and their namesakes, src/api.rs:60-141. */
  lemma FuturesNamesakes13(route: Futures)
    requires route.Income? || route.MarginType? || route.SubAccountSummary?
    ensures FuturesToCoin(route).None? <==> route.SubAccountSummary?
    ensures FuturesToCoin(route).Some? ==> CoinToFutures(FuturesToCoin(route).value) == route
  {
  }

  /**
   * Every USDT-margined route but `SubAccountSummary` has a coin-margined
   * namesake, which names it back.
   */
  lemma FuturesNamesakes(route: Futures)
    ensures FuturesToCoin(route).None? <==> route.SubAccountSummary?
    ensures FuturesToCoin(route).Some? ==> CoinToFutures(FuturesToCoin(route).value) == route
  {
    if route.Ping? || route.Time? || route.ExchangeInfo? {
      FuturesNamesakes1(route);
    } else if route.Depth? || route.Trades? || route.HistoricalTrades? {
      FuturesNamesakes2(route);
    } else if route.AggTrades? || route.Klines? || route.ContinuousKlines? {
      FuturesNamesakes3(route);
    } else if route.IndexPriceKlines? || route.MarkPriceKlines? || route.PremiumIndex? {
      FuturesNamesakes4(route);
    } else if route.FundingRate? || route.Ticker24hr? || route.TickerPrice? {
      FuturesNamesakes5(route);
    } else if route.BookTicker? || route.AllForceOrders? || route.AllOpenOrders? {
      FuturesNamesakes6(route);
    } else if route.AllOrders? || route.UserTrades? || route.PositionSide? {
      FuturesNamesakes7(route);
    } else if route.Order? || route.PositionRisk? || route.Balance? {
      FuturesNamesakes8(route);
    } else if route.OpenInterest? || route.OpenInterestHist? || route.TopLongShortAccountRatio? {
      FuturesNamesakes9(route);
    } else if route.TopLongShortPositionRatio? || route.GlobalLongShortAccountRatio? || route.TakerlongshortRatio? {
      FuturesNamesakes10(route);
    } else if route.LvtKlines? || route.IndexInfo? || route.ChangeInitialLeverage? {
      FuturesNamesakes11(route);
    } else if route.Account? || route.OpenOrders? || route.UserDataStream? {
      FuturesNamesakes12(route);
    } else {
      FuturesNamesakes13(route);
    }
  }
}
