/**
 * What the endpoint catalog of src/api.rs guarantees over all routes: every
 * path starts with exactly one root, the one its route class calls for; each
 * family's paths are recognised back to their routes and only to them, so a
 * family never gives two routes one path; the coin-margined paths are the
 * USDT-margined ones with `/fapi/` read as `/dapi/`; and the only paths two
 * different routes share are the analytics paths of the two derivative
 * families.
 */
module ApiProperties {
  import opened Wrappers
  import opened Prefixes
  import opened Api
  import opened ApiFacts

  // ---------------------------------------------------------------------------
  // Roots
  // ---------------------------------------------------------------------------

  /**
   * No root is a prefix of another: the roots differ in the second, third or
   * eighth character.
   */
  lemma RootsApart(a: string, b: string)
    requires IsRoot(a) && IsRoot(b) && a != b
    ensures !Comparable(a, b)
  {
    AgreeAt(a, b, 1);
    AgreeAt(a, b, 2);
    AgreeAt(a, b, 7);
  }

  /**
   * Of the roots, `/fapi/` heads exactly the two versions of the USDT-margined
   * API and `/dapi/` the two versions of the coin-margined one.
   */
  lemma VersionedRoots(r: string)
    requires IsRoot(r)
    ensures Comparable(Fapi, r) <==> r == FapiV1 || r == FapiV2
    ensures Comparable(Dapi, r) <==> r == DapiV1 || r == DapiV2
  {
    AgreeAt(Fapi, r, 1);
    AgreeAt(Fapi, r, 2);
    AgreeAt(Dapi, r, 1);
  }

  /** A path built on one root starts with no other root. */
  lemma OnlyUnder(root: string, t: string, other: string)
    requires IsRoot(root) && IsRoot(other) && root != other
    ensures !(other <= root + t)
  {
    if other <= root + t {
      PrefixesOfOneSequence(root + t, root, other);
      RootsApart(root, other);
    }
  }

  /** A sequence is its prefix followed by the rest. */
  lemma SplitAt(root: string, p: string)
    requires root <= p
    ensures p == root + p[|root|..]
  {
    assert p[..|root|] == root;
  }

  /** The root is the part of a path before its tail. */
  lemma PathSplits(item: API)
    ensures Path(item) == Root(item) + Path(item)[|Root(item)|..]
  {
    var root := Root(item);
    match item
    case Spot(route) => assert Path(item) == root + SpotTail(route);
    case Savings(route) => assert Path(item) == root + SapiTail(route);
    case Futures(route) => assert Path(item) == root + FuturesTail(route);
    case FuturesCoin(route) => assert Path(item) == root + FuturesCoinTail(route);
  }

  /**
   * Of all the roots, a path starts with exactly the one its route class is
   * expected under.
   */
  lemma PathRoot(item: API, r: string)
    requires IsRoot(r)
    ensures r <= Path(item) <==> r == Root(item)
  {
    PathSplits(item);
    if r != Root(item) {
      OnlyUnder(Root(item), Path(item)[|Root(item)|..], r);
    }
  }

  /** Every path is absolute. */
  lemma PathIsAbsolute(item: API)
    ensures |Path(item)| > 0 && Path(item)[0] == '/'
  {
    PathSplits(item);
    assert Path(item)[0] == Root(item)[0];
  }

  /**
   * The USDT-margined paths by prefix: the analytics routes under
   * `/futures/data/`, the sub-account summary under `/sapi/v2/`, the four
   * pinned routes under `/fapi/v2/`, and all others under `/fapi/v1/`.
   */
  lemma FuturesPathClasses(route: Futures)
    ensures FuturesData <= FuturesPath(route) <==> route.IsAnalytics()
    ensures SapiV2 <= FuturesPath(route) <==> route.SubAccountSummary?
    ensures FapiV2 <= FuturesPath(route) <==> route.IsPinnedV2()
    ensures FapiV1 <= FuturesPath(route) <==> route.IsV1()
    ensures Fapi <= FuturesPath(route) <==> route.IsV1() || route.IsPinnedV2()
  {
    var item := API.Futures(route);
    PathRoot(item, FuturesData);
    PathRoot(item, SapiV2);
    PathRoot(item, FapiV2);
    PathRoot(item, FapiV1);
    var p := FuturesPath(route);
    if route.IsV1() {
      PrefixTransitive(Fapi, FapiV1, p);
    } else if route.IsPinnedV2() {
      PrefixTransitive(Fapi, FapiV2, p);
    } else {
      VersionedRoots(FuturesRoot(route));
      if Fapi <= p {
        PrefixesOfOneSequence(p, Fapi, FuturesRoot(route));
      }
    }
  }

  /**
   * The coin-margined paths by prefix: the analytics routes under
   * `/futures/data/`, the four pinned routes under `/dapi/v2/`, and all
   * others under `/dapi/v1/`.
   */
  lemma FuturesCoinPathClasses(route: FuturesCoin)
    ensures FuturesData <= FuturesCoinPath(route) <==> route.IsAnalytics()
    ensures DapiV2 <= FuturesCoinPath(route) <==> route.IsPinnedV2()
    ensures DapiV1 <= FuturesCoinPath(route) <==> route.IsV1()
    ensures Dapi <= FuturesCoinPath(route) <==> !route.IsAnalytics()
  {
    var item := API.FuturesCoin(route);
    PathRoot(item, FuturesData);
    PathRoot(item, DapiV2);
    PathRoot(item, DapiV1);
    var p := FuturesCoinPath(route);
    if route.IsV1() {
      PrefixTransitive(Dapi, DapiV1, p);
    } else if route.IsPinnedV2() {
      PrefixTransitive(Dapi, DapiV2, p);
    } else {
      VersionedRoots(FuturesData);
      if Dapi <= p {
        PrefixesOfOneSequence(p, Dapi, FuturesData);
      }
    }
  }

  /** Two spot-host paths written out, src/api.rs:147 and 172. */
  lemma SpotHostPaths()
    ensures Path(API.Spot(Spot.Ping)) == "/api/v3/" + "ping"
    ensures Path(API.Savings(Sapi.AllCoins)) == "/sapi/v1/" + "capital/config/getall"
  {
  }

  /** Two version 1 derivatives paths written out, src/api.rs:198 and 254. */
  lemma VersionOnePaths()
    ensures Path(API.Futures(Futures.PositionSide)) == "/fapi/v1/" + "positionSide/dual"
    ensures Path(API.FuturesCoin(FuturesCoin.UserDataStream)) == "/dapi/v1/" + "listenKey"
  {
  }

  /** Two pinned version 2 paths written out, src/api.rs:192 and 252. */
  lemma VersionTwoPaths()
    ensures Path(API.Futures(Futures.TickerPrice)) == "/fapi/v2/" + "ticker/price"
    ensures Path(API.FuturesCoin(FuturesCoin.Account)) == "/dapi/v2/" + "account"
  {
  }

  /** An analytics path and the sub-account summary path written out, src/api.rs:244 and 216. */
  lemma OtherRootPaths()
    ensures Path(API.FuturesCoin(FuturesCoin.OpenInterestHist)) == "/futures/data/" + "openInterestHist"
    ensures Path(API.Futures(Futures.SubAccountSummary)) == "/sapi/v2/" + "sub-account/futures/accountSummary"
  {
  }

  /** The order, account and transfer paths written out, src/api.rs:159, 211 and 175. */
  lemma OrderAccountTransferPaths()
    ensures Path(API.Spot(Spot.Order)) == "/api/v3/" + "order"
    ensures Path(API.Futures(Futures.Account)) == "/fapi/v2/" + "account"
    ensures Path(API.Savings(Sapi.SpotFuturesTransfer)) == "/sapi/v1/" + "futures/transfer"
  {
  }

  // ---------------------------------------------------------------------------
  // Recognisers: each is the inverse of its family's resolution
  // ---------------------------------------------------------------------------

  /** A spot path is recognised as its route. */
  lemma SpotRoundTrip(route: Spot)
    ensures ParseSpot(SpotPath(route)) == Some(route)
  {
    SpotTailsRecognised(route);
  }

  /** A path recognised as a spot route is that route's path. */
  lemma SpotParseSound(p: string, route: Spot)
    requires ParseSpot(p) == Some(route)
    ensures SpotPath(route) == p
  {
    SpotTailsSound(p[|ApiV3|..], route);
    SplitAt(ApiV3, p);
  }

  /** `ParseSpot` recognises exactly the spot paths. */
  lemma SpotParseInverse(p: string, route: Spot)
    ensures ParseSpot(p) == Some(route) <==> SpotPath(route) == p
  {
    if ParseSpot(p) == Some(route) {
      SpotParseSound(p, route);
    }
    if SpotPath(route) == p {
      SpotRoundTrip(route);
    }
  }

  /** A savings path is recognised as its route. */
  lemma SapiRoundTrip(route: Sapi)
    ensures ParseSapi(SapiPath(route)) == Some(route)
  {
    SapiTailsRecognised(route);
  }

  /** `ParseSapi` recognises exactly the savings paths. */
  lemma SapiParseInverse(p: string, route: Sapi)
    ensures ParseSapi(p) == Some(route) <==> SapiPath(route) == p
  {
    if ParseSapi(p) == Some(route) {
      SapiTailsSound(p[|SapiV1|..], route);
      SplitAt(SapiV1, p);
    }
    if SapiPath(route) == p {
      SapiRoundTrip(route);
    }
  }

  /** A USDT-margined path is recognised as its route. */
  lemma FuturesRoundTrip(route: Futures)
    ensures ParseFutures(FuturesPath(route)) == Some(route)
  {
    var t := FuturesTail(route);
    if route.IsAnalytics() {
      OnlyUnder(FuturesData, t, FapiV1);
      OnlyUnder(FuturesData, t, FapiV2);
      DataTailsRecognised(route);
    } else if route.SubAccountSummary? {
      OnlyUnder(SapiV2, t, FapiV1);
      OnlyUnder(SapiV2, t, FapiV2);
      OnlyUnder(SapiV2, t, FuturesData);
    } else if route.IsPinnedV2() {
      OnlyUnder(FapiV2, t, FapiV1);
      V2TailsRecognised(route);
    } else {
      V1TailsRecognised(route);
    }
  }

  /** A path recognised as a USDT-margined route is that route's path. */
  lemma FuturesParseSound(p: string, route: Futures)
    requires ParseFutures(p) == Some(route)
    ensures FuturesPath(route) == p
  {
    if FapiV1 <= p {
      V1TailsSound(p[|FapiV1|..], route);
      SplitAt(FapiV1, p);
    } else if FapiV2 <= p {
      V2TailsSound(p[|FapiV2|..], route);
      SplitAt(FapiV2, p);
    } else if FuturesData <= p {
      DataTailsSound(p[|FuturesData|..], route);
      SplitAt(FuturesData, p);
    } else {
      SplitAt(SapiV2, p);
    }
  }

  /** `ParseFutures` recognises exactly the USDT-margined paths. */
  lemma FuturesParseInverse(p: string, route: Futures)
    ensures ParseFutures(p) == Some(route) <==> FuturesPath(route) == p
  {
    if ParseFutures(p) == Some(route) {
      FuturesParseSound(p, route);
    }
    if FuturesPath(route) == p {
      FuturesRoundTrip(route);
    }
  }

  /** A coin-margined path is recognised as its route. */
  lemma FuturesCoinRoundTrip(route: FuturesCoin)
    ensures ParseFuturesCoin(FuturesCoinPath(route)) == Some(route)
  {
    var f := CoinToFutures(route);
    CoinNamesakes(route);
    CoinTailsMirrored(route);
    if route.IsAnalytics() {
      DataTailsRecognised(f);
      CoinRecognisedUnder(FuturesData, FuturesTail(f), f, route);
    } else if route.IsPinnedV2() {
      V2TailsRecognised(f);
      CoinRecognisedUnder(DapiV2, FuturesTail(f), f, route);
    } else {
      V1TailsRecognised(f);
      CoinRecognisedUnder(DapiV1, FuturesTail(f), f, route);
    }
  }

  /**
   * A tail that a USDT-margined recogniser maps to a route with namesake
   * `c`, under the coin-margined root of that recogniser, is recognised as `c`.
   */
  lemma CoinRecognisedUnder(root: string, t: string, f: Futures, c: FuturesCoin)
    requires root == DapiV1 || root == DapiV2 || root == FuturesData
    requires root == DapiV1 ==> ParseV1Tail(t) == Some(f)
    requires root == DapiV2 ==> ParseV2Tail(t) == Some(f)
    requires root == FuturesData ==> ParseDataTail(t) == Some(f)
    requires FuturesToCoin(f) == Some(c)
    ensures ParseFuturesCoin(root + t) == Some(c)
  {
    if root != DapiV1 {
      OnlyUnder(root, t, DapiV1);
    }
    if root == FuturesData {
      OnlyUnder(root, t, DapiV2);
    }
  }

  /** A path recognised as a coin-margined route is that route's path. */
  lemma FuturesCoinParseSound(p: string, route: FuturesCoin)
    requires ParseFuturesCoin(p) == Some(route)
    ensures FuturesCoinPath(route) == p
  {
    CoinNamesakes(route);
    CoinTailsMirrored(route);
    var root := if DapiV1 <= p then DapiV1 else if DapiV2 <= p then DapiV2 else FuturesData;
    var t := p[|root|..];
    var found := if root == DapiV1 then ParseV1Tail(t)
      else if root == DapiV2 then ParseV2Tail(t) else ParseDataTail(t);
    assert ToCoin(found) == Some(route);
    var f := found.value;
    FuturesNamesakes(f);
    if root == DapiV1 {
      V1TailsSound(t, f);
    } else if root == DapiV2 {
      V2TailsSound(t, f);
    } else {
      DataTailsSound(t, f);
    }
    SplitAt(root, p);
  }

  /** `ParseFuturesCoin` recognises exactly the coin-margined paths. */
  lemma FuturesCoinParseInverse(p: string, route: FuturesCoin)
    ensures ParseFuturesCoin(p) == Some(route) <==> FuturesCoinPath(route) == p
  {
    if ParseFuturesCoin(p) == Some(route) {
      FuturesCoinParseSound(p, route);
    }
    if FuturesCoinPath(route) == p {
      FuturesCoinRoundTrip(route);
    }
  }

  // ---------------------------------------------------------------------------
  // Distinct routes of a family have distinct paths
  // ---------------------------------------------------------------------------

  lemma SpotPathInjective(a: Spot, b: Spot)
    ensures SpotPath(a) == SpotPath(b) <==> a == b
  {
    SpotRoundTrip(a);
    SpotRoundTrip(b);
  }

  lemma SapiPathInjective(a: Sapi, b: Sapi)
    ensures SapiPath(a) == SapiPath(b) <==> a == b
  {
    SapiRoundTrip(a);
    SapiRoundTrip(b);
  }

  lemma FuturesPathInjective(a: Futures, b: Futures)
    ensures FuturesPath(a) == FuturesPath(b) <==> a == b
  {
    FuturesRoundTrip(a);
    FuturesRoundTrip(b);
  }

  lemma FuturesCoinPathInjective(a: FuturesCoin, b: FuturesCoin)
    ensures FuturesCoinPath(a) == FuturesCoinPath(b) <==> a == b
  {
    FuturesCoinRoundTrip(a);
    FuturesCoinRoundTrip(b);
  }

  // ---------------------------------------------------------------------------
  // The two derivative families
  // ---------------------------------------------------------------------------

  /**
   * A coin-margined path is the path of its USDT-margined namesake with the
   * leading `/fapi/` replaced by `/dapi/`; the analytics paths, which do not
   * start with `/fapi/`, are the same in both families.
   */
  lemma CoinPathsMirrorFutures(route: FuturesCoin)
    ensures FuturesCoinPath(route) == ReplacePrefix(FuturesPath(CoinToFutures(route)), Fapi, Dapi)
    ensures route.IsAnalytics() ==> FuturesCoinPath(route) == FuturesPath(CoinToFutures(route))
  {
    CoinNamesakes(route);
    CoinTailsMirrored(route);
    ReadAsDapi(FuturesTail(CoinToFutures(route)));
  }

  /**
   * Reading `/fapi/` as `/dapi/` takes each USDT-margined root to its
   * coin-margined counterpart and leaves the analytics root alone.
   */
  lemma ReadAsDapi(t: string)
    ensures ReplacePrefix(FapiV1 + t, Fapi, Dapi) == DapiV1 + t
    ensures ReplacePrefix(FapiV2 + t, Fapi, Dapi) == DapiV2 + t
    ensures ReplacePrefix(FuturesData + t, Fapi, Dapi) == FuturesData + t
  {
    assert (FapiV1 + t)[|Fapi|..] == FapiV1[|Fapi|..] + t;
    assert (FapiV2 + t)[|Fapi|..] == FapiV2[|Fapi|..] + t;
    VersionedRoots(FuturesData);
    if Fapi <= FuturesData + t {
      PrefixesOfOneSequence(FuturesData + t, Fapi, FuturesData);
    }
  }

  /** A USDT-margined route and a coin-margined route whose paths coincide. */
  predicate SharedAnalytics(f: Futures, c: FuturesCoin) {
    c.IsAnalytics() && f == CoinToFutures(c)
  }

  /**
   * Two routes of the catalog have the same path exactly when they are the
   * same route, or one is an analytics route of one derivative family and the
   * other its namesake in the other family.
   */
  lemma SamePath(a: API, b: API)
    ensures Path(a) == Path(b) <==>
      || a == b
      || (a.Futures? && b.FuturesCoin? && SharedAnalytics(a.futures, b.coin))
      || (a.FuturesCoin? && b.Futures? && SharedAnalytics(b.futures, a.coin))
  {
    if Path(a) == Path(b) {
      SamePathCases(a, b);
    }
    if a.Futures? && b.FuturesCoin? && SharedAnalytics(a.futures, b.coin) {
      CoinPathsMirrorFutures(b.coin);
    }
    if a.FuturesCoin? && b.Futures? && SharedAnalytics(b.futures, a.coin) {
      CoinPathsMirrorFutures(a.coin);
    }
  }

  /** Two routes with one path have one root. */
  lemma SameRoot(a: API, b: API)
    requires Path(a) == Path(b)
    ensures Root(a) == Root(b)
  {
    PathSplits(a);
    PathRoot(b, Root(a));
  }

  /** The routes that two routes with one path can be. */
  lemma SamePathCases(a: API, b: API)
    requires Path(a) == Path(b)
    ensures
      || a == b
      || (a.Futures? && b.FuturesCoin? && SharedAnalytics(a.futures, b.coin))
      || (a.FuturesCoin? && b.Futures? && SharedAnalytics(b.futures, a.coin))
  {
    SameRoot(a, b);
    match a
    case Spot(r) => if b.Spot? { SpotPathInjective(r, b.spot); }
    case Savings(r) => if b.Savings? { SapiPathInjective(r, b.sapi); }
    case Futures(r) =>
      if b.Futures? {
        FuturesPathInjective(r, b.futures);
      } else if b.FuturesCoin? {
        SharedAcross(r, b.coin);
      }
    case FuturesCoin(r) =>
      if b.FuturesCoin? {
        FuturesCoinPathInjective(r, b.coin);
      } else if b.Futures? {
        SharedAcross(b.futures, r);
      }
  }

  /** A USDT-margined and a coin-margined route with one root and one path. */
  lemma SharedAcross(f: Futures, c: FuturesCoin)
    requires FuturesRoot(f) == FuturesCoinRoot(c)
    requires FuturesPath(f) == FuturesCoinPath(c)
    ensures SharedAnalytics(f, c)
  {
    DerivativeRootsMeet(f, c);
    CoinPathsMirrorFutures(c);
    FuturesPathInjective(f, CoinToFutures(c));
  }

  /** The two derivative families share only the analytics root. */
  lemma DerivativeRootsMeet(f: Futures, c: FuturesCoin)
    requires FuturesRoot(f) == FuturesCoinRoot(c)
    ensures f.IsAnalytics() && c.IsAnalytics()
  {
    assert FuturesRoot(f)[1] == FuturesCoinRoot(c)[1];
  }
}
