# binance-rs endpoint catalog and client factory

A model of `src/api.rs` of the binance-rs client library. The file has two parts.

**The endpoint catalog.** Four closed enumerations of REST routes, one per product family:
- `Spot`: spot trading under `/api/v3/`.
- `Sapi`: wallet routes under `/sapi/v1/`.
- `Futures`: USDT-margined derivatives.
- `FuturesCoin`: coin-margined derivatives.

The `API` sum ranges over all four families. The conversion `From<API> for String` maps every route to its path. In the model (module `Api`, file `api.dfy`):
- Each enumeration is a datatype, and `Path` is the conversion.
- Every path literal of the source is written as a *root* (such as `/fapi/v1/`) followed by a named *tail* (such as `ping`).
- Concatenated, root and tail give the source's literal character for character: `Futures.TickerPrice` resolves to `FapiV2 + TickerPriceTail`, which is `/fapi/v2/ticker/price`.
- The tail of each route comes from a match in the order of the source's arms. Its root comes from the route's class: analytics, pinned to version 2, version 1, or the one sub-account route.

For each family the model adds a recogniser (`ParseSpot`, `ParseSapi`, `ParseFutures`, `ParseFuturesCoin`). A recogniser maps a path back to its route and is proved to be the exact inverse of resolution. It is the partner of `Path`: it gives injectivity and the other properties without a quadratic case split. The same-name correspondence between the two derivative families is `CoinToFutures` / `FuturesToCoin`.

`api_facts.dfy` (module `ApiFacts`) holds per-route facts about the tail tables, one lemma per table. The larger ones are proved in chunks of a few routes each. `api_properties.dfy` (module `ApiProperties`) states what holds over all routes:
- roots and prefix classes;
- recognisers and injectivity;
- the `/fapi/` to `/dapi/` mirror;
- which routes of different families share a path.

`prefixes.dfy` holds generic facts about sequence prefixes. `wrappers.dfy` defines `Option`.

**The client factory** (module `Binance`, file `binance.dfy`). This part covers the `Binance` trait and its twelve implementations. Each `new_with_config` builds a `Client` from:
- the caller's credentials, unchanged;
- one endpoint of the configuration, chosen by the implementor's venue: spot, USDT-margined or coin-margined.

All implementors except the three general-information clients also copy the configuration's receive window. Each `new` is `new_with_config` with the default configuration. An implementor is modelled as a `Capability`: its kind, its client, and its optional receive window.

## Model

| member | source | states |
|---|---|---|
| Api.Path | src/api.rs:143-260 | the conversion of a route to its path is total over every variant of every family, and every path is the root of its route's class followed by a non-empty tail that does not begin with `/` |
| Api.SpotPath | src/api.rs:146-170 | every spot path is `/api/v3/` followed by a tail |
| Api.SapiPath | src/api.rs:171-176 | every savings path is `/sapi/v1/` followed by a tail |
| Api.FuturesPath | src/api.rs:177-217 | every USDT-margined path is the root of its route's class followed by a tail |
| Api.FuturesCoinPath | src/api.rs:218-257 | every coin-margined path is the root of its route's class followed by a tail |
| Api.SpotTail | src/api.rs:147-169 | every spot literal continues after its root with a non-empty part that does not begin with `/`; the arms follow the source's order |
| Api.SapiTail | src/api.rs:172-175 | every savings literal continues after its root with a non-empty part that does not begin with `/` |
| Api.FuturesTail | src/api.rs:178-216 | every USDT-margined literal continues after its root with a non-empty part that does not begin with `/`; the arms follow the source's order |
| Api.FuturesCoinTail | src/api.rs:219-256 | every coin-margined literal continues after its root with a non-empty part that does not begin with `/`; the arms follow the source's order |
| Api.FuturesRoot | src/api.rs:178-216 | the root a USDT-margined route resolves under is one of the catalog's roots |
| Api.FuturesCoinRoot | src/api.rs:219-256 | the root a coin-margined route resolves under is one of the catalog's roots |
| Api.Root | src/api.rs:145-258 | every route of every family resolves under one of the catalog's roots |
| ApiProperties.RootsApart | src/api.rs:147-256 | no two distinct roots are prefixes of one another, so a path's root is unambiguous |
| ApiProperties.PathRoot | src/api.rs:145-258 | a path starts with a given root if and only if that root is the one its route class is served under |
| ApiProperties.PathIsAbsolute | src/api.rs:145-258 | resolution is total, and every path is non-empty and begins with `/` |
| ApiProperties.FuturesPathClasses | src/api.rs:178-216 | a USDT-margined path starts with `/futures/data/` iff analytics, `/sapi/v2/` iff `SubAccountSummary`, `/fapi/v2/` iff one of the four pinned routes, `/fapi/v1/` iff any other route, and `/fapi/` iff neither analytics nor the sub-account summary |
| ApiProperties.FuturesCoinPathClasses | src/api.rs:219-256 | a coin-margined path starts with `/futures/data/` iff analytics, `/dapi/v2/` iff pinned, `/dapi/v1/` iff any other route, and `/dapi/` iff not analytics |
| ApiProperties.SpotHostPaths | src/api.rs:147-172 | `Spot.Ping` resolves to `/api/v3/ping` and `Sapi.AllCoins` to `/sapi/v1/capital/config/getall` |
| ApiProperties.VersionOnePaths | src/api.rs:198-254 | `Futures.PositionSide` resolves to `/fapi/v1/positionSide/dual` and `FuturesCoin.UserDataStream` to `/dapi/v1/listenKey` |
| ApiProperties.VersionTwoPaths | src/api.rs:192-252 | `Futures.TickerPrice` resolves to `/fapi/v2/ticker/price` and `FuturesCoin.Account` to `/dapi/v2/account` |
| ApiProperties.OtherRootPaths | src/api.rs:216-244 | `FuturesCoin.OpenInterestHist` resolves to `/futures/data/openInterestHist` and `Futures.SubAccountSummary` to `/sapi/v2/sub-account/futures/accountSummary` |
| ApiProperties.OrderAccountTransferPaths | src/api.rs:159-211 | `Spot.Order` resolves to `/api/v3/order`, `Futures.Account` to `/fapi/v2/account` and `Sapi.SpotFuturesTransfer` to `/sapi/v1/futures/transfer` |
| ApiProperties.SpotRoundTrip | src/api.rs:146-170 | the path of every spot route is recognised as that route |
| ApiProperties.SpotParseSound | src/api.rs:146-170 | a path recognised as a spot route is that route's path |
| ApiProperties.SpotParseInverse | src/api.rs:146-170 | a path is recognised as a spot route if and only if it is that route's path |
| ApiProperties.SapiRoundTrip | src/api.rs:171-176 | the path of every savings route is recognised as that route |
| ApiProperties.SapiParseInverse | src/api.rs:171-176 | a path is recognised as a savings route if and only if it is that route's path |
| ApiProperties.FuturesRoundTrip | src/api.rs:177-217 | the path of every USDT-margined route is recognised as that route |
| ApiProperties.FuturesParseSound | src/api.rs:177-217 | a path recognised as a USDT-margined route is that route's path |
| ApiProperties.FuturesParseInverse | src/api.rs:177-217 | a path is recognised as a USDT-margined route if and only if it is that route's path |
| ApiProperties.FuturesCoinRoundTrip | src/api.rs:218-257 | the path of every coin-margined route is recognised as that route |
| ApiProperties.CoinRecognisedUnder | src/api.rs:218-257 | a tail that the USDT-margined tables recognise as a route, placed under the matching coin-margined root, is recognised as that route's coin-margined namesake |
| ApiProperties.FuturesCoinParseSound | src/api.rs:218-257 | a path recognised as a coin-margined route is that route's path |
| ApiProperties.FuturesCoinParseInverse | src/api.rs:218-257 | a path is recognised as a coin-margined route if and only if it is that route's path |
| ApiProperties.SpotPathInjective | src/api.rs:147-169 | two spot routes have the same path if and only if they are the same route |
| ApiProperties.SapiPathInjective | src/api.rs:172-175 | two savings routes have the same path if and only if they are the same route |
| ApiProperties.FuturesPathInjective | src/api.rs:178-216 | two USDT-margined routes have the same path if and only if they are the same route |
| ApiProperties.FuturesCoinPathInjective | src/api.rs:219-256 | two coin-margined routes have the same path if and only if they are the same route |
| ApiProperties.CoinPathsMirrorFutures | src/api.rs:178-256 | every coin-margined path is its USDT-margined namesake's path with a leading `/fapi/` read as `/dapi/`; the analytics paths are byte-identical in both families |
| ApiProperties.SamePath | src/api.rs:145-258 | two routes of the catalog share a path if and only if they are the same route, or one is an analytics route of a derivative family and the other its namesake in the other family |
| ApiProperties.SamePathCases | src/api.rs:145-258 | two routes with one path are either the same route or a pair of analytics namesakes |
| ApiProperties.SharedAcross | src/api.rs:203-248 | a USDT-margined and a coin-margined route with one root and one path are analytics namesakes |
| ApiProperties.DerivativeRootsMeet | src/api.rs:178-256 | the only root the two derivative families share is the analytics root |
| ApiProperties.ReadAsDapi | src/api.rs:178-256 | replacing `/fapi/` by `/dapi/` takes `/fapi/v1/` and `/fapi/v2/` paths to `/dapi/v1/` and `/dapi/v2/` paths and leaves `/futures/data/` paths unchanged |
| ApiFacts.SpotTailsRecognised | src/api.rs:147-169 | the spot tail table recognises every spot route's tail as that route |
| ApiFacts.SpotTailsSound | src/api.rs:147-169 | a tail the spot tail table recognises as a route is that route's tail |
| ApiFacts.SapiTailsRecognised | src/api.rs:172-175 | the savings tail table recognises every savings route's tail as that route |
| ApiFacts.SapiTailsSound | src/api.rs:172-175 | a tail the savings tail table recognises as a route is that route's tail |
| ApiFacts.V1TailsRecognised | src/api.rs:178-215 | the version 1 tail table recognises the tail of every version 1 route as that route |
| ApiFacts.V1TailsSound | src/api.rs:178-215 | a tail the version 1 table recognises is the tail of a version 1 route, namely the recognised one |
| ApiFacts.V2TailsRecognised | src/api.rs:192-211 | the version 2 tail table recognises the tail of each of the four pinned routes as that route |
| ApiFacts.V2TailsSound | src/api.rs:192-211 | a tail the version 2 table recognises is the tail of a pinned route, namely the recognised one |
| ApiFacts.DataTailsRecognised | src/api.rs:203-207 | the analytics tail table recognises the tail of each analytics route as that route |
| ApiFacts.DataTailsSound | src/api.rs:203-207 | a tail the analytics table recognises is the tail of an analytics route, namely the recognised one |
| ApiFacts.CoinTailsMirrored | src/api.rs:178-256 | every coin-margined route has the same tail as its USDT-margined namesake |
| ApiFacts.CoinNamesakes | src/api.rs:60-141 | every coin-margined route has a USDT-margined namesake of the same class, and maps back to it |
| ApiFacts.FuturesNamesakes | src/api.rs:60-141 | `SubAccountSummary` is the only USDT-margined route without a coin-margined namesake, and the correspondence is a bijection on the rest |
| Binance.VenueOf | src/api.rs:277-473 | the endpoint each implementor passes to `Client::new`: the coin-margined implementors (`FuturesCoinGeneral`, `FuturesCoinMarket`, `FuturesCoinAccount`) read the coin-margined endpoint, the USDT-margined ones (`FuturesGeneral`, `FuturesMarket`, `FuturesAccount`, `FuturesUserStream`) the USDT-margined one, and all others the spot one |
| Binance.IsGeneral | src/api.rs:269-477 | an implementor lacks a `recv_window` field if and only if it is the general-information client of its own venue |
| Binance.GeneralOf | src/api.rs:277-379 | the general-information client of each venue reads that venue's endpoint |
| Binance.OneGeneralPerVenue | src/api.rs:269-379 | each venue has exactly one general-information client: its `GeneralOf` is one, and any general client of that venue is it |
| Binance.NewWithConfig | src/api.rs:269-477 | every implementor's `new_with_config` is total. It keeps the credentials unchanged, takes the host from its venue's endpoint, and copies the receive window unless it is one of the three general clients |
| Binance.New | src/api.rs:269-477 | every `new` is `new_with_config` with the default configuration: the credentials are unchanged, the host is the venue's default endpoint, and the default receive window is copied unless the client is a general one |
| Binance.HostIsVenueEndpoint | src/api.rs:277-473 | an implementor takes its host from a venue's endpoint in every configuration if and only if that venue is its own |
| Binance.RecvWindowCopied | src/api.rs:277-476 | an implementor copies the receive window in every configuration if and only if it is not a general client, and carries none in any configuration if and only if it is |
| Binance.ReadsOnlyItsEndpoint | src/api.rs:277-476 | two configurations with the same endpoint for the implementor's venue and the same receive window give the same implementor |
| Binance.SameVenueSameClient | src/api.rs:277-476 | implementors of one venue built from one configuration and one pair of credentials share a client, and those with a receive window share it |

Notes:
- `Savings` reads `rest_api_endpoint` (src/api.rs:307).
- `FuturesUserStream` reads `futures_rest_api_endpoint` (src/api.rs:472).
- There is no coin-margined user-stream client.

## Left out

- `Client::new` (src/client.rs) is not part of this model. A `Client` is the record of the three arguments it is given; transport, signing and retries are not modelled.
- `Config` (src/config.rs) is not part of this model. Only the four fields the factory reads are modelled. `Config::default()` is the constant `DefaultConfig`, whose field values (the production hosts and the default receive window) are left unspecified.
- The request methods of the client modules are not modelled; `src/api.rs` only constructs the clients.
- String allocation and `clone()` are plain value copies of `seq<char>`.
- Nothing in `src/api.rs` is concurrent, so no concurrency is modelled.
- Path: each literal is written as a root constant followed by a tail constant, rather than as one string. The root is derived from the route's class, so the concatenation equals the source's literal.
- The recognisers and the namesake maps (`ParseSpot`, `ParseSapi`, `ParseFutures`, `ParseFuturesCoin`, `CoinToFutures`, `FuturesToCoin`) add to the source. They exist to state and prove the properties of `Path`, and the source has no counterpart.
