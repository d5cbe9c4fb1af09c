/**
 * The client factory of src/api.rs: the `Binance` trait and its twelve
 * implementations. Every implementor is a record holding a `Client` built from
 * the caller's credentials and one endpoint of the configuration and, except
 * the three general-information clients, the configuration's receive window.
 * `new` is `new_with_config` with the default configuration.
 *
 * `Client::new` (src/client.rs) and `Config` (src/config.rs) are not part of
 * this model: a `Client` is the record of the three arguments it is given, a
 * `Config` holds the four fields the factory reads, and the default
 * configuration is a constant whose field values are left unspecified.
 */
module Binance {
  import opened Wrappers

  /** Rust's `u64`, the type of `recv_window`. */
  newtype u64 = x: int | 0 <= x < 0x1_0000_0000_0000_0000

  /** The fields of the configuration that the factory reads. */
  datatype Config = Config(
    restApiEndpoint: string,
    futuresRestApiEndpoint: string,
    futuresCoinRestApiEndpoint: string,
    recvWindow: u64)

  /** The arguments `Client::new` is given: two optional credentials and a host. */
  datatype Client = Client(apiKey: Option<string>, secretKey: Option<string>, host: string)

  /** The twelve implementors of `Binance`. */
  datatype Kind =
    | General | Account | Savings | Market | UserStream
    | FuturesGeneral | FuturesCoinGeneral | FuturesMarket | FuturesCoinMarket
    | FuturesAccount | FuturesCoinAccount | FuturesUserStream

  /**
   * A constructed implementor: which one it is, its `client` field and its
   * `recv_window` field, `None` for the implementors that have no such field.
   */
  datatype Capability = Capability(kind: Kind, client: Client, recvWindow: Option<u64>)

  /** The configuration `Config::default()` gives; the values of its fields are left unspecified. */
  const DefaultConfig: Config

  // ---------------------------------------------------------------------------
  // The grouping the factory follows
  // ---------------------------------------------------------------------------

  /** The three endpoints of the configuration. */
  datatype Venue = Spot | UsdMargined | CoinMargined

  /** The implementors that talk to the coin-margined derivatives host. */
  predicate IsCoinMargined(kind: Kind) {
    kind.FuturesCoinGeneral? || kind.FuturesCoinMarket? || kind.FuturesCoinAccount?
  }

  /** The implementors that talk to the USDT-margined derivatives host. */
  predicate IsUsdMargined(kind: Kind) {
    kind.FuturesGeneral? || kind.FuturesMarket? || kind.FuturesAccount? || kind.FuturesUserStream?
  }

  /**
   * The venue whose endpoint each implementor's `new_with_config` passes to
   * `Client::new`: the coin-margined implementors read the coin-margined
   * endpoint, the other derivatives implementors the USDT-margined one, and
   * the rest the spot one.
   */
  function VenueOf(kind: Kind): (v: Venue)
    ensures v == CoinMargined <==> IsCoinMargined(kind)
    ensures v == UsdMargined <==> IsUsdMargined(kind)
    ensures v == Spot <==> !IsCoinMargined(kind) && !IsUsdMargined(kind)
  {
    match kind
    case General => Spot
    case Account => Spot
    case Savings => Spot
    case Market => Spot
    case UserStream => Spot
    case FuturesGeneral => UsdMargined
    case FuturesCoinGeneral => CoinMargined
    case FuturesMarket => UsdMargined
    case FuturesCoinMarket => CoinMargined
    case FuturesAccount => UsdMargined
    case FuturesCoinAccount => CoinMargined
    case FuturesUserStream => UsdMargined
  }

  /** The endpoint of a venue in a configuration. */
  function Endpoint(venue: Venue, config: Config): string {
    match venue
    case Spot => config.restApiEndpoint
    case UsdMargined => config.futuresRestApiEndpoint
    case CoinMargined => config.futuresCoinRestApiEndpoint
  }

  /**
   * The implementors without a `recv_window` field: one general-information
   * client per venue.
   */
  predicate IsGeneral(kind: Kind)
    ensures IsGeneral(kind) <==> kind == GeneralOf(VenueOf(kind))
  {
    kind.General? || kind.FuturesGeneral? || kind.FuturesCoinGeneral?
  }

  /** The general-information client of a venue. */
  function GeneralOf(venue: Venue): (kind: Kind)
    ensures VenueOf(kind) == venue
  {
    match venue
    case Spot => General
    case UsdMargined => FuturesGeneral
    case CoinMargined => FuturesCoinGeneral
  }

  // ---------------------------------------------------------------------------
  // Construction
  // ---------------------------------------------------------------------------

  /**
   * `new_with_config` of each implementor: the credentials go to the client
   * unchanged, the host is the endpoint of the implementor's venue, and the
   * receive window is copied from the configuration by every implementor
   * that has the field. Construction is total.
   */
  function NewWithConfig(kind: Kind, apiKey: Option<string>, secretKey: Option<string>, config: Config): (c: Capability)
    ensures c.kind == kind
    ensures c.client.apiKey == apiKey && c.client.secretKey == secretKey
    ensures c.client.host == Endpoint(VenueOf(kind), config)
    ensures c.recvWindow == if IsGeneral(kind) then None else Some(config.recvWindow)
  {
    match kind
    case General =>
      Capability(General, Client(apiKey, secretKey, config.restApiEndpoint), None)
    case Account =>
      Capability(Account, Client(apiKey, secretKey, config.restApiEndpoint), Some(config.recvWindow))
    case Savings =>
      Capability(Savings, Client(apiKey, secretKey, config.restApiEndpoint), Some(config.recvWindow))
    case Market =>
      Capability(Market, Client(apiKey, secretKey, config.restApiEndpoint), Some(config.recvWindow))
    case UserStream =>
      Capability(UserStream, Client(apiKey, secretKey, config.restApiEndpoint), Some(config.recvWindow))
    case FuturesGeneral =>
      Capability(FuturesGeneral, Client(apiKey, secretKey, config.futuresRestApiEndpoint), None)
    case FuturesCoinGeneral =>
      Capability(FuturesCoinGeneral, Client(apiKey, secretKey, config.futuresCoinRestApiEndpoint), None)
    case FuturesMarket =>
      Capability(FuturesMarket, Client(apiKey, secretKey, config.futuresRestApiEndpoint), Some(config.recvWindow))
    case FuturesCoinMarket =>
      Capability(FuturesCoinMarket, Client(apiKey, secretKey, config.futuresCoinRestApiEndpoint), Some(config.recvWindow))
    case FuturesAccount =>
      Capability(FuturesAccount, Client(apiKey, secretKey, config.futuresRestApiEndpoint), Some(config.recvWindow))
    case FuturesCoinAccount =>
      Capability(FuturesCoinAccount, Client(apiKey, secretKey, config.futuresCoinRestApiEndpoint), Some(config.recvWindow))
    case FuturesUserStream =>
      Capability(FuturesUserStream, Client(apiKey, secretKey, config.futuresRestApiEndpoint), Some(config.recvWindow))
  }

  /**
   * `new` of each implementor: `new_with_config` with the default
   * configuration, so the credentials go through unchanged and the host is
   * the default endpoint of the implementor's venue.
   */
  function New(kind: Kind, apiKey: Option<string>, secretKey: Option<string>): (c: Capability)
    ensures c == NewWithConfig(kind, apiKey, secretKey, DefaultConfig)
    ensures c.kind == kind
    ensures c.client == Client(apiKey, secretKey, Endpoint(VenueOf(kind), DefaultConfig))
    ensures c.recvWindow == if IsGeneral(kind) then None else Some(DefaultConfig.recvWindow)
  {
    NewWithConfig(kind, apiKey, secretKey, DefaultConfig)
  }

  // ---------------------------------------------------------------------------
  // What construction reads from the configuration
  // ---------------------------------------------------------------------------

  /**
   * An implementor takes its host from the endpoint of a venue in every
   * configuration exactly when that venue is its own: each implementor reads
   * one endpoint, and which one follows its family.
   */
  lemma HostIsVenueEndpoint(kind: Kind, venue: Venue, apiKey: Option<string>, secretKey: Option<string>)
    ensures (forall config :: NewWithConfig(kind, apiKey, secretKey, config).client.host == Endpoint(venue, config))
      <==> venue == VenueOf(kind)
  {
    if venue != VenueOf(kind) {
      var probe := Config("spot", "usd", "coin", 0);
      assert Endpoint(venue, probe) != Endpoint(VenueOf(kind), probe);
    }
  }

  /**
   * An implementor copies the receive window of every configuration exactly
   * when it is not one of the three general-information clients, which carry
   * none in any configuration.
   */
  lemma RecvWindowCopied(kind: Kind, apiKey: Option<string>, secretKey: Option<string>)
    ensures (forall config :: NewWithConfig(kind, apiKey, secretKey, config).recvWindow == Some(config.recvWindow))
      <==> !IsGeneral(kind)
    ensures IsGeneral(kind) <==> forall config :: NewWithConfig(kind, apiKey, secretKey, config).recvWindow.None?
  {
    var probe := Config("", "", "", 0);
    assert NewWithConfig(kind, apiKey, secretKey, probe).recvWindow.Some? <==> !IsGeneral(kind);
  }

  /**
   * Two configurations that agree on an implementor's endpoint and on the
   * receive window give the same implementor: nothing else of the
   * configuration is read.
   */
  lemma ReadsOnlyItsEndpoint(kind: Kind, apiKey: Option<string>, secretKey: Option<string>, a: Config, b: Config)
    requires Endpoint(VenueOf(kind), a) == Endpoint(VenueOf(kind), b)
    requires a.recvWindow == b.recvWindow
    ensures NewWithConfig(kind, apiKey, secretKey, a) == NewWithConfig(kind, apiKey, secretKey, b)
  {
  }

  /**
   * Each venue has exactly one general-information client: its `GeneralOf`,
   * which carries no receive window.
   */
  lemma OneGeneralPerVenue(venue: Venue, kind: Kind)
    ensures IsGeneral(GeneralOf(venue))
    ensures IsGeneral(kind) && VenueOf(kind) == venue ==> kind == GeneralOf(venue)
  {
  }

  /**
   * Every implementor built from one configuration and one pair of
   * credentials shares the client of the others of its venue, and every one
   * with a receive window has the same window.
   */
  lemma SameVenueSameClient(k1: Kind, k2: Kind, apiKey: Option<string>, secretKey: Option<string>, config: Config)
    requires VenueOf(k1) == VenueOf(k2)
    ensures NewWithConfig(k1, apiKey, secretKey, config).client == NewWithConfig(k2, apiKey, secretKey, config).client
    ensures !IsGeneral(k1) && !IsGeneral(k2) ==>
      NewWithConfig(k1, apiKey, secretKey, config).recvWindow == NewWithConfig(k2, apiKey, secretKey, config).recvWindow
  {
  }
}
