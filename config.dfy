/**
 * Resolution of the data source's init properties: defaults, the batchSize
 * fallback and the order in which init can fail.
 */
module Config {
  import opened Errors
  import opened JavaInt

  /** java.util.Properties: a key that is absent reads as null. */
  type Properties = map<string, string>

  const DATABASE: string := "database"
  const HOST: string := "host"
  const PORT: string := "port"
  const USERNAME: string := "username"
  const PASSWORD: string := "password"
  const BATCH_SIZE: string := "batchSize"

  const DefaultHost: string := "localhost"
  const DefaultPort: string := "27017"
  const DefaultBatchSize: int := 500

  /** Properties.getProperty(key, default). */
  function GetProperty(props: Properties, key: string, default: string): string
  {
    if key in props then props[key] else default
  }

  /**
   * The batchSize field after init: replaced by the property when that is
   * present and parses as an int; otherwise (absent, or a parse failure
   * that is only logged) the field keeps its value.
   */
  function ConfiguredBatchSize(current: int, props: Properties): (r: int)
    ensures r != current ==> BATCH_SIZE in props && ParseInt(props[BATCH_SIZE]) == Some(r)
    ensures BATCH_SIZE in props && ParseInt(props[BATCH_SIZE]).Some? ==> r == ParseInt(props[BATCH_SIZE]).value
    ensures IsInt32(current) ==> IsInt32(r)
  {
    if BATCH_SIZE in props then
      match ParseInt(props[BATCH_SIZE])
      case Some(n) => n
      case None => current
    else current
  }

  /** A batch size written in decimal within the int range is taken as written. */
  lemma DecimalBatchSizeTaken(current: int, props: Properties, n: int)
    requires IsInt32(n) && BATCH_SIZE in props && props[BATCH_SIZE] == FormatInt(n)
    ensures ConfiguredBatchSize(current, props) == n
  {
    ParseFormatRoundTrip(n);
  }

  /** The host passed to the driver. */
  function Host(props: Properties): string
  {
    GetProperty(props, HOST, DefaultHost)
  }

  /** The port text handed to Integer.parseInt. */
  function PortText(props: Properties): string
  {
    GetProperty(props, PORT, DefaultPort)
  }

  /** Whether init gets as far as opening a connection (new Mongo). */
  predicate Connects(props: Properties, hostResolves: bool)
  {
    DATABASE in props && ParseInt(PortText(props)).Some? && hostResolves
  }

  /**
   * The outcome of init. `hostResolves` says whether the host name resolves;
   * `accepts` is the store's verdict on a username and password.
   */
  function InitOutcome(props: Properties, hostResolves: bool, accepts: (string, string) -> bool): (r: Outcome<ImportError>)
    ensures r == Fail(Severe(DatabaseMissing)) <==> DATABASE !in props
    ensures r == Fail(Severe(AuthenticationFailed)) <==>
      Connects(props, hostResolves) && USERNAME in props && PASSWORD in props && !accepts(props[USERNAME], props[PASSWORD])
    ensures r == Pass <==>
      Connects(props, hostResolves) && (USERNAME in props ==> PASSWORD in props && accepts(props[USERNAME], props[PASSWORD]))
    ensures r.Fail? && !Connects(props, hostResolves) ==> r.error in {Severe(DatabaseMissing), NumberFormat, Severe(ConnectFailed)}
  {
    if DATABASE !in props then Fail(Severe(DatabaseMissing))
    else if ParseInt(PortText(props)).None? then Fail(NumberFormat)
    else if !hostResolves then Fail(Severe(ConnectFailed))
    else if USERNAME in props then
      if PASSWORD !in props then Fail(NullPointer)
      else if !accepts(props[USERNAME], props[PASSWORD]) then Fail(Severe(AuthenticationFailed))
      else Pass
    else Pass
  }

  /** Without a username the credentials check is never consulted. */
  lemma NoAuthenticationWithoutUsername(props: Properties, hostResolves: bool, accepts: (string, string) -> bool, refuses: (string, string) -> bool)
    requires USERNAME !in props
    ensures InitOutcome(props, hostResolves, accepts) == InitOutcome(props, hostResolves, refuses)
  {
  }

  /**
   * Without a port property the default port text parses, so init connects
   * exactly when the database is given and the host resolves.
   */
  lemma DefaultPortConnects(props: Properties, hostResolves: bool)
    requires PORT !in props
    ensures Connects(props, hostResolves) <==> DATABASE in props && hostResolves
  {
    assert PortText(props) == DefaultPort == FormatInt(27017);
    ParseFormatRoundTrip(27017);
  }
}
