/** Client construction (client.go). */
module ClientConfig {
  import opened Wrappers
  import opened Errors

  /**
   * An opaque handle on a Go `*http.Client`. `DefaultClient` stands for
   * `http.DefaultClient`; any other client is told apart only by its id.
   */
  datatype HttpClient = DefaultClient | OtherClient(id: nat)

  /**
   * `ClientOptions`. The zero value of each field means "not given";
   * the client handle is a nil-able pointer, hence an `Option`.
   */
  datatype ClientOptions = ClientOptions(
    appURL: string,
    appName: string,
    apiTimeoutInSeconds: int,
    httpClient: Option<HttpClient>,
    baseURL: string)

  /** `Client`: configuration only, never changed after `New`. */
  datatype Client = Client(
    baseURL: string,
    apiKey: string,
    httpClient: HttpClient,
    appURL: string,
    appName: string)

  const DefaultBaseURL: string := "https://openrouter.ai"
  const DefaultTimeoutInSeconds: int := 30

  /** The zero `ClientOptions{}`: nothing configured. */
  const NoOptions: ClientOptions := ClientOptions("", "", 0, None, "")

  /** Every defaultable option is given. */
  predicate Complete(o: ClientOptions)
  {
    o.apiTimeoutInSeconds != 0 && o.httpClient.Some? && o.baseURL != ""
  }

  /** `o` keeps every option that `opts` gives, attribution fields included. */
  predicate Keeps(opts: ClientOptions, o: ClientOptions)
  {
    && o.appURL == opts.appURL
    && o.appName == opts.appName
    && (opts.apiTimeoutInSeconds != 0 ==> o.apiTimeoutInSeconds == opts.apiTimeoutInSeconds)
    && (opts.httpClient.Some? ==> o.httpClient == opts.httpClient)
    && (opts.baseURL != "" ==> o.baseURL == opts.baseURL)
  }

  /**
   * The three conditional overwrites `New` makes on its copy of the
   * options, in the order it makes them: timeout, HTTP client, base URL.
   */
  function WithDefaults(opts: ClientOptions): (o: ClientOptions)
    ensures Complete(o) && Keeps(opts, o)
    ensures opts.apiTimeoutInSeconds == 0 ==> o.apiTimeoutInSeconds == DefaultTimeoutInSeconds
    ensures opts.httpClient.None? ==> o.httpClient == Some(DefaultClient)
    ensures opts.baseURL == "" ==> o.baseURL == DefaultBaseURL
  {
    var withTimeout := if opts.apiTimeoutInSeconds == 0 then opts.(apiTimeoutInSeconds := DefaultTimeoutInSeconds) else opts;
    var withClient := if withTimeout.httpClient.None? then withTimeout.(httpClient := Some(DefaultClient)) else withTimeout;
    if withClient.baseURL == "" then withClient.(baseURL := DefaultBaseURL) else withClient
  }

  /** A constructed client always has a key and a base URL to send to. */
  predicate WellFormed(c: Client)
  {
    c.apiKey != "" && c.baseURL != ""
  }

  /** `New`: refuse an empty API key, otherwise fill in defaults and build the client. */
  function New(apiKey: string, opts: ClientOptions): (r: Result<Client, Error>)
    ensures r.Failure? <==> apiKey == ""
    ensures r.Failure? ==> r.error == ApiKeyIsRequired
    ensures r.Success? ==> WellFormed(r.value) && r.value.apiKey == apiKey
    ensures r.Success? ==> r.value.baseURL == (if opts.baseURL == "" then DefaultBaseURL else opts.baseURL)
    ensures r.Success? ==> r.value.httpClient == (if opts.httpClient.None? then DefaultClient else opts.httpClient.value)
    ensures r.Success? ==> r.value.appURL == opts.appURL && r.value.appName == opts.appName
  {
    if apiKey == "" then
      Failure(ApiKeyIsRequired)
    else
      var o := WithDefaults(opts);
      Success(Client(o.baseURL, apiKey, o.httpClient.value, o.appURL, o.appName))
  }

  /** Filling in defaults a second time changes nothing. */
  lemma WithDefaultsIdempotent(opts: ClientOptions)
    ensures WithDefaults(WithDefaults(opts)) == WithDefaults(opts)
  {
  }

  /** The timeout is defaulted but never stored, so it cannot change the client built. */
  lemma NewIgnoresTimeout(apiKey: string, opts: ClientOptions, timeout: int)
    ensures New(apiKey, opts.(apiTimeoutInSeconds := timeout)) == New(apiKey, opts)
  {
  }

  /** With no options, only the base URL, the key and the HTTP client are set. */
  lemma NewWithNoOptions(apiKey: string)
    requires apiKey != ""
    ensures New(apiKey, NoOptions) == Success(Client(DefaultBaseURL, apiKey, DefaultClient, "", ""))
  {
  }
}
