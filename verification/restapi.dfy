/**
 * The REST API source adapter: its configuration and defaults, the per-set
 * path, the authentication header it attaches, the status decision on the
 * response, and the Salesforce password-grant token exchange.
 *
 * The network is a parameter: `transport` answers an HTTP request, `exchange`
 * answers the token request. JSON decoding is a parameter too (`decode`).
 */
module RestApi {
  import opened Wrappers
  import opened Types

  const AuthTypeBasic := "basic"
  const AuthTypeBearer := "bearer"
  const AuthTypeSalesforceOauth := "SalesforceOauth"
  const DefaultBatchSize := 10
  const DefaultBatchDelaySeconds := 3
  const DefaultUserAgent := "rest-data-archiver"
  const MethodGet := "GET"
  const MethodPost := "POST"

  /** The adapter configuration, as the source's `AdapterConfig` document decodes. */
  datatype Settings = Settings(
    requestMethod: string,
    baseUrl: string,
    authType: string,
    username: string,
    password: string,
    clientId: string,
    clientSecret: string,
    userAgent: string,
    batchSize: int,
    batchDelaySeconds: int)

  /** The per-set configuration: the path below `baseUrl` to read. */
  datatype SetConfig = SetConfig(path: string)

  // ---------------------------------------------------------------- defaults

  /** Fills in every unset field that has a default and leaves everything else alone. */
  function WithDefaults(s: Settings): (d: Settings)
    ensures d.requestMethod != "" && d.batchSize > 0 && d.batchDelaySeconds > 0 && d.userAgent != ""
    ensures s.requestMethod == "" ==> d.requestMethod == MethodGet
    ensures s.requestMethod != "" ==> d.requestMethod == s.requestMethod
    ensures s.batchSize <= 0 ==> d.batchSize == DefaultBatchSize
    ensures s.batchSize > 0 ==> d.batchSize == s.batchSize
    ensures s.batchDelaySeconds <= 0 ==> d.batchDelaySeconds == DefaultBatchDelaySeconds
    ensures s.batchDelaySeconds > 0 ==> d.batchDelaySeconds == s.batchDelaySeconds
    ensures s.userAgent == "" ==> d.userAgent == DefaultUserAgent
    ensures s.userAgent != "" ==> d.userAgent == s.userAgent
    ensures d.(requestMethod := s.requestMethod, batchSize := s.batchSize,
               batchDelaySeconds := s.batchDelaySeconds, userAgent := s.userAgent) == s
  {
    s.(requestMethod := if s.requestMethod == "" then MethodGet else s.requestMethod,
       batchSize := if s.batchSize <= 0 then DefaultBatchSize else s.batchSize,
       batchDelaySeconds := if s.batchDelaySeconds <= 0 then DefaultBatchDelaySeconds else s.batchDelaySeconds,
       userAgent := if s.userAgent == "" then DefaultUserAgent else s.userAgent)
  }

  /** Applying the defaults a second time changes nothing. */
  lemma WithDefaultsIdempotent(s: Settings)
    ensures WithDefaults(WithDefaults(s)) == WithDefaults(s)
  {
  }

  // ---------------------------------------------------------------- per-set path

  predicate Rooted(path: string)
  {
    |path| > 0 && path[0] == '/'
  }

  /** Gives the path exactly one added leading `/` unless it already has one. */
  function NormalizePath(path: string): (p: string)
    ensures Rooted(p)
    ensures Rooted(path) ==> p == path
    ensures !Rooted(path) ==> p == "/" + path
  {
    if Rooted(path) then path else "/" + path
  }

  /** Normalizing an already normalized path gives it back unchanged. */
  lemma NormalizePathIdempotent(path: string)
    ensures NormalizePath(NormalizePath(path)) == NormalizePath(path)
  {
  }

  /**
   * What `ForSet` makes of a decoded per-set document: a malformed document or
   * an empty path is an error naming the set; otherwise the normalized path.
   */
  function ApplySet(setName: string, decoded: Result<SetConfig, string>): (r: Result<SetConfig, string>)
    ensures r.Success? <==> decoded.Success? && decoded.value.path != ""
    ensures r.Success? ==> Rooted(r.value.path) && r.value == SetConfig(NormalizePath(decoded.value.path))
    ensures decoded.Failure? ==> r.Failure? && Mentions(r.error, decoded.error)
    ensures r.Failure? ==> Mentions(r.error, setName)
  {
    match decoded
    case Failure(e) =>
      MentionsEach("bad configuration in set '", setName, "': ", e);
      Failure("bad configuration in set '" + setName + "': " + e)
    case Success(c) =>
      if c.path == "" then
        MentionsSuffix("'path' is empty in sync set ", setName);
        Failure("'path' is empty in sync set " + setName)
      else
        Success(SetConfig(NormalizePath(c.path)))
  }

  /** A second `ForSet` with the path the first one stored yields that same path. */
  lemma ApplySetTwice(setName: string, path: string)
    requires path != ""
    ensures var once := ApplySet(setName, Success(SetConfig(path)));
            once.Success? && ApplySet(setName, once) == once
  {
    NormalizePathIdempotent(path);
  }

  // ---------------------------------------------------------------- requests

  datatype Credentials = Credentials(username: string, password: string)

  /**
   * An HTTP request as the adapter hands it to the client. `basicAuth` stands
   * for the `Authorization: Basic ...` header that basic authentication sets.
   */
  datatype Request = Request(
    verb: string,
    url: string,
    body: string,
    headers: map<string, string>,
    basicAuth: Option<Credentials>)

  /** Attaches the credentials `authType` calls for; other types add no authentication. */
  function Authorize(req: Request, authType: string, username: string, password: string): (r: Request)
    ensures r.verb == req.verb && r.url == req.url && r.body == req.body
    ensures authType == AuthTypeBasic ==>
              r.basicAuth == Some(Credentials(username, password)) && r.headers == req.headers - {"Authorization"}
    ensures (authType == AuthTypeBearer || authType == AuthTypeSalesforceOauth) ==>
              r.basicAuth == req.basicAuth && r.headers == req.headers["Authorization" := "Bearer " + password]
    ensures authType !in {AuthTypeBasic, AuthTypeBearer, AuthTypeSalesforceOauth} ==> r == req
  {
    if authType == AuthTypeBasic then
      req.(basicAuth := Some(Credentials(username, password)), headers := req.headers - {"Authorization"})
    else if authType == AuthTypeBearer || authType == AuthTypeSalesforceOauth then
      req.(headers := req.headers["Authorization" := "Bearer " + password])
    else
      req
  }

  /** After the token exchange, Salesforce requests carry exactly what a bearer token would. */
  lemma SalesforceAuthIsBearer(req: Request, username: string, password: string)
    ensures Authorize(req, AuthTypeSalesforceOauth, username, password)
         == Authorize(req, AuthTypeBearer, username, password)
  {
  }

  /** The request `httpRequest` sends: the caller's headers, then the user agent, then authentication. */
  function Prepare(s: Settings, verb: string, url: string, body: string, headers: map<string, string>): (r: Request)
    ensures r.verb == verb && r.url == url && r.body == body
    ensures "User-Agent" in r.headers && r.headers["User-Agent"] == s.userAgent
    ensures forall k :: k in headers && k != "User-Agent" && k != "Authorization" ==>
      k in r.headers && r.headers[k] == headers[k]
    ensures forall k :: k in r.headers ==> k in headers || k == "User-Agent" || k == "Authorization"
    ensures s.authType == AuthTypeBasic ==>
      r.basicAuth == Some(Credentials(s.username, s.password)) && "Authorization" !in r.headers
    ensures s.authType == AuthTypeBearer || s.authType == AuthTypeSalesforceOauth ==>
      r.basicAuth.None? && "Authorization" in r.headers && r.headers["Authorization"] == "Bearer " + s.password
    ensures s.authType !in {AuthTypeBasic, AuthTypeBearer, AuthTypeSalesforceOauth} ==>
      r.basicAuth.None? && r.headers == headers["User-Agent" := s.userAgent]
  {
    assert "User-Agent" != "Authorization";
    Authorize(Request(verb, url, body, headers["User-Agent" := s.userAgent], None), s.authType, s.username, s.password)
  }

  // ---------------------------------------------------------------- responses

  /** What the client and the network make of a request. */
  datatype Transport =
    | RequestFailed(error: string)                                // building or sending the request failed
    | BodyUnreadable(error: string)                               // the response body could not be read
    | Responded(statusCode: int, status: string, body: Bytes)     // `status` is the status line, e.g. "401 Unauthorized"

  /** `httpRequest`'s two results: the body (empty for nil) and the error, if any. */
  datatype HttpResult = HttpResult(body: Bytes, error: Option<string>)

  /** A status of 400 or more is an error whose text is the status line; the body comes back either way. */
  function Outcome(t: Transport): (r: HttpResult)
    ensures t.Responded? ==> r.body == t.body
    ensures t.Responded? ==> (r.error.Some? <==> t.statusCode >= 400)
    ensures t.Responded? && t.statusCode >= 400 ==> r.error == Some(t.status)
    ensures !t.Responded? ==> r.body == [] && r.error.Some? && Mentions(r.error.value, t.error)
  {
    match t
    case RequestFailed(e) =>
      MentionsItself(e);
      HttpResult([], Some(e))
    case BodyUnreadable(e) =>
      MentionsSuffix("failed to read http response body: ", e);
      HttpResult([], Some("failed to read http response body: " + e))
    case Responded(code, status, body) =>
      if code >= 400 then HttpResult(body, Some(status)) else HttpResult(body, None)
  }

  const ReadFailed := "restAPI Read failed with http error: "

  /**
   * The request `Read` sends: the configured method to `baseUrl` followed by the
   * set's path, asking for JSON, with the user agent and the authentication.
   */
  function ReadRequest(s: Settings, current: SetConfig): (r: Request)
    ensures r.verb == s.requestMethod && r.url == s.baseUrl + current.path && r.body == ""
    ensures "Content-Type" in r.headers && r.headers["Content-Type"] == "application/json"
    ensures "User-Agent" in r.headers && r.headers["User-Agent"] == s.userAgent
    ensures forall k :: k in r.headers ==> k == "Content-Type" || k == "User-Agent" || k == "Authorization"
    ensures s.authType == AuthTypeBasic ==>
      r.basicAuth == Some(Credentials(s.username, s.password)) && "Authorization" !in r.headers
    ensures s.authType == AuthTypeBearer || s.authType == AuthTypeSalesforceOauth ==>
      r.basicAuth.None? && "Authorization" in r.headers && r.headers["Authorization"] == "Bearer " + s.password
    ensures s.authType !in {AuthTypeBasic, AuthTypeBearer, AuthTypeSalesforceOauth} ==>
      r.basicAuth.None? && "Authorization" !in r.headers
  {
    Prepare(s, s.requestMethod, s.baseUrl + current.path, "", map["Content-Type" := "application/json"])
  }

  /** `Read` returns the body, or no bytes and the HTTP error behind a fixed prefix. */
  function ReadResult(t: Transport): (r: Result<Bytes, string>)
    ensures r.Success? <==> Outcome(t).error.None?
    ensures r.Success? ==> r.value == Outcome(t).body
    ensures r.Failure? ==> r.error == ReadFailed + Outcome(t).error.value
    ensures t.Responded? && t.statusCode >= 400 ==> r == Failure(ReadFailed + t.status)
    ensures t.Responded? && t.statusCode < 400 ==> r == Success(t.body)
  {
    var res := Outcome(t);
    if res.error.Some? then Failure(ReadFailed + res.error.value) else Success(res.body)
  }

  // ---------------------------------------------------------------- token exchange

  /** The password-grant request, posted as a form to `baseUrl`. */
  datatype TokenRequest = TokenRequest(verb: string, url: string, form: map<string, string>)

  /** The fields of the token response the adapter uses. */
  datatype TokenResponse = TokenResponse(instanceUrl: string, accessToken: string)

  function TokenRequestFor(s: Settings): (r: TokenRequest)
    ensures r.verb == MethodPost && r.url == s.baseUrl
    ensures r.form.Keys == {"grant_type", "username", "password", "client_id", "client_secret"}
    ensures r.form["grant_type"] == "password" && r.form["username"] == s.username
    ensures r.form["password"] == s.password
    ensures r.form["client_id"] == s.clientId && r.form["client_secret"] == s.clientSecret
  {
    TokenRequest(MethodPost, s.baseUrl, map[
      "grant_type" := "password",
      "username" := s.username,
      "password" := s.password,
      "client_id" := s.clientId,
      "client_secret" := s.clientSecret])
  }

  /** Go's `strings.TrimSuffix`: drops one copy of `suffix` from the end, if it is there. */
  function TrimSuffix(s: string, suffix: string): (r: string)
    ensures |suffix| <= |s| && s[|s| - |suffix|..] == suffix ==> r + suffix == s
    ensures !(|suffix| <= |s| && s[|s| - |suffix|..] == suffix) ==> r == s
  {
    if |suffix| <= |s| && s[|s| - |suffix|..] == suffix then s[..|s| - |suffix|] else s
  }

  /**
   * The settings a successfully built source ends up with, or the error that
   * stops construction: decode, apply defaults, then, for Salesforce, swap the
   * password for the access token and the base URL for the instance URL.
   */
  function Constructed(
    sourceConfig: SourceConfig,
    decode: Bytes -> Result<Settings, string>,
    exchange: TokenRequest -> Result<TokenResponse, string>): (r: Result<Settings, string>)
    ensures r.Success? ==> decode(sourceConfig.adapterConfig).Success?
    ensures decode(sourceConfig.adapterConfig).Failure? ==>
      r == Failure("json.Unmarshal error in adapter config:\n" + AsText(sourceConfig.adapterConfig)
                   + "\nerror: " + decode(sourceConfig.adapterConfig).error)
    ensures r.Success? ==> var d := WithDefaults(decode(sourceConfig.adapterConfig).value);
      && r.value.requestMethod == d.requestMethod && r.value.batchSize == d.batchSize
      && r.value.batchDelaySeconds == d.batchDelaySeconds && r.value.userAgent == d.userAgent
      && r.value.authType == d.authType && r.value.username == d.username
      && (d.authType != AuthTypeSalesforceOauth ==> r.value == d)
      && (d.authType == AuthTypeSalesforceOauth ==>
            var answer := exchange(TokenRequestFor(d));
            answer.Success? && r.value.password == answer.value.accessToken
            && r.value.baseUrl == TrimSuffix(answer.value.instanceUrl, "/")
            && r.value.clientId == d.clientId && r.value.clientSecret == d.clientSecret)
    ensures r.Failure? && decode(sourceConfig.adapterConfig).Success? ==>
      var d := WithDefaults(decode(sourceConfig.adapterConfig).value);
      d.authType == AuthTypeSalesforceOauth && exchange(TokenRequestFor(d)).Failure?
      && r.error == "error getting Oauth token: " + exchange(TokenRequestFor(d)).error
  {
    match decode(sourceConfig.adapterConfig)
    case Failure(e) =>
      Failure("json.Unmarshal error in adapter config:\n" + AsText(sourceConfig.adapterConfig) + "\nerror: " + e)
    case Success(decoded) =>
      var d := WithDefaults(decoded);
      if d.authType != AuthTypeSalesforceOauth then Success(d)
      else
        match exchange(TokenRequestFor(d))
        case Failure(e) => Failure("error getting Oauth token: " + e)
        case Success(answer) =>
          Success(d.(password := answer.accessToken, baseUrl := TrimSuffix(answer.instanceUrl, "/")))
  }

  // ---------------------------------------------------------------- the adapter

  class RestApi {
    var requestMethod: string
    var baseUrl: string
    var authType: string
    var username: string
    var password: string
    var clientId: string
    var clientSecret: string
    var userAgent: string
    var batchSize: int
    var batchDelaySeconds: int
    var setConfig: SetConfig

    /** The adapter-wide settings held in the fields. */
    function Config(): Settings
      reads this
    {
      Settings(requestMethod, baseUrl, authType, username, password,
               clientId, clientSecret, userAgent, batchSize, batchDelaySeconds)
    }

    /** A freshly decoded adapter: the decoded settings and no set applied yet. */
    constructor (s: Settings)
      ensures Config() == s && setConfig == SetConfig("")
    {
      requestMethod, baseUrl, authType := s.requestMethod, s.baseUrl, s.authType;
      username, password := s.username, s.password;
      clientId, clientSecret := s.clientId, s.clientSecret;
      userAgent, batchSize, batchDelaySeconds := s.userAgent, s.batchSize, s.batchDelaySeconds;
      setConfig := SetConfig("");
    }

    method SetDefaults()
      modifies this
      ensures Config() == WithDefaults(old(Config()))
      ensures setConfig == old(setConfig)
    {
      if requestMethod == "" {
        requestMethod := MethodGet;
      }
      if batchSize <= 0 {
        batchSize := DefaultBatchSize;
      }
      if batchDelaySeconds <= 0 {
        batchDelaySeconds := DefaultBatchDelaySeconds;
      }
      if userAgent == "" {
        userAgent := DefaultUserAgent;
      }
    }

    /** Replaces the per-set configuration on success; on an error leaves it as it was. */
    method ForSet(setName: string, setJson: Bytes, decode: Bytes -> Result<SetConfig, string>)
      returns (err: Option<string>)
      modifies this
      ensures err == ApplySet(setName, decode(setJson)).ErrorOption()
      ensures setConfig == (if err.None? then ApplySet(setName, decode(setJson)).value else old(setConfig))
      ensures Config() == old(Config())
    {
      var decoded := decode(setJson);
      if decoded.Failure? {
        return Some("bad configuration in set '" + setName + "': " + decoded.error);
      }
      var c := decoded.value;
      if |c.path| == 0 {
        return Some("'path' is empty in sync set " + setName);
      }
      if !Rooted(c.path) {
        c := c.(path := "/" + c.path);
      }
      setConfig := c;
      err := None;
    }

    /** Sends one request: copies the caller's headers, sets the user agent, attaches authentication. */
    method HttpRequest(verb: string, url: string, body: string, headers: map<string, string>,
                       transport: Request -> Transport) returns (r: HttpResult)
      ensures r == Outcome(transport(Prepare(Config(), verb, url, body, headers)))
    {
      var header: map<string, string> := map[];
      var pending := headers.Keys;
      while pending != {}
        invariant pending <= headers.Keys
        invariant header.Keys == headers.Keys - pending
        invariant forall k :: k in header ==> header[k] == headers[k]
        decreases pending
      {
        var k :| k in pending;
        header := header[k := headers[k]];
        pending := pending - {k};
      }
      assert header == headers;
      header := header["User-Agent" := userAgent];
      var req := Request(verb, url, body, header, None);
      if authType == AuthTypeBasic {
        req := req.(basicAuth := Some(Credentials(username, password)), headers := req.headers - {"Authorization"});
      } else if authType == AuthTypeBearer || authType == AuthTypeSalesforceOauth {
        req := req.(headers := req.headers["Authorization" := "Bearer " + password]);
      }
      var answer := transport(req);
      r := Outcome(answer);
    }

    /** Fetches the current set's path from the base URL. */
    method Read(transport: Request -> Transport) returns (r: Result<Bytes, string>)
      ensures r == ReadResult(transport(ReadRequest(Config(), setConfig)))
    {
      var res := HttpRequest(requestMethod, baseUrl + setConfig.path, "", map["Content-Type" := "application/json"], transport);
      if res.error.Some? {
        return Failure(ReadFailed + res.error.value);
      }
      return Success(res.body);
    }

    /** The password-grant exchange; on success the base URL becomes the instance URL, less one trailing `/`. */
    method GetSalesforceOauthToken(exchange: TokenRequest -> Result<TokenResponse, string>)
      returns (token: Result<string, string>)
      modifies this
      ensures var answer := exchange(TokenRequestFor(old(Config())));
        && (answer.Failure? ==> token == Failure(answer.error) && Config() == old(Config()))
        && (answer.Success? ==>
              && token == Success(answer.value.accessToken)
              && Config() == old(Config()).(baseUrl := TrimSuffix(answer.value.instanceUrl, "/")))
      ensures setConfig == old(setConfig)
    {
      var answer := exchange(TokenRequestFor(Config()));
      if answer.Failure? {
        return Failure(answer.error);
      }
      baseUrl := TrimSuffix(answer.value.instanceUrl, "/");
      return Success(answer.value.accessToken);
    }
  }

  /** Builds the source: decode, defaults, then the Salesforce exchange when that is the auth type. */
  method NewRestApiSource(
    sourceConfig: SourceConfig,
    decode: Bytes -> Result<Settings, string>,
    exchange: TokenRequest -> Result<TokenResponse, string>) returns (r: Result<RestApi, string>)
    ensures r.Failure? <==> Constructed(sourceConfig, decode, exchange).Failure?
    ensures r.Failure? ==> r.error == Constructed(sourceConfig, decode, exchange).error
    ensures r.Success? ==> fresh(r.value) && r.value.setConfig == SetConfig("")
                           && r.value.Config() == Constructed(sourceConfig, decode, exchange).value
  {
    var decoded := decode(sourceConfig.adapterConfig);
    if decoded.Failure? {
      return Failure("json.Unmarshal error in adapter config:\n" + AsText(sourceConfig.adapterConfig)
                     + "\nerror: " + decoded.error);
    }
    var restApi := new RestApi(decoded.value);
    restApi.SetDefaults();
    if restApi.authType == AuthTypeSalesforceOauth {
      var token := restApi.GetSalesforceOauthToken(exchange);
      if token.Failure? {
        return Failure("error getting Oauth token: " + token.error);
      }
      restApi.password := token.value;
    }
    return Success(restApi);
  }
}
