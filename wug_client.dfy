/** `WUGAPIClient`: the WhatsUp Gold REST client. Its state is the bearer
    token and the instant the token expires; the HTTP session is a scripted
    `Transport`. Each operation is specified by a function over the value
    `State` (token, expiry, the outcomes still to come, the requests sent),
    and each method of `ApiClient` is proved to do exactly what its function
    says. Time is a parameter `now` in microseconds, read once per operation. */
module WugClient {
  import opened Base
  import opened Text
  import opened Json
  import opened Http
  import opened Urls
  import opened Errors
  import opened WugPayloads

  const DefaultTimeout := 30
  /** Tokens are refreshed this many seconds before the server says they expire. */
  const TokenMarginSeconds := 60
  /** The lifetime assumed when the token response has no `expires_in`. */
  const DefaultExpiresIn := 3600
  const MicrosPerSecond := 1000000

  /** What the constructor keeps, together with the authentication
      candidates `_authenticate` tries (always `AuthAttempts`; keeping them
      here lets the loop's properties be stated for any list). */
  datatype Config = Config(username: string, password: string, scheme: string, address: Address, timeout: int,
                           candidates: seq<(string, AuthMethod)>)

  /** The constructor's computation: the host is sanitised (which may raise
      `ValueError`), the scheme follows `use_ssl`. */
  function MakeConfig(host: string, username: string, password: string, port: int, useSsl: bool, timeout: int)
    : (r: Result<Config, Exc>)
    ensures r.Ok? <==> SanitizeHost(host, port).Ok?
    ensures r.Ok? ==> r.value.address == SanitizeHost(host, port).value
                      && r.value.scheme == (if useSsl then "https" else "http")
                      && r.value.candidates == AuthAttempts
    ensures r.Err? ==> r == Err(SanitizeHost(host, port).error)
  {
    match SanitizeHost(host, port)
    case Ok(address) => Ok(Config(username, password, if useSsl then "https" else "http", address, timeout, AuthAttempts))
    case Err(e) => Err(e)
  }

  /** `scheme://host:port`. */
  function Origin(cfg: Config): string {
    cfg.scheme + "://" + cfg.address.host + ":" + IntToString(cfg.address.port)
  }

  /** `self.base_url`. */
  function BaseUrl(cfg: Config): string {
    Origin(cfg) + "/api"
  }

  /** The connectivity probe's URL as `test_connection` writes it:
      `self.base_url.split('/api')[0]`. It cuts at the first `/api`, which is
      the one in `//api...` when the host name begins with `api`. */
  function ProbeUrl(cfg: Config): string {
    BeforeText(BaseUrl(cfg), "/api")
  }

  /** The URL the probe is meant to reach, the server's origin: the base URL
      without its own trailing `/api`. The model of `test_connection` sends
      its first probe here. */
  function RootUrl(cfg: Config): (r: string)
    ensures BaseUrl(cfg) == r + "/api"
  {
    Origin(cfg)
  }

  /** `urljoin(self.base_url, endpoint.lstrip('/'))`. */
  function RequestUrl(cfg: Config, endpoint: string): Url {
    ApiEndpoint(cfg.scheme, cfg.address.host, cfg.address.port, endpoint)
  }

  // ------------------------------------------------------------------ state and one exchange

  /** The client's state as a value: `_token`, `_token_expires` (microseconds)
      and the session's script and log. */
  datatype State = State(token: Json, expires: Option<int>, script: seq<Outcome>, sent: seq<Request>)

  /** One `session.request(...)`: the answer to the next request in the log. */
  function Transmit(st: State, req: Request): (Outcome, State) {
    (Answer(st.script, |st.sent|), st.(sent := st.sent + [req]))
  }

  /** What `_make_request` makes of an outcome once any 401 has been dealt
      with: `raise_for_status` and the mapping of `requests` exceptions. */
  function Conclude(cfg: Config, url: Url, o: Outcome): (r: Result<Json, Exc>)
    ensures r.Ok? <==> o.Response? && !(400 <= o.status < 600)
    ensures r.Ok? && o.body.parsed.None? ==> r.value == JObj(map[])
    ensures r.Ok? && o.body.parsed.Some? ==> r.value == o.body.parsed.value
    ensures r.Err? ==> r.error.IsApiError() && !r.error.IsAuthError()
    ensures o.Response? && 400 <= o.status < 600 ==> r == Err(HttpError(o.status, o.reason, url))
    ensures o.TimedOut? ==> r == Err(ApiException("Request timeout after " + IntToString(cfg.timeout) + " seconds"))
  {
    match o
    case TimedOut(_) => Err(ApiException("Request timeout after " + IntToString(cfg.timeout) + " seconds"))
    case ConnectionFailed(d) => Err(ApiException("Connection error: " + d))
    case OtherFailure(d) => Err(ApiException("Request error: " + d))
    case Response(status, reason, body) =>
      if 400 <= status < 600 then
        Err(HttpError(status, reason, url))
      else Ok(if body.parsed.Some? then body.parsed.value else JObj(map[]))
  }

  predicate Unauthorized(o: Outcome) {
    o.Response? && o.status == 401
  }

  /** `_make_request(..., authenticated=False)`: one request; a 401 clears the token. */
  function UnauthRequest(cfg: Config, st: State, verb: string, endpoint: string, data: Option<Json>)
    : (Result<Json, Exc>, State)
  {
    var url := RequestUrl(cfg, endpoint);
    var (o, st1) := Transmit(st, Request(verb, url, NoAuth, data));
    (Conclude(cfg, url, o), if Unauthorized(o) then st1.(token := JNull) else st1)
  }

  /** `_make_request_raw`: one request with the given credentials and no body. */
  function RawRequest(cfg: Config, st: State, verb: string, endpoint: string, auth: AuthHeader)
    : (Result<Json, Exc>, State)
  {
    var url := RequestUrl(cfg, endpoint);
    var (o, st1) := Transmit(st, Request(verb, url, auth, None));
    (Conclude(cfg, url, o), st1)
  }

  // ------------------------------------------------------------------ authentication

  datatype AuthMethod = JsonPayload | BasicCredentials

  /** The (endpoint, method) candidates, in the order they are tried. */
  const AuthAttempts: seq<(string, AuthMethod)> := [
    ("/api/v1/token", JsonPayload),
    ("/api/token", JsonPayload),
    ("/api/v1/token", BasicCredentials),
    ("/api/token", BasicCredentials),
    ("/auth/token", JsonPayload),
    ("/NmConsole/api/token", JsonPayload)
  ]

  function AuthData(cfg: Config): Json {
    JObj(map["username" := JStr(cfg.username), "password" := JStr(cfg.password)])
  }

  /** The request candidate `k` sends. */
  function CandidateRequest(cfg: Config, k: nat): Request
    requires k < |cfg.candidates|
  {
    var (endpoint, how) := cfg.candidates[k];
    if how == BasicCredentials
    then Request("POST", RequestUrl(cfg, endpoint), Basic(cfg.username, cfg.password), None)
    else Request("POST", RequestUrl(cfg, endpoint), NoAuth, Some(AuthData(cfg)))
  }

  /** The request of candidate `k` and what it returns. */
  function Exchange(cfg: Config, st: State, k: nat): (Result<Json, Exc>, State)
    requires k < |cfg.candidates|
  {
    var (endpoint, how) := cfg.candidates[k];
    if how == BasicCredentials
    then RawRequest(cfg, st, "POST", endpoint, Basic(cfg.username, cfg.password))
    else UnauthRequest(cfg, st, "POST", endpoint, Some(AuthData(cfg)))
  }

  /** `response.get('token') or response.get('access_token')`. */
  function TokenOf(m: map<string, Json>): Json {
    Or(Get(m, "token"), Get(m, "access_token"))
  }

  /** `response.get('expires_in', 3600) - 60`'s operand: an integer, or the
      `TypeError` the subtraction raises. */
  function ExpiresIn(m: map<string, Json>): Result<int, Exc> {
    match GetOr(m, "expires_in", JInt(DefaultExpiresIn))
    case JInt(n) => Ok(n)
    case JBool(b) => Ok(if b then 1 else 0)
    case v => Err(PythonError("unsupported operand type(s) for -: '" + TypeName(v) + "' and 'int'"))
  }

  /** `datetime.now(timezone.utc).replace(microsecond=0)`. */
  function WholeSeconds(now: int): int {
    now - now % MicrosPerSecond
  }

  /** The expiry stored for a token obtained at `now` that lives `secs` seconds. */
  function ExpiryTime(now: int, secs: int): int {
    WholeSeconds(now) + (secs - TokenMarginSeconds) * MicrosPerSecond
  }

  /** The range of Python's `datetime`, in microseconds since the Unix
      epoch: 0001-01-01T00:00:00 and 9999-12-31T23:59:59.999999. */
  const MinInstant := -62135596800 * MicrosPerSecond
  const MaxInstant := 253402300800 * MicrosPerSecond - 1
  /** A `timedelta` spans at most this many days either way. */
  const MaxDeltaDays := 999999999
  const SecondsPerDay := 86400

  /** `t + timedelta(seconds=secs)` for the datetime `t`: the `OverflowError`
      of `timedelta` beyond 999999999 days, the one of the addition outside
      years 1 to 9999, or the later instant. */
  function AddSeconds(t: int, secs: int): (r: Result<int, Exc>)
    ensures r.Ok? <==> -MaxDeltaDays <= secs / SecondsPerDay <= MaxDeltaDays
                       && MinInstant <= t + secs * MicrosPerSecond <= MaxInstant
    ensures r.Ok? ==> r.value == t + secs * MicrosPerSecond
    ensures r.Err? ==> r.error.PythonError?
  {
    var days := secs / SecondsPerDay;
    if days < -MaxDeltaDays || MaxDeltaDays < days then
      Err(PythonError("days=" + IntToString(days) + "; must have magnitude <= 999999999"))
    else if t + secs * MicrosPerSecond < MinInstant || MaxInstant < t + secs * MicrosPerSecond then
      Err(PythonError("date value out of range"))
    else Ok(t + secs * MicrosPerSecond)
  }

  /** The lifetime of a token whose answer is `m`, obtained at `now`: its
      `expires_in`, once both the subtraction of the margin and the expiry
      instant it gives can be computed. */
  function Lifetime(m: map<string, Json>, now: int): (r: Result<int, Exc>)
    ensures r.Ok? <==> ExpiresIn(m).Ok? && AddSeconds(WholeSeconds(now), ExpiresIn(m).value - TokenMarginSeconds).Ok?
    ensures r.Ok? ==> r.value == ExpiresIn(m).value
                      && MinInstant <= ExpiryTime(now, r.value) <= MaxInstant
  {
    match ExpiresIn(m)
    case Err(e) => Err(e)
    case Ok(secs) =>
      match AddSeconds(WholeSeconds(now), secs - TokenMarginSeconds)
      case Err(e) => Err(e)
      case Ok(_) => Ok(secs)
  }

  /** What one candidate's answer means; an accepted answer carries the
      token and its `expires_in`. */
  datatype Verdict = Authenticated(token: Json, lifetime: int) | NoToken | Failed(error: Exc)

  function Judge(resp: Result<Json, Exc>, now: int): Verdict {
    match resp
    case Err(e) => Failed(e)
    case Ok(JObj(m)) =>
      if !Truthy(TokenOf(m)) then NoToken
      else if Lifetime(m, now).Err? then Failed(Lifetime(m, now).error)
      else Authenticated(TokenOf(m), Lifetime(m, now).value)
    case Ok(j) => Failed(PythonError(NoGet(j)))
  }

  /** The token fields after a candidate's answer: a dictionary answer always
      sets `_token`; the expiry is set only once the token is accepted. */
  function TokenStep(resp: Result<Json, Exc>, st: State, now: int): State {
    match resp
    case Ok(JObj(m)) =>
      if Truthy(TokenOf(m)) && Lifetime(m, now).Ok?
      then st.(token := TokenOf(m), expires := Some(ExpiryTime(now, Lifetime(m, now).value)))
      else st.(token := TokenOf(m))
    case _ => st
  }

  /** One pass of the loop: candidate `k`'s exchange, what it means, and the
      state after its token has been stored. */
  function Attempt(cfg: Config, st: State, now: int, k: nat): (Verdict, State)
    requires k < |cfg.candidates|
  {
    var (resp, st1) := Exchange(cfg, st, k);
    (Judge(resp, now), TokenStep(resp, st1, now))
  }

  /** The last exception seen, after a verdict. */
  function NextLast(v: Verdict, last: Option<Exc>): Option<Exc> {
    if v.Failed? then Some(v.error) else last
  }

  /** The authentication loop from candidate `k` on, with `last` the last
      exception seen so far. */
  function AuthLoop(cfg: Config, st: State, now: int, k: nat, last: Option<Exc>): (Result<(), Exc>, State)
    decreases |cfg.candidates| - k
  {
    if k >= |cfg.candidates| then (Err(AllMethodsFailed(last)), st)
    else
      var (verdict, st2) := Attempt(cfg, st, now, k);
      if verdict.Authenticated? then (Ok(()), st2)
      else AuthLoop(cfg, st2, now, k + 1, NextLast(verdict, last))
  }

  /** `_authenticate`. */
  function AuthenticateSpec(cfg: Config, st: State, now: int): (Result<(), Exc>, State) {
    AuthLoop(cfg, st, now, 0, None)
  }

  /** `_is_token_expired`. */
  predicate Expired(expires: Option<int>, now: int) {
    expires.None? || now >= expires.value
  }

  /** `_ensure_authenticated`. */
  function EnsureSpec(cfg: Config, st: State, now: int): (Result<(), Exc>, State) {
    if st.token == JNull || Expired(st.expires, now) then AuthenticateSpec(cfg, st, now) else (Ok(()), st)
  }

  // ------------------------------------------------------------------ requests

  /** `_make_request(..., authenticated=True)`: authenticate if needed, send
      with the bearer token; on a 401 clear the token, authenticate again
      and retry once; a second 401 is an authentication error. */
  function AuthedRequest(cfg: Config, st: State, verb: string, endpoint: string, data: Option<Json>, now: int)
    : (Result<Json, Exc>, State)
  {
    SendAuthed(cfg, st, verb, RequestUrl(cfg, endpoint), data, now)
  }

  /** The authenticated path of `_make_request` on the joined `url`: make
      sure a token is held, send with it, and on a 401 retry once. */
  function SendAuthed(cfg: Config, st: State, verb: string, url: Url, data: Option<Json>, now: int)
    : (Result<Json, Exc>, State)
  {
    var (a, st1) := EnsureSpec(cfg, st, now);
    if a.Err? then (Err(a.error), st1)
    else
      var (o, st2) := Transmit(st1, Request(verb, url, Bearer(st1.token), data));
      if !Unauthorized(o) then (Conclude(cfg, url, o), st2)
      else Retry(cfg, st2, verb, url, data, now)
  }

  /** After a 401: drop the token, authenticate again and resend once; a
      second 401 is final. */
  function Retry(cfg: Config, st: State, verb: string, url: Url, data: Option<Json>, now: int)
    : (Result<Json, Exc>, State)
  {
    var (a, st1) := EnsureSpec(cfg, st.(token := JNull), now);
    if a.Err? then (Err(a.error), st1)
    else
      var (o, st2) := Transmit(st1, Request(verb, url, Bearer(st1.token), data));
      if Unauthorized(o) then (Err(AuthenticationError("Authentication failed")), st2)
      else (Conclude(cfg, url, o), st2)
  }

  /** `_make_request`. */
  function RequestSpec(cfg: Config, st: State, verb: string, endpoint: string, data: Option<Json>,
                       authenticated: bool, now: int): (Result<Json, Exc>, State)
  {
    if authenticated then AuthedRequest(cfg, st, verb, endpoint, data, now)
    else UnauthRequest(cfg, st, verb, endpoint, data)
  }

  // ------------------------------------------------------------------ operations

  /** `requests` refuses a URL that ends before any host, such as `http:/`,
      before sending it. Every probe URL begins with the scheme, so it has
      no host when it is no longer than `scheme://`. */
  predicate NoHost(cfg: Config, url: string) {
    |url| <= |cfg.scheme| + 3
  }

  /** The `InvalidURL` text `requests` gives for such a URL. */
  function NoHostText(url: string): string {
    "Invalid URL '" + url + "': No host supplied"
  }

  /** `test_connection` with its first probe sent to `probe`: two probes
      whose answers are ignored (though their failures are not), then
      `GET /system/info`. */
  function ProbeRun(cfg: Config, st: State, now: int, probe: string): (Json, State) {
    if NoHost(cfg, probe) then (ConnectionReport(Err(PythonError(NoHostText(probe)))), st)
    else
      var (o1, st1) := Transmit(st, Request("GET", Absolute(probe), NoAuth, None));
      if !o1.Response? then (ConnectionReport(Err(PythonError(o1.detail))), st1)
      else
        var (o2, st2) := Transmit(st1, Request("GET", Absolute(BaseUrl(cfg)), NoAuth, None));
        if !o2.Response? then (ConnectionReport(Err(PythonError(o2.detail))), st2)
        else
          var (resp, st3) := RequestSpec(cfg, st2, "GET", "/system/info", None, true, now);
          (ConnectionReport(resp), st3)
  }

  /** `test_connection` as written: the first probe goes to `ProbeUrl`. */
  function TestConnectionWritten(cfg: Config, st: State, now: int): (Json, State) {
    ProbeRun(cfg, st, now, ProbeUrl(cfg))
  }

  /** `test_connection` with the probe it is meant to send, to `RootUrl`;
      `ApiClient.TestConnection` does this. */
  function TestConnectionSpec(cfg: Config, st: State, now: int): (Json, State) {
    ProbeRun(cfg, st, now, RootUrl(cfg))
  }

  /** `get_device_details`. */
  function DeviceDetailsSpec(cfg: Config, st: State, deviceId: Json, now: int): (Result<Json, Exc>, State) {
    var (resp, st1) := RequestSpec(cfg, st, "GET", "/devices/" + PyStr(deviceId), None, true, now);
    (match resp
     case Err(e) => Err(Rewrap("Failed to get device details for " + PyStr(deviceId) + ": ", e))
     case Ok(j) => Ok(j), st1)
  }

  /** A device's id for the detail lookup: `device.get('id') or device.get('deviceId')`. */
  function DeviceId(device: map<string, Json>): Json {
    Or(Get(device, "id"), Get(device, "deviceId"))
  }

  /** One device of the detail loop: its details are merged in when they
      arrive as a dictionary; any failure leaves it as it was. */
  function DetailStep(cfg: Config, st: State, device: map<string, Json>, now: int): (Json, State) {
    if !Truthy(DeviceId(device)) then (JObj(device), st)
    else
      var (detail, st1) := DeviceDetailsSpec(cfg, st, DeviceId(device), now);
      (JObj(if detail.Ok? && detail.value.JObj? then device + detail.value.fields else device), st1)
  }

  function WithDetails(cfg: Config, st: State, devices: seq<map<string, Json>>, now: int): (seq<Json>, State)
    decreases |devices|
  {
    if devices == [] then ([], st)
    else
      var (d, st1) := DetailStep(cfg, st, devices[0], now);
      var (rest, st2) := WithDetails(cfg, st1, devices[1..], now);
      ([d] + rest, st2)
  }

  /** `devices.get('devices', [])` for a dictionary answer. */
  function DeviceList(j: Json): Json {
    if j.JObj? then GetOr(j.fields, "devices", JList([])) else j
  }

  /** `get_devices`. */
  function GetDevicesSpec(cfg: Config, st: State, includeDetails: bool, now: int): (Result<Json, Exc>, State) {
    var (resp, st1) := RequestSpec(cfg, st, "GET", "/devices", None, true, now);
    if resp.Err? then (Err(Rewrap("Failed to get devices: ", resp.error)), st1)
    else
      var devices := DeviceList(resp.value);
      if !includeDetails then (Ok(devices), st1)
      else
        var walk := GetLoop(devices);
        var (detailed, st2) := WithDetails(cfg, st1, walk.items, now);
        if walk.failure.Some? then (Err(ApiException("Failed to get devices: " + walk.failure.value)), st2)
        else (Ok(JList(detailed)), st2)
  }

  // ------------------------------------------------------------------ the client object

  class ApiClient {
    const cfg: Config
    const session: Transport
    var token: Json
    var tokenExpires: Option<int>

    function Snapshot(): State
      reads this, session
    {
      State(token, tokenExpires, session.script, session.sent)
    }

    /** A client with no token yet. */
    constructor (cfg: Config, session: Transport)
      ensures this.cfg == cfg && this.session == session
      ensures token == JNull && tokenExpires == None
    {
      this.cfg := cfg;
      this.session := session;
      token := JNull;
      tokenExpires := None;
    }

    method MakeRequest(verb: string, endpoint: string, data: Option<Json>, authenticated: bool, now: int)
      returns (r: Result<Json, Exc>)
      modifies this, session
      ensures (r, Snapshot()) == RequestSpec(cfg, old(Snapshot()), verb, endpoint, data, authenticated, now)
      decreases if authenticated then 4 else 0
    {
      var url := RequestUrl(cfg, endpoint);
      if authenticated {
        var a := EnsureAuthenticated(now);
        if a.Err? {
          return Err(a.error);
        }
      }
      var o := session.Send(Request(verb, url, if authenticated then Bearer(token) else NoAuth, data));
      if Unauthorized(o) {
        token := JNull;
        if authenticated {
          var a := EnsureAuthenticated(now);
          if a.Err? {
            return Err(a.error);
          }
          o := session.Send(Request(verb, url, Bearer(token), data));
          if Unauthorized(o) {
            return Err(AuthenticationError("Authentication failed"));
          }
        }
      }
      r := Conclude(cfg, url, o);
    }

    method MakeRequestRaw(verb: string, endpoint: string, auth: AuthHeader) returns (r: Result<Json, Exc>)
      modifies session
      ensures (r, Snapshot()) == RawRequest(cfg, old(Snapshot()), verb, endpoint, auth)
    {
      var url := RequestUrl(cfg, endpoint);
      var o := session.Send(Request(verb, url, auth, None));
      r := Conclude(cfg, url, o);
    }

    method EnsureAuthenticated(now: int) returns (r: Result<(), Exc>)
      modifies this, session
      ensures (r, Snapshot()) == EnsureSpec(cfg, old(Snapshot()), now)
      decreases 3
    {
      if token == JNull || Expired(tokenExpires, now) {
        r := Authenticate(now);
      } else {
        r := Ok(());
      }
    }

    method Authenticate(now: int) returns (r: Result<(), Exc>)
      modifies this, session
      ensures (r, Snapshot()) == AuthenticateSpec(cfg, old(Snapshot()), now)
      decreases 2
    {
      var lastError: Option<Exc> := None;
      var k := 0;
      while k < |cfg.candidates|
        invariant 0 <= k <= |cfg.candidates|
        invariant AuthLoop(cfg, Snapshot(), now, k, lastError) == AuthenticateSpec(cfg, old(Snapshot()), now)
        decreases |cfg.candidates| - k
      {
        var verdict := TryCandidate(k, now);
        if verdict.Authenticated? {
          return Ok(());
        }
        lastError := NextLast(verdict, lastError);
        k := k + 1;
      }
      r := Err(AllMethodsFailed(lastError));
    }

    /** One pass of the authentication loop: candidate `k`'s request, the
        token it stores, and what its answer means. */
    method TryCandidate(k: nat, now: int) returns (verdict: Verdict)
      requires k < |cfg.candidates|
      modifies this, session
      ensures (verdict, Snapshot()) == Attempt(cfg, old(Snapshot()), now, k)
      decreases 1
    {
      var (endpoint, how) := cfg.candidates[k];
      var response: Result<Json, Exc>;
      if how == BasicCredentials {
        response := MakeRequestRaw("POST", endpoint, Basic(cfg.username, cfg.password));
      } else {
        response := MakeRequest("POST", endpoint, Some(AuthData(cfg)), false, now);
      }
      match response {
        case Err(e) =>
          verdict := Failed(e);
        case Ok(body) =>
          if !body.JObj? {
            verdict := Failed(PythonError(NoGet(body)));
          } else {
            token := TokenOf(body.fields);
            if !Truthy(token) {
              verdict := NoToken;
            } else {
              var expiresIn := Lifetime(body.fields, now);
              if expiresIn.Ok? {
                tokenExpires := Some(ExpiryTime(now, expiresIn.value));
                verdict := Authenticated(token, expiresIn.value);
              } else {
                verdict := Failed(expiresIn.error);
              }
            }
          }
      }
    }

    method TestConnection(now: int) returns (report: Json)
      modifies this, session
      ensures (report, Snapshot()) == TestConnectionSpec(cfg, old(Snapshot()), now)
    {
      assert !NoHost(cfg, RootUrl(cfg));
      var probe := session.Send(Request("GET", Absolute(RootUrl(cfg)), NoAuth, None));
      if !probe.Response? {
        return ConnectionReport(Err(PythonError(probe.detail)));
      }
      probe := session.Send(Request("GET", Absolute(BaseUrl(cfg)), NoAuth, None));
      if !probe.Response? {
        return ConnectionReport(Err(PythonError(probe.detail)));
      }
      var resp := MakeRequest("GET", "/system/info", None, true, now);
      report := ConnectionReport(resp);
    }

    method GetDeviceDetails(deviceId: Json, now: int) returns (r: Result<Json, Exc>)
      modifies this, session
      ensures (r, Snapshot()) == DeviceDetailsSpec(cfg, old(Snapshot()), deviceId, now)
    {
      var resp := MakeRequest("GET", "/devices/" + PyStr(deviceId), None, true, now);
      match resp {
        case Err(e) => r := Err(Rewrap("Failed to get device details for " + PyStr(deviceId) + ": ", e));
        case Ok(j) => r := Ok(j);
      }
    }

    method GetDevices(includeDetails: bool, now: int) returns (r: Result<Json, Exc>)
      modifies this, session
      ensures (r, Snapshot()) == GetDevicesSpec(cfg, old(Snapshot()), includeDetails, now)
    {
      var resp := MakeRequest("GET", "/devices", None, true, now);
      if resp.Err? {
        return Err(Rewrap("Failed to get devices: ", resp.error));
      }
      var devices := DeviceList(resp.value);
      if !includeDetails {
        return Ok(devices);
      }
      var walk := GetLoop(devices);
      var detailed := AddDetails(walk.items, now);
      if walk.failure.Some? {
        return Err(ApiException("Failed to get devices: " + walk.failure.value));
      }
      r := Ok(JList(detailed));
    }

    /** The detail loop of `get_devices` over the dictionaries it visits. */
    method AddDetails(devices: seq<map<string, Json>>, now: int) returns (detailed: seq<Json>)
      modifies this, session
      ensures (detailed, Snapshot()) == WithDetails(cfg, old(Snapshot()), devices, now)
    {
      detailed := [];
      var i := 0;
      assert devices[0..] == devices;
      assert [] + WithDetails(cfg, Snapshot(), devices, now).0 == WithDetails(cfg, Snapshot(), devices, now).0;
      while i < |devices|
        invariant 0 <= i <= |devices|
        invariant (detailed + WithDetails(cfg, Snapshot(), devices[i..], now).0,
                   WithDetails(cfg, Snapshot(), devices[i..], now).1)
               == WithDetails(cfg, old(Snapshot()), devices, now)
        decreases |devices| - i
      {
        ghost var before := Snapshot();
        assert devices[i..][0] == devices[i] && devices[i..][1..] == devices[i + 1..];
        var device := AddDetail(devices[i], now);
        assert WithDetails(cfg, before, devices[i..], now)
            == ([device] + WithDetails(cfg, Snapshot(), devices[i + 1..], now).0,
                WithDetails(cfg, Snapshot(), devices[i + 1..], now).1);
        assert detailed + [device] + WithDetails(cfg, Snapshot(), devices[i + 1..], now).0
            == detailed + ([device] + WithDetails(cfg, Snapshot(), devices[i + 1..], now).0);
        detailed := detailed + [device];
        i := i + 1;
      }
      assert devices[i..] == [];
      assert detailed + [] == detailed;
    }

    /** One device of the detail loop. */
    method AddDetail(device: map<string, Json>, now: int) returns (merged: Json)
      modifies this, session
      ensures (merged, Snapshot()) == DetailStep(cfg, old(Snapshot()), device, now)
    {
      var fields := device;
      var deviceId := DeviceId(device);
      if Truthy(deviceId) {
        var detail := GetDeviceDetails(deviceId, now);
        if detail.Ok? && detail.value.JObj? {
          fields := device + detail.value.fields;
        }
      }
      merged := JObj(fields);
    }

    method GetDeviceGroups(now: int) returns (r: Result<Json, Exc>)
      modifies this, session
      ensures var (resp, st) := RequestSpec(cfg, old(Snapshot()), "GET", "/groups", None, true, now);
              Snapshot() == st && r == GroupsOutcome(resp)
    {
      var resp := MakeRequest("GET", "/groups", None, true, now);
      r := GroupsOutcome(resp);
    }

    method DeleteDevice(deviceId: Json, now: int) returns (r: Result<Json, Exc>)
      modifies this, session
      ensures var (resp, st) := RequestSpec(cfg, old(Snapshot()), "DELETE", "/devices/" + PyStr(deviceId), None, true, now);
              Snapshot() == st && r == DeleteOutcome(deviceId, resp)
    {
      var resp := MakeRequest("DELETE", "/devices/" + PyStr(deviceId), None, true, now);
      r := DeleteOutcome(deviceId, resp);
    }

    method ScanIpAddress(ip: string, options: map<string, Json>, now: int) returns (r: Result<Json, Exc>)
      modifies this, session
      ensures var (resp, st) := RequestSpec(cfg, old(Snapshot()), "POST", "/scan/ip", Some(JObj(ScanIpPayload(ip, options))), true, now);
              Snapshot() == st && r == ScanOutcome(ip, resp)
    {
      var resp := MakeRequest("POST", "/scan/ip", Some(JObj(ScanIpPayload(ip, options))), true, now);
      r := ScanOutcome(ip, resp);
    }

    method AddDeviceByIp(ip: string, config: map<string, Json>, now: int) returns (r: Result<Json, Exc>)
      modifies this, session
      ensures var (resp, st) := RequestSpec(cfg, old(Snapshot()), "POST", "/devices/add-by-ip", Some(JObj(AddByIpPayload(ip, config))), true, now);
              Snapshot() == st && r == AddOutcome(ip, resp)
    {
      var resp := MakeRequest("POST", "/devices/add-by-ip", Some(JObj(AddByIpPayload(ip, config))), true, now);
      r := AddOutcome(ip, resp);
    }

    method UpdateDeviceMetadata(deviceId: Json, metadata: map<string, Json>, now: int) returns (r: Result<Json, Exc>)
      modifies this, session
      ensures var (resp, st) := RequestSpec(cfg, old(Snapshot()), "PUT", "/devices/" + PyStr(deviceId) + "/metadata",
                                            Some(JObj(MetadataPayload(metadata))), true, now);
              Snapshot() == st && r == MetadataOutcome(deviceId, resp)
    {
      var resp := MakeRequest("PUT", "/devices/" + PyStr(deviceId) + "/metadata", Some(JObj(MetadataPayload(metadata))), true, now);
      r := MetadataOutcome(deviceId, resp);
    }

    method GetScanResults(scanId: Json, now: int) returns (r: Result<Json, Exc>)
      modifies this, session
      ensures var (resp, st) := RequestSpec(cfg, old(Snapshot()), "GET", "/scan/" + PyStr(scanId) + "/results", None, true, now);
              Snapshot() == st && r == ScanResultsOutcome(scanId, resp)
    {
      var resp := MakeRequest("GET", "/scan/" + PyStr(scanId) + "/results", None, true, now);
      r := ScanResultsOutcome(scanId, resp);
    }

    method BulkAddIps(ips: seq<string>, config: map<string, Json>, now: int) returns (r: Result<Json, Exc>)
      modifies this, session
      ensures var (resp, st) := RequestSpec(cfg, old(Snapshot()), "POST", "/devices/bulk-add", Some(JObj(BulkPayload(ips, config))), true, now);
              Snapshot() == st && r == BulkOutcome(ips, resp)
    {
      var resp := MakeRequest("POST", "/devices/bulk-add", Some(JObj(BulkPayload(ips, config))), true, now);
      r := BulkOutcome(ips, resp);
    }
  }
}
