/** `SimpleWUGClient`, the cut-down WhatsUp Gold client of the stand-alone
    test script: one OAuth password grant against `base_url/token`, requests
    to `base_url + endpoint`, a 401 answered by one fresh authentication and
    one retry after which any status but 200/201 is final, the `data.groups`
    and `data.devices` envelopes, and the walk over all groups that keeps
    each device id once. Its state is the same value as `WugClient.State`
    (token, expiry in microseconds, the scripted session); each method of
    `SimpleWugClient` is proved to do what its function says. It raises the
    same kinds of exception as `WUGAPIClient`: `ApiException` for its
    `WUGAPIException`, `AuthenticationError` for its `WUGAuthenticationError`. */
module SimpleClient {
  import opened Base
  import opened Text
  import opened Json
  import opened Http
  import opened Errors
  import WugClient

  type State = WugClient.State

  /** What the constructor keeps. */
  datatype Config = Config(host: string, username: string, password: string, port: int, useSsl: bool)

  /** `self.base_url`: no sanitising of the host, and the `/api/v1` prefix. */
  function BaseUrl(cfg: Config): string {
    (if cfg.useSsl then "https" else "http") + "://" + cfg.host + ":" + IntToString(cfg.port) + "/api/v1"
  }

  function TokenUrl(cfg: Config): string {
    BaseUrl(cfg) + "/token"
  }

  /** The form body of the password grant, sent as one unencoded string. */
  function GrantBody(cfg: Config): string {
    "grant_type=password&username=" + cfg.username + "&password=" + cfg.password
  }

  /** The token request; its form body is carried in the request's body slot. */
  function TokenRequest(cfg: Config): Request {
    Request("POST", Absolute(TokenUrl(cfg)), NoAuth, Some(JStr(GrantBody(cfg))))
  }

  /** What `response.json()` raises on a body that is not JSON. */
  const DecodeErrorText := "Expecting value: line 1 column 1 (char 0)"

  /** `datetime.now() + timedelta(seconds=expires_in - 60)`. */
  function SimpleExpiry(now: int, secs: int): int {
    now + (secs - WugClient.TokenMarginSeconds) * WugClient.MicrosPerSecond
  }

  // ------------------------------------------------------------------ authentication

  /** `_authenticate`: one POST of the grant. A 200 with a dictionary body
      stores `access_token` (possibly `None`) and then the expiry; any other
      status and any transport failure is an authentication error. */
  function AuthenticateSpec(cfg: Config, st: State, now: int): (Result<(), Exc>, State) {
    var (o, st1) := WugClient.Transmit(st, TokenRequest(cfg));
    if !o.Response? then (Err(AuthenticationError("Authentication request failed: " + o.detail)), st1)
    else if o.status != 200 then
      (Err(AuthenticationError("Authentication failed: " + IntToString(o.status) + " - " + o.body.text)), st1)
    else match o.body.parsed
      case None => (Err(AuthenticationError("Authentication request failed: " + DecodeErrorText)), st1)
      case Some(JObj(m)) =>
        var st2 := st1.(token := Get(m, "access_token"));
        (match WugClient.ExpiresIn(m)
         case Err(e) => (Err(e), st2)
         case Ok(secs) =>
           match WugClient.AddSeconds(now, secs - WugClient.TokenMarginSeconds)
           case Err(e) => (Err(e), st2)
           case Ok(_) => (Ok(()), st2.(expires := Some(SimpleExpiry(now, secs)))))
      case Some(j) => (Err(PythonError(NoGet(j))), st1)
  }

  /** `_ensure_authenticated`, with `_is_token_expired` as `WugClient.Expired`. */
  function EnsureSpec(cfg: Config, st: State, now: int): (Result<(), Exc>, State) {
    if st.token == JNull || WugClient.Expired(st.expires, now) then AuthenticateSpec(cfg, st, now) else (Ok(()), st)
  }

  // ------------------------------------------------------------------ requests

  /** The endpoint with a leading `/` added when it lacks one. */
  function Path(endpoint: string): string {
    if StartsWith(endpoint, "/") then endpoint else "/" + endpoint
  }

  /** The URL of an endpoint: plain concatenation onto the base. */
  function EndpointUrl(cfg: Config, endpoint: string): Url {
    Absolute(BaseUrl(cfg) + Path(endpoint))
  }

  /** The JSON body sent for `data`: only a truthy one is attached. */
  function Payload(data: Option<Json>): Option<Json> {
    if data.Some? && Truthy(data.value) then data else None
  }

  /** The value of a 200/201 answer. */
  function Success(body: Body): (r: Json)
    ensures body.parsed.Some? ==> r == body.parsed.value
    ensures body.parsed.None? ==> r.JObj? && "status" in r.fields && r.fields["status"] == JStr("success")
                                  && "response" in r.fields && r.fields["response"] == JStr(body.text)
  {
    if body.parsed.Some? then body.parsed.value else JObj(map["status" := JStr("success"), "response" := JStr(body.text)])
  }

  /** Python `p in s` for strings. */
  predicate HasInfix(s: string, p: string)
    decreases |s|
  {
    StartsWith(s, p) || (s != [] && HasInfix(s[1..], p))
  }

  /** What follows the status in the error of a failed request: the error
      object's `message` when the body is a dictionary whose `error` is a
      dictionary, the raw text when reading the body fails in any way, and
      nothing when the body is valid JSON without an `error` entry. */
  function FailureDetail(body: Body): Option<string> {
    match body.parsed
    case None => Some(body.text)
    case Some(JObj(m)) =>
      if "error" !in m then None
      else if m["error"].JObj? then Some(PyStr(GetOr(m["error"].fields, "message", JStr("Unknown error"))))
      else Some(body.text)
    case Some(JList(xs)) => if JStr("error") in xs then Some(body.text) else None
    case Some(JStr(s)) => if HasInfix(s, "error") then Some(body.text) else None
    case Some(_) => Some(body.text)
  }

  function FailureText(status: int, body: Body): string {
    var head := "API request failed: " + IntToString(status);
    match FailureDetail(body)
    case None => head
    case Some(d) => head + " - " + d
  }

  /** `_make_request`: authentication failures escape as they are; transport
      failures become `Request failed: ...`; a 401 goes to `RetrySpec`. */
  function RequestSpec(cfg: Config, st: State, verb: string, endpoint: string, data: Option<Json>, now: int)
    : (Result<Json, Exc>, State)
  {
    var url := EndpointUrl(cfg, endpoint);
    var (a, st1) := EnsureSpec(cfg, st, now);
    if a.Err? then (Err(a.error), st1)
    else
      var (o, st2) := WugClient.Transmit(st1, Request(verb, url, Bearer(st1.token), Payload(data)));
      if !o.Response? then (Err(ApiException("Request failed: " + o.detail)), st2)
      else if o.status == 200 || o.status == 201 then (Ok(Success(o.body)), st2)
      else if o.status == 401 then RetrySpec(cfg, st2.(token := JNull), verb, url, data, now)
      else (Err(ApiException(FailureText(o.status, o.body))), st2)
  }

  /** After a 401, with the token dropped: authenticate, resend once, and
      treat every status but 200/201 as a failed re-authentication. */
  function RetrySpec(cfg: Config, st: State, verb: string, url: Url, data: Option<Json>, now: int)
    : (Result<Json, Exc>, State)
  {
    var (a, st1) := EnsureSpec(cfg, st, now);
    if a.Err? then (Err(a.error), st1)
    else
      var (o, st2) := WugClient.Transmit(st1, Request(verb, url, Bearer(st1.token), Payload(data)));
      if !o.Response? then (Err(ApiException("Request failed: " + o.detail)), st2)
      else if o.status == 200 || o.status == 201 then
        (if o.body.parsed.Some? then Ok(o.body.parsed.value) else Err(ApiException("Request failed: " + DecodeErrorText)), st2)
      else (Err(AuthenticationError("Re-authentication failed: " + IntToString(o.status))), st2)
  }

  // ------------------------------------------------------------------ operations

  /** `test_connection`: every exception becomes a failed report. */
  function TestConnectionSpec(cfg: Config, st: State, now: int): (Json, State) {
    var (resp, st1) := RequestSpec(cfg, st, "GET", "/product/version", None, now);
    (match resp
     case Ok(v) => JObj(map["success" := JBool(true), "message" := JStr("Connection successful"), "version_info" := v])
     case Err(e) => JObj(map["success" := JBool(false), "message" := JStr("Connection failed: " + Message(e))]), st1)
  }

  /** `response['data'].get(key, [])` for a dictionary answer with `data`,
      else `[]`. */
  function Envelope(resp: Json, key: string): Result<Json, Exc> {
    if resp.JObj? && "data" in resp.fields then
      var d := resp.fields["data"];
      if d.JObj? then Ok(GetOr(d.fields, key, JList([]))) else Err(PythonError(NoGet(d)))
    else Ok(JList([]))
  }

  function Enveloped(r: (Result<Json, Exc>, State), key: string): (Result<Json, Exc>, State) {
    (if r.0.Err? then r.0 else Envelope(r.0.value, key), r.1)
  }

  /** `get_device_groups`. */
  function DeviceGroupsSpec(cfg: Config, st: State, now: int): (Result<Json, Exc>, State) {
    Enveloped(RequestSpec(cfg, st, "GET", "/device-groups/-", None, now), "groups")
  }

  function GroupDevicesEndpoint(groupId: Json): string {
    "/device-groups/" + PyStr(groupId) + "/devices"
  }

  /** `get_devices_from_group`. */
  function GroupDevicesSpec(cfg: Config, st: State, groupId: Json, now: int): (Result<Json, Exc>, State) {
    Enveloped(RequestSpec(cfg, st, "GET", GroupDevicesEndpoint(groupId), None, now), "devices")
  }

  // ------------------------------------------------------------------ all devices

  /** The devices gathered so far and the set keys of their ids, in order;
      `device_ids_seen` holds exactly those keys. */
  datatype Collected = Collected(devices: seq<Json>, keys: seq<Json>)

  /** A device annotated with the group it was found in. */
  function Annotated(d: map<string, Json>, groupId: Json, groupName: Json): Json {
    JObj(d["group_id" := groupId]["group_name" := groupName])
  }

  /** The set key of an entry's `id`. */
  function KeyOf(e: Json): Option<Json> {
    if e.JObj? then HashKey(Get(e.fields, "id")) else None
  }

  /** The inner loop over one group's devices from index `k`: a device with a
      falsy id is skipped, an unhashable id ends the group (the `TypeError`
      is caught per group), and an id already seen is not taken again. */
  function TakeDevices(c: Collected, ds: seq<map<string, Json>>, k: nat, groupId: Json, groupName: Json): Collected
    decreases |ds| - k
  {
    if k >= |ds| then c
    else
      var id := Get(ds[k], "id");
      if !Truthy(id) then TakeDevices(c, ds, k + 1, groupId, groupName)
      else match HashKey(id)
        case None => c
        case Some(h) =>
          if h in c.keys then TakeDevices(c, ds, k + 1, groupId, groupName)
          else TakeDevices(Collected(c.devices + [Annotated(ds[k], groupId, groupName)], c.keys + [h]),
                           ds, k + 1, groupId, groupName)
  }

  /** One group of the outer loop: a group without an id is skipped without
      a request; a failing fetch or a result without a length is skipped
      after its requests; otherwise the devices it yields are taken. */
  function GroupStep(cfg: Config, st: State, c: Collected, g: map<string, Json>, now: int): (Collected, State) {
    var groupId := Get(g, "id");
    if !Truthy(groupId) then (c, st)
    else
      var (resp, st1) := GroupDevicesSpec(cfg, st, groupId, now);
      if resp.Err? || PyLen(resp.value).None? then (c, st1)
      else (TakeDevices(c, GetLoop(resp.value).items, 0, groupId, GetOr(g, "name", JStr("Unknown"))), st1)
  }

  /** The outer loop from group `i` on. */
  function GroupsFrom(cfg: Config, st: State, gs: seq<map<string, Json>>, i: nat, c: Collected, now: int)
    : (Collected, State)
    decreases |gs| - i
  {
    if i >= |gs| then (c, st)
    else
      var (c1, st1) := GroupStep(cfg, st, c, gs[i], now);
      GroupsFrom(cfg, st1, gs, i + 1, c1, now)
  }

  /** `get_all_devices`: a failure to list the groups, to take their length
      or to call `.get` on one of them escapes; failures inside one group do
      not. */
  function AllDevicesSpec(cfg: Config, st: State, now: int): (Result<Json, Exc>, State) {
    var (groups, st1) := DeviceGroupsSpec(cfg, st, now);
    if groups.Err? then (Err(groups.error), st1)
    else if PyLen(groups.value).None? then (Err(PythonError(NoLen(groups.value))), st1)
    else
      var walk := GetLoop(groups.value);
      var (c, st2) := GroupsFrom(cfg, st1, walk.items, 0, Collected([], []), now);
      if walk.failure.Some? then (Err(PythonError(walk.failure.value)), st2) else (Ok(JList(c.devices)), st2)
  }

  // ------------------------------------------------------------------ main's tally

  /** `sum(1 for result in results.values() if result)`: a test that crashed
      (`None`) counts as failed. */
  function PassedCount(results: seq<Option<bool>>): (n: nat)
    ensures n <= |results|
    decreases |results|
  {
    if results == [] then 0
    else PassedCount(results[..|results| - 1]) + (if results[|results| - 1] == Some(true) then 1 else 0)
  }

  /** `main`'s exit code. */
  function ExitCode(results: seq<Option<bool>>): int {
    if PassedCount(results) == |results| then 0 else 1
  }

  // ------------------------------------------------------------------ the client object

  class SimpleWugClient {
    const cfg: Config
    const session: Transport
    var token: Json
    var tokenExpires: Option<int>

    function Snapshot(): State
      reads this, session
    {
      WugClient.State(token, tokenExpires, session.script, session.sent)
    }

    /** A client with no token yet. */
    constructor (cfg: Config, session: Transport)
      ensures this.cfg == cfg && this.session == session
      ensures token == JNull && tokenExpires == None
    {
      this.cfg := cfg;
      this.session := session;
      token := JNull;
      tokenExpires := None;
    }

    method Authenticate(now: int) returns (r: Result<(), Exc>)
      modifies this, session
      ensures (r, Snapshot()) == AuthenticateSpec(cfg, old(Snapshot()), now)
    {
      var o := session.Send(TokenRequest(cfg));
      if !o.Response? {
        return Err(AuthenticationError("Authentication request failed: " + o.detail));
      }
      if o.status != 200 {
        return Err(AuthenticationError("Authentication failed: " + IntToString(o.status) + " - " + o.body.text));
      }
      if o.body.parsed.None? {
        return Err(AuthenticationError("Authentication request failed: " + DecodeErrorText));
      }
      var tokenData := o.body.parsed.value;
      if !tokenData.JObj? {
        return Err(PythonError(NoGet(tokenData)));
      }
      token := Get(tokenData.fields, "access_token");
      var expiresIn := WugClient.ExpiresIn(tokenData.fields);
      if expiresIn.Err? {
        return Err(expiresIn.error);
      }
      var expiry := WugClient.AddSeconds(now, expiresIn.value - WugClient.TokenMarginSeconds);
      if expiry.Err? {
        return Err(expiry.error);
      }
      tokenExpires := Some(SimpleExpiry(now, expiresIn.value));
      r := Ok(());
    }

    method EnsureAuthenticated(now: int) returns (r: Result<(), Exc>)
      modifies this, session
      ensures (r, Snapshot()) == EnsureSpec(cfg, old(Snapshot()), now)
    {
      if token == JNull || WugClient.Expired(tokenExpires, now) {
        r := Authenticate(now);
      } else {
        r := Ok(());
      }
    }

    method MakeRequest(verb: string, endpoint: string, data: Option<Json>, now: int) returns (r: Result<Json, Exc>)
      modifies this, session
      ensures (r, Snapshot()) == RequestSpec(cfg, old(Snapshot()), verb, endpoint, data, now)
    {
      var url := EndpointUrl(cfg, endpoint);
      var a := EnsureAuthenticated(now);
      if a.Err? {
        return Err(a.error);
      }
      var o := session.Send(Request(verb, url, Bearer(token), Payload(data)));
      if !o.Response? {
        return Err(ApiException("Request failed: " + o.detail));
      }
      if o.status == 200 || o.status == 201 {
        return Ok(Success(o.body));
      }
      if o.status != 401 {
        return Err(ApiException(FailureText(o.status, o.body)));
      }
      token := JNull;
      a := EnsureAuthenticated(now);
      if a.Err? {
        return Err(a.error);
      }
      o := session.Send(Request(verb, url, Bearer(token), Payload(data)));
      if !o.Response? {
        return Err(ApiException("Request failed: " + o.detail));
      }
      if o.status == 200 || o.status == 201 {
        if o.body.parsed.None? {
          return Err(ApiException("Request failed: " + DecodeErrorText));
        }
        return Ok(o.body.parsed.value);
      }
      r := Err(AuthenticationError("Re-authentication failed: " + IntToString(o.status)));
    }

    method TestConnection(now: int) returns (report: Json)
      modifies this, session
      ensures (report, Snapshot()) == TestConnectionSpec(cfg, old(Snapshot()), now)
    {
      var resp := MakeRequest("GET", "/product/version", None, now);
      if resp.Ok? {
        report := JObj(map["success" := JBool(true), "message" := JStr("Connection successful"), "version_info" := resp.value]);
      } else {
        report := JObj(map["success" := JBool(false), "message" := JStr("Connection failed: " + Message(resp.error))]);
      }
    }

    method GetDeviceGroups(now: int) returns (r: Result<Json, Exc>)
      modifies this, session
      ensures (r, Snapshot()) == DeviceGroupsSpec(cfg, old(Snapshot()), now)
    {
      r := MakeRequest("GET", "/device-groups/-", None, now);
      if r.Ok? {
        r := Envelope(r.value, "groups");
      }
    }

    method GetDevicesFromGroup(groupId: Json, now: int) returns (r: Result<Json, Exc>)
      modifies this, session
      ensures (r, Snapshot()) == GroupDevicesSpec(cfg, old(Snapshot()), groupId, now)
    {
      r := MakeRequest("GET", GroupDevicesEndpoint(groupId), None, now);
      if r.Ok? {
        r := Envelope(r.value, "devices");
      }
    }

    method GetAllDevices(now: int) returns (r: Result<Json, Exc>)
      modifies this, session
      ensures (r, Snapshot()) == AllDevicesSpec(cfg, old(Snapshot()), now)
    {
      var groups := GetDeviceGroups(now);
      if groups.Err? {
        return Err(groups.error);
      }
      if PyLen(groups.value).None? {
        return Err(PythonError(NoLen(groups.value)));
      }
      var walk := GetLoop(groups.value);
      ghost var start := Snapshot();
      var allDevices: seq<Json> := [];
      var seen: set<Json> := {};
      ghost var keys: seq<Json> := [];
      var i := 0;
      while i < |walk.items|
        invariant 0 <= i <= |walk.items|
        invariant forall h :: h in seen <==> h in keys
        invariant GroupsFrom(cfg, Snapshot(), walk.items, i, Collected(allDevices, keys), now)
                  == GroupsFrom(cfg, start, walk.items, 0, Collected([], []), now)
        decreases |walk.items| - i
      {
        allDevices, seen, keys := CollectGroup(walk.items[i], allDevices, seen, keys, now);
        i := i + 1;
      }
      if walk.failure.Some? {
        return Err(PythonError(walk.failure.value));
      }
      r := Ok(JList(allDevices));
    }

    /** One pass of `get_all_devices`'s outer loop. */
    method CollectGroup(group: map<string, Json>, devices0: seq<Json>, seen0: set<Json>, ghost keys0: seq<Json>, now: int)
      returns (devices: seq<Json>, seen: set<Json>, ghost keys: seq<Json>)
      requires forall h :: h in seen0 <==> h in keys0
      modifies this, session
      ensures forall h :: h in seen <==> h in keys
      ensures (Collected(devices, keys), Snapshot()) == GroupStep(cfg, old(Snapshot()), Collected(devices0, keys0), group, now)
    {
      devices, seen, keys := devices0, seen0, keys0;
      var groupId := Get(group, "id");
      var groupName := GetOr(group, "name", JStr("Unknown"));
      if Truthy(groupId) {
        var fetched := GetDevicesFromGroup(groupId, now);
        if fetched.Ok? && PyLen(fetched.value).Some? {
          devices, seen, keys := TakeGroupDevices(GetLoop(fetched.value).items, groupId, groupName, devices, seen, keys);
        }
      }
    }

    /** The inner loop of `get_all_devices` over one group's devices. */
    static method TakeGroupDevices(ds: seq<map<string, Json>>, groupId: Json, groupName: Json,
                                   devices0: seq<Json>, seen0: set<Json>, ghost keys0: seq<Json>)
      returns (devices: seq<Json>, seen: set<Json>, ghost keys: seq<Json>)
      requires forall h :: h in seen0 <==> h in keys0
      ensures forall h :: h in seen <==> h in keys
      ensures Collected(devices, keys) == TakeDevices(Collected(devices0, keys0), ds, 0, groupId, groupName)
    {
      devices, seen, keys := devices0, seen0, keys0;
      var k := 0;
      while k < |ds|
        invariant 0 <= k <= |ds|
        invariant forall h :: h in seen <==> h in keys
        invariant TakeDevices(Collected(devices, keys), ds, k, groupId, groupName)
                  == TakeDevices(Collected(devices0, keys0), ds, 0, groupId, groupName)
        decreases |ds| - k
      {
        var id := Get(ds[k], "id");
        if Truthy(id) {
          var h := HashKey(id);
          if h.None? {
            return;
          }
          if h.value !in seen {
            devices := devices + [Annotated(ds[k], groupId, groupName)];
            seen := seen + {h.value};
            keys := keys + [h.value];
          }
        }
        k := k + 1;
      }
    }
  }

  // ------------------------------------------------------------------ properties

  /** The endpoint always reaches the server with exactly one leading `/`
      added when missing, and normalising twice changes nothing. */
  lemma PathNormalised(endpoint: string)
    ensures StartsWith(Path(endpoint), "/")
    ensures Path(endpoint) == endpoint <==> StartsWith(endpoint, "/")
    ensures Path(Path(endpoint)) == Path(endpoint)
    ensures |Path(endpoint)| <= |endpoint| + 1
  {
  }

  /** One authentication sends exactly the token request. It succeeds
      exactly on a 200 whose JSON body is a dictionary with a usable
      `expires_in` whose expiry, `expires_in` − 60 seconds from now, is a
      datetime; it then stores `access_token` and that expiry. A non-200
      status and a transport failure are authentication errors, and an
      expiry beyond the datetime range raises `OverflowError` once the token
      is stored. */
  lemma AuthenticateOutcome(cfg: Config, st: State, now: int)
    ensures var (r, st1) := AuthenticateSpec(cfg, st, now);
            var o := Answer(st.script, |st.sent|);
            st1.sent == st.sent + [TokenRequest(cfg)] && st1.script == st.script
            && (r.Ok? <==> (o.Response? && o.status == 200 && o.body.parsed.Some? && o.body.parsed.value.JObj?
                            && WugClient.ExpiresIn(o.body.parsed.value.fields).Ok?
                            && WugClient.AddSeconds(now, WugClient.ExpiresIn(o.body.parsed.value.fields).value - 60).Ok?))
            && (r.Ok? ==>
                  st1.token == Get(o.body.parsed.value.fields, "access_token")
                  && st1.expires == Some(now + (WugClient.ExpiresIn(o.body.parsed.value.fields).value - 60) * 1000000))
            && (!o.Response? || o.status != 200 ==>
                  r.Err? && r.error.AuthenticationError? && st1.token == st.token && st1.expires == st.expires)
            && (o.Response? && o.status == 200 && o.body.parsed.Some? && o.body.parsed.value.JObj?
                && WugClient.ExpiresIn(o.body.parsed.value.fields).Ok?
                && WugClient.AddSeconds(now, WugClient.ExpiresIn(o.body.parsed.value.fields).value - 60).Err? ==>
                  r.Err? && r.error.PythonError?
                  && st1.token == Get(o.body.parsed.value.fields, "access_token") && st1.expires == st.expires)
  {
  }

  /** A token stored at `now` with lifetime `secs` counts as expired from
      `secs` − 60 seconds after `now` on, and not before. */
  lemma FreshTokenLifetime(now: int, secs: int, t: int)
    ensures WugClient.Expired(Some(SimpleExpiry(now, secs)), t) <==> t >= now + (secs - 60) * 1000000
  {
  }

  /** `_ensure_authenticated` sends the token request exactly when there is
      no token or it has expired, and otherwise changes nothing. */
  lemma EnsureAuthenticatesIff(cfg: Config, st: State, now: int)
    ensures var (r, st1) := EnsureSpec(cfg, st, now);
            var needed := st.token == JNull || WugClient.Expired(st.expires, now);
            (needed ==> st1.sent == st.sent + [TokenRequest(cfg)])
            && (!needed ==> r.Ok? && st1 == st)
  {
  }

  /** An authentication sends at most one request and never drops one. */
  lemma EnsureSendsAtMostOne(cfg: Config, st: State, now: int)
    ensures var st1 := EnsureSpec(cfg, st, now).1;
            st1.script == st.script && |st.sent| <= |st1.sent| <= |st.sent| + 1 && st1.sent[..|st.sent|] == st.sent
  {
    var st1 := EnsureSpec(cfg, st, now).1;
    if st1.sent != st.sent {
      assert st1.sent == st.sent + [TokenRequest(cfg)];
    }
  }

  /** The retry after a 401 is final: the request is sent once more and a
      second failure is not retried; anything but a 200/201 (another 401
      included) is a failed re-authentication. */
  lemma RetryIsFinal(cfg: Config, st: State, verb: string, url: Url, data: Option<Json>, now: int)
    requires st.token == JNull
    ensures var (r, st1) := RetrySpec(cfg, st, verb, url, data, now);
            var (a, st0) := AuthenticateSpec(cfg, st, now);
            (a.Err? ==> r == Err(a.error) && st1 == st0)
            && (a.Ok? ==> st1.sent == st.sent + [TokenRequest(cfg), Request(verb, url, Bearer(st0.token), Payload(data))]
                          && var o := Answer(st.script, |st.sent| + 1);
                          (o.Response? && o.status != 200 && o.status != 201 ==>
                             r == Err(AuthenticationError("Re-authentication failed: " + IntToString(o.status)))))
  {
  }

  /** `test_connection` makes one `GET /product/version` and reports on it:
      success exactly when that request succeeds, with its answer as
      `version_info`; otherwise "Connection failed: " and the exception's
      text, whatever the exception. The state after is the request's, so at
      most four requests are sent and none is dropped. */
  lemma TestConnectionReport(cfg: Config, st: State, now: int)
    ensures var (report, st1) := TestConnectionSpec(cfg, st, now);
            var (resp, st2) := RequestSpec(cfg, st, "GET", "/product/version", None, now);
            st1 == st2 && report.JObj?
            && (Get(report.fields, "success") == JBool(true) <==> resp.Ok?)
            && (resp.Ok? ==> Get(report.fields, "message") == JStr("Connection successful")
                             && Get(report.fields, "version_info") == resp.value)
            && (resp.Err? ==> Get(report.fields, "success") == JBool(false)
                              && Get(report.fields, "message") == JStr("Connection failed: " + Message(resp.error))
                              && "version_info" !in report.fields)
            && st1.script == st.script && |st.sent| <= |st1.sent| <= |st.sent| + 4 && st1.sent[..|st.sent|] == st.sent
  {
    RequestSendsAtMostFour(cfg, st, "GET", "/product/version", None, now);
  }

  /** A request sends at most four requests: a token request, the request,
      after a 401 one more token request and the retry. */
  lemma RequestSendsAtMostFour(cfg: Config, st: State, verb: string, endpoint: string, data: Option<Json>, now: int)
    ensures var st1 := RequestSpec(cfg, st, verb, endpoint, data, now).1;
            st1.script == st.script && |st.sent| <= |st1.sent| <= |st.sent| + 4 && st1.sent[..|st.sent|] == st.sent
  {
    var url := EndpointUrl(cfg, endpoint);
    var (a, sa) := EnsureSpec(cfg, st, now);
    EnsureSendsAtMostOne(cfg, st, now);
    if a.Ok? {
      var (o, sb) := WugClient.Transmit(sa, Request(verb, url, Bearer(sa.token), Payload(data)));
      assert sb.sent[..|st.sent|] == st.sent by {
        assert sb.sent[..|sa.sent|] == sa.sent;
      }
      if o.Response? && o.status == 401 {
        var sc := sb.(token := JNull);
        var (a2, sd) := EnsureSpec(cfg, sc, now);
        EnsureSendsAtMostOne(cfg, sc, now);
        assert sd.sent[..|st.sent|] == st.sent by {
          assert sd.sent[..|sc.sent|] == sc.sent;
        }
        if a2.Ok? {
          var se := WugClient.Transmit(sd, Request(verb, url, Bearer(sd.token), Payload(data))).1;
          assert se.sent[..|st.sent|] == st.sent by {
            assert se.sent[..|sd.sent|] == sd.sent;
          }
        }
      }
    }
  }

  /** With a valid token: a 200/201 yields its body (or the success wrapper
      for a non-JSON body), any status but 200, 201 and 401 is an API error
      naming the status, and a 401 goes to exactly one retry with the token
      dropped. */
  lemma RequestStatusPolicy(cfg: Config, st: State, verb: string, endpoint: string, data: Option<Json>, now: int)
    requires st.token != JNull && !WugClient.Expired(st.expires, now)
    ensures var (r, st1) := RequestSpec(cfg, st, verb, endpoint, data, now);
            var url := EndpointUrl(cfg, endpoint);
            var o := Answer(st.script, |st.sent|);
            var st2 := st.(sent := st.sent + [Request(verb, url, Bearer(st.token), Payload(data))]);
            (o.Response? && (o.status == 200 || o.status == 201) ==> r == Ok(Success(o.body)) && st1 == st2)
            && (o.Response? && o.status != 200 && o.status != 201 && o.status != 401 ==>
                  r.Err? && r.error.ApiException?
                  && StartsWith(r.error.msg, "API request failed: " + IntToString(o.status)) && st1 == st2)
            && (o.Response? && o.status == 401 ==> (r, st1) == RetrySpec(cfg, st2.(token := JNull), verb, url, data, now))
            && (!o.Response? ==> r == Err(ApiException("Request failed: " + o.detail)))
  {
    var o := Answer(st.script, |st.sent|);
    if o.Response? && o.status != 200 && o.status != 201 && o.status != 401 {
      var head := "API request failed: " + IntToString(o.status);
      assert StartsWith(head + " - " + "", head);
      match FailureDetail(o.body) {
        case None =>
        case Some(d) => assert (head + " - " + d)[..|head|] == head;
      }
    }
  }

  /** The error message of a failed request carries the server's error
      object's `message` when it has one. */
  lemma FailureNamesServerMessage(status: int, text: string, m: map<string, Json>, err: map<string, Json>)
    requires "error" in m && m["error"] == JObj(err) && "message" in err
    ensures FailureText(status, Body(text, Some(JObj(m)))) == "API request failed: " + IntToString(status) + " - " + PyStr(err["message"])
  {
  }

  /** Both envelopes answer `[]` unless the answer is a dictionary with a
      `data` entry, and then the entry's list, `[]` when it lacks the key. */
  lemma EnvelopeShape(resp: Json, key: string)
    ensures !(resp.JObj? && "data" in resp.fields) ==> Envelope(resp, key) == Ok(JList([]))
    ensures resp.JObj? && "data" in resp.fields && resp.fields["data"].JObj? ==>
              Envelope(resp, key) == Ok(if key in resp.fields["data"].fields then resp.fields["data"].fields[key] else JList([]))
    ensures Envelope(resp, key).Err? <==> resp.JObj? && "data" in resp.fields && !resp.fields["data"].JObj?
  {
  }

  /** What the walk over all groups keeps: every entry is a dictionary whose
      `id` has the key recorded for it, the keys are pairwise distinct, and
      each entry is a device of some group with that group's id and name. */
  ghost predicate Consistent(c: Collected) {
    |c.devices| == |c.keys|
    && (forall i :: 0 <= i < |c.devices| ==> KeyOf(c.devices[i]) == Some(c.keys[i]))
    && (forall i :: 0 <= i < |c.devices| ==> "group_id" in c.devices[i].fields && "group_name" in c.devices[i].fields)
    && (forall i, j :: 0 <= i < j < |c.keys| ==> c.keys[i] != c.keys[j])
  }

  lemma AnnotatedKey(d: map<string, Json>, groupId: Json, groupName: Json)
    ensures KeyOf(Annotated(d, groupId, groupName)) == HashKey(Get(d, "id"))
    ensures Annotated(d, groupId, groupName).fields["group_id"] == groupId
    ensures Annotated(d, groupId, groupName).fields["group_name"] == groupName
  {
  }

  /** Taking a group's devices keeps the collection consistent and only
      appends: earlier entries, the devices of earlier groups, stay as
      they were, so the first group a device id appears in is the one it
      is annotated with. */
  lemma {:induction false} TakeDevicesConsistent(c: Collected, ds: seq<map<string, Json>>, k: nat, gid: Json, gname: Json)
    requires Consistent(c)
    ensures var r := TakeDevices(c, ds, k, gid, gname);
            Consistent(r) && |c.devices| <= |r.devices| && r.devices[..|c.devices|] == c.devices
            && r.keys[..|c.keys|] == c.keys
    decreases |ds| - k
  {
    if k < |ds| {
      var id := Get(ds[k], "id");
      if Truthy(id) && HashKey(id).Some? && HashKey(id).value !in c.keys {
        var h := HashKey(id).value;
        var c1 := Collected(c.devices + [Annotated(ds[k], gid, gname)], c.keys + [h]);
        AnnotatedKey(ds[k], gid, gname);
        assert Consistent(c1);
        TakeDevicesConsistent(c1, ds, k + 1, gid, gname);
        var r := TakeDevices(c1, ds, k + 1, gid, gname);
        assert r.devices[..|c.devices|] == c.devices by {
          assert r.devices[..|c.devices|] == r.devices[..|c1.devices|][..|c.devices|];
        }
        assert r.keys[..|c.keys|] == c.keys by {
          assert r.keys[..|c.keys|] == r.keys[..|c1.keys|][..|c.keys|];
        }
      } else if !Truthy(id) || HashKey(id).Some? {
        TakeDevicesConsistent(c, ds, k + 1, gid, gname);
      }
    }
  }

  /** `e` is one of the devices `ds[k..]` with a truthy id, annotated with the group. */
  ghost predicate FromGroup(e: Json, ds: seq<map<string, Json>>, k: nat, gid: Json, gname: Json) {
    exists j :: k <= j < |ds| && Truthy(Get(ds[j], "id")) && e == Annotated(ds[j], gid, gname)
  }

  /** Every entry a group adds is one of its devices with a truthy id,
      annotated with the group's id and name. */
  lemma {:induction false} TakeDevicesOrigin(c: Collected, ds: seq<map<string, Json>>, k: nat, gid: Json, gname: Json)
    ensures var r := TakeDevices(c, ds, k, gid, gname);
            |c.devices| <= |r.devices|
            && forall i :: |c.devices| <= i < |r.devices| ==> FromGroup(r.devices[i], ds, k, gid, gname)
    decreases |ds| - k
  {
    if k < |ds| {
      var id := Get(ds[k], "id");
      var r := TakeDevices(c, ds, k, gid, gname);
      if Truthy(id) && HashKey(id).Some? && HashKey(id).value !in c.keys {
        var c1 := Collected(c.devices + [Annotated(ds[k], gid, gname)], c.keys + [HashKey(id).value]);
        TakeDevicesOrigin(c1, ds, k + 1, gid, gname);
        assert r == TakeDevices(c1, ds, k + 1, gid, gname);
        forall i | |c.devices| <= i < |r.devices| ensures FromGroup(r.devices[i], ds, k, gid, gname) {
          if i == |c.devices| {
            TakeDevicesKeeps(c1, ds, k + 1, gid, gname, i);
            assert r.devices[i] == Annotated(ds[k], gid, gname);
          } else {
            assert FromGroup(r.devices[i], ds, k + 1, gid, gname);
            var j :| k + 1 <= j < |ds| && Truthy(Get(ds[j], "id")) && r.devices[i] == Annotated(ds[j], gid, gname);
          }
        }
      } else if !Truthy(id) || HashKey(id).Some? {
        TakeDevicesOrigin(c, ds, k + 1, gid, gname);
        assert r == TakeDevices(c, ds, k + 1, gid, gname);
        forall i | |c.devices| <= i < |r.devices| ensures FromGroup(r.devices[i], ds, k, gid, gname) {
          assert FromGroup(r.devices[i], ds, k + 1, gid, gname);
          var j :| k + 1 <= j < |ds| && Truthy(Get(ds[j], "id")) && r.devices[i] == Annotated(ds[j], gid, gname);
        }
      }
    }
  }

  /** Entries already collected keep their place. */
  lemma {:induction false} TakeDevicesKeeps(c: Collected, ds: seq<map<string, Json>>, k: nat, gid: Json, gname: Json, i: nat)
    requires i < |c.devices|
    ensures var r := TakeDevices(c, ds, k, gid, gname);
            i < |r.devices| && r.devices[i] == c.devices[i]
    decreases |ds| - k
  {
    if k < |ds| {
      var id := Get(ds[k], "id");
      if Truthy(id) && HashKey(id).Some? && HashKey(id).value !in c.keys {
        var c1 := Collected(c.devices + [Annotated(ds[k], gid, gname)], c.keys + [HashKey(id).value]);
        TakeDevicesKeeps(c1, ds, k + 1, gid, gname, i);
      } else if !Truthy(id) || HashKey(id).Some? {
        TakeDevicesKeeps(c, ds, k + 1, gid, gname, i);
      }
    }
  }

  /** A group whose device ids are all hashable leaves no device behind:
      every device with a truthy id has its key among the collected keys. */
  lemma {:induction false} TakeDevicesComplete(c: Collected, ds: seq<map<string, Json>>, k: nat, gid: Json, gname: Json)
    requires forall j :: k <= j < |ds| && Truthy(Get(ds[j], "id")) ==> HashKey(Get(ds[j], "id")).Some?
    ensures var r := TakeDevices(c, ds, k, gid, gname);
            (forall h :: h in c.keys ==> h in r.keys)
            && forall j :: k <= j < |ds| && Truthy(Get(ds[j], "id")) ==> HashKey(Get(ds[j], "id")).value in r.keys
    decreases |ds| - k
  {
    if k < |ds| {
      var id := Get(ds[k], "id");
      var r := TakeDevices(c, ds, k, gid, gname);
      if Truthy(id) && HashKey(id).value !in c.keys {
        var c1 := Collected(c.devices + [Annotated(ds[k], gid, gname)], c.keys + [HashKey(id).value]);
        TakeDevicesComplete(c1, ds, k + 1, gid, gname);
        assert r == TakeDevices(c1, ds, k + 1, gid, gname);
        assert forall h :: h in c.keys ==> h in c1.keys;
        assert HashKey(id).value in c1.keys;
      } else {
        TakeDevicesComplete(c, ds, k + 1, gid, gname);
        assert r == TakeDevices(c, ds, k + 1, gid, gname);
      }
    }
  }

  /** A group without an id costs no request and adds nothing; a group
      whose fetch fails adds nothing. */
  lemma GroupStepSkips(cfg: Config, st: State, c: Collected, g: map<string, Json>, now: int)
    ensures !Truthy(Get(g, "id")) ==> GroupStep(cfg, st, c, g, now) == (c, st)
    ensures Truthy(Get(g, "id")) && GroupDevicesSpec(cfg, st, Get(g, "id"), now).0.Err? ==>
              GroupStep(cfg, st, c, g, now) == (c, GroupDevicesSpec(cfg, st, Get(g, "id"), now).1)
  {
  }

  lemma {:induction false} GroupsFromConsistent(cfg: Config, st: State, gs: seq<map<string, Json>>, i: nat, c: Collected, now: int)
    requires Consistent(c)
    ensures var r := GroupsFrom(cfg, st, gs, i, c, now).0;
            Consistent(r) && |c.devices| <= |r.devices| && r.devices[..|c.devices|] == c.devices
    decreases |gs| - i
  {
    if i < |gs| {
      var (c1, st1) := GroupStep(cfg, st, c, gs[i], now);
      GroupStepConsistent(cfg, st, c, gs[i], now);
      GroupsFromConsistent(cfg, st1, gs, i + 1, c1, now);
      var r := GroupsFrom(cfg, st1, gs, i + 1, c1, now).0;
      assert r.devices[..|c.devices|] == c.devices by {
        assert r.devices[..|c1.devices|] == c1.devices;
      }
    }
  }

  /** One group keeps the collection consistent and only appends to it. */
  lemma GroupStepConsistent(cfg: Config, st: State, c: Collected, g: map<string, Json>, now: int)
    requires Consistent(c)
    ensures var r := GroupStep(cfg, st, c, g, now).0;
            Consistent(r) && |c.devices| <= |r.devices| && r.devices[..|c.devices|] == c.devices
  {
    var gid := Get(g, "id");
    if Truthy(gid) {
      var (resp, _) := GroupDevicesSpec(cfg, st, gid, now);
      if !(resp.Err? || PyLen(resp.value).None?) {
        TakeDevicesConsistent(c, GetLoop(resp.value).items, 0, gid, GetOr(g, "name", JStr("Unknown")));
      }
    }
  }

  /** `get_all_devices` returns each device id at most once: every entry
      is a dictionary with a truthy, hashable id, annotated with a group,
      and no two entries have ids that a set would take as equal. */
  lemma AllDevicesUnique(cfg: Config, st: State, now: int)
    ensures var r := AllDevicesSpec(cfg, st, now).0;
            r.Ok? ==> r.value.JList?
                      && (forall i :: 0 <= i < |r.value.items| ==>
                            r.value.items[i].JObj? && HashKey(Get(r.value.items[i].fields, "id")).Some?
                            && "group_id" in r.value.items[i].fields && "group_name" in r.value.items[i].fields)
                      && (forall i, j :: 0 <= i < j < |r.value.items| ==>
                            HashKey(Get(r.value.items[i].fields, "id")) != HashKey(Get(r.value.items[j].fields, "id")))
  {
    var (groups, st1) := DeviceGroupsSpec(cfg, st, now);
    if groups.Ok? && PyLen(groups.value).Some? {
      var walk := GetLoop(groups.value);
      GroupsFromConsistent(cfg, st1, walk.items, 0, Collected([], []), now);
    }
  }

  /** `main` exits with 0 exactly when every test passed. */
  lemma {:induction false} ExitZeroIffAllPassed(results: seq<Option<bool>>)
    ensures ExitCode(results) == 0 <==> forall i :: 0 <= i < |results| ==> results[i] == Some(true)
    decreases |results|
  {
    if results != [] {
      var init := results[..|results| - 1];
      ExitZeroIffAllPassed(init);
      if PassedCount(results) == |results| {
        assert PassedCount(init) == |init|;
        forall i | 0 <= i < |results| ensures results[i] == Some(true) {
          if i < |init| {
            assert results[i] == init[i];
          }
        }
      } else {
        assert !(forall i :: 0 <= i < |init| ==> init[i] == Some(true)) || results[|results| - 1] != Some(true);
        if exists i :: 0 <= i < |init| && init[i] != Some(true) {
          var i :| 0 <= i < |init| && init[i] != Some(true);
          assert results[i] == init[i];
        }
      }
    }
  }
}
