/** What the WhatsUp Gold client promises, proved about the functions that
    specify its methods: the order in which authentication candidates are
    tried and what is kept from the winner, when a token counts as fresh,
    when a request re-authenticates, that a request is retried at most once,
    that every failure surfaces as a `WUGAPIException`, and where requests
    are sent. */
module WugClientProperties {
  import opened Base
  import opened Text
  import opened Json
  import opened Http
  import opened Urls
  import opened Errors
  import opened WugPayloads
  import opened WugClient

  // ------------------------------------------------------------------ token expiry

  /** A token that lives `secs` seconds is still fresh the moment it is
      stored exactly when it outlives the 60-second margin. */
  lemma FreshTokenValidIff(now: int, secs: int)
    ensures !Expired(Some(ExpiryTime(now, secs)), now) <==> secs > TokenMarginSeconds
  {
    var d := secs - TokenMarginSeconds;
    assert 0 <= now % MicrosPerSecond < MicrosPerSecond;
    if d >= 1 {
      assert d * MicrosPerSecond >= MicrosPerSecond;
    } else {
      assert d * MicrosPerSecond <= 0;
    }
  }

  // ------------------------------------------------------------------ one candidate

  /** Candidate `k` sends its own request and gets the next outcome. */
  lemma ExchangeFacts(cfg: Config, st: State, k: nat)
    requires k < |cfg.candidates|
    ensures var (resp, st1) := Exchange(cfg, st, k);
            resp == Conclude(cfg, CandidateRequest(cfg, k).url, Answer(st.script, |st.sent|))
            && st1.script == st.script
            && st1.sent == st.sent + [CandidateRequest(cfg, k)]
            && st1.expires == st.expires
  {
  }

  /** Only an accepted token touches the expiry; an accepted token is stored
      together with the expiry its response gives. */
  lemma TokenStepFacts(resp: Result<Json, Exc>, st: State, now: int)
    ensures var st1 := TokenStep(resp, st, now);
            st1.script == st.script && st1.sent == st.sent
            && (!Judge(resp, now).Authenticated? ==> st1.expires == st.expires)
            && (Judge(resp, now).Authenticated? ==>
                  resp.Ok? && resp.value.JObj? && Lifetime(resp.value.fields, now).Ok?
                  && Judge(resp, now).token == TokenOf(resp.value.fields)
                  && Judge(resp, now).lifetime == Lifetime(resp.value.fields, now).value
                  && Holds(Judge(resp, now), st1, now))
  {
  }

  /** A token whose expiry falls outside the datetime range is not
      accepted: the `OverflowError` makes the candidate a failure, the token
      stays stored, and the expiry is not touched, so the loop goes on to
      the next candidate. */
  lemma OverflowingLifetimeFails(m: map<string, Json>, st: State, now: int, secs: int)
    requires Truthy(TokenOf(m)) && ExpiresIn(m) == Ok(secs)
    requires ExpiryTime(now, secs) > MaxInstant
    ensures Judge(Ok(JObj(m)), now).Failed? && Judge(Ok(JObj(m)), now).error.PythonError?
    ensures var st1 := TokenStep(Ok(JObj(m)), st, now);
            st1.token == TokenOf(m) && st1.expires == st.expires
  {
    assert WholeSeconds(now) + (secs - TokenMarginSeconds) * MicrosPerSecond > MaxInstant;
  }

  // ------------------------------------------------------------------ a reference for `_authenticate`

  /** What candidate `k` gets back when authentication starts in state
      `st0`: each candidate sends exactly one request, so candidate `k` gets
      the answer to the `k`-th request from there. */
  function CandidateResponse(cfg: Config, st0: State, k: nat): Result<Json, Exc>
    requires k < |cfg.candidates|
  {
    Conclude(cfg, CandidateRequest(cfg, k).url, Answer(st0.script, |st0.sent| + k))
  }

  /** `st` is where the loop stands when it reaches candidate `k` after
      starting in `st0`: the same session, `k` requests later. */
  predicate AtCandidate(st: State, st0: State, k: nat) {
    st.script == st0.script && |st.sent| == |st0.sent| + k
  }

  /** The verdict on every candidate's answer, in the order they are tried. */
  function Verdicts(cfg: Config, st0: State, now: int): (vs: seq<Verdict>)
    ensures |vs| == |cfg.candidates|
  {
    VerdictsUpTo(cfg, st0, now, |cfg.candidates|)
  }

  /** The verdicts on the first `n` candidates. */
  function VerdictsUpTo(cfg: Config, st0: State, now: int, n: nat): (vs: seq<Verdict>)
    requires n <= |cfg.candidates|
    ensures |vs| == n
  {
    if n == 0 then [] else VerdictsUpTo(cfg, st0, now, n - 1) + [Judge(CandidateResponse(cfg, st0, n - 1), now)]
  }

  lemma {:induction false} VerdictAt(cfg: Config, st0: State, now: int, n: nat, j: nat)
    requires j < n <= |cfg.candidates|
    ensures VerdictsUpTo(cfg, st0, now, n)[j] == Judge(CandidateResponse(cfg, st0, j), now)
  {
    var prev := VerdictsUpTo(cfg, st0, now, n - 1);
    var v := Judge(CandidateResponse(cfg, st0, n - 1), now);
    assert VerdictsUpTo(cfg, st0, now, n) == prev + [v];
    if j < n - 1 {
      VerdictAt(cfg, st0, now, n - 1, j);
      assert (prev + [v])[j] == prev[j];
    } else {
      assert (prev + [v])[j] == v;
    }
  }

  /** The first verdict from `k` on that authenticates, or `|vs|` when none does. */
  function FirstWin(vs: seq<Verdict>, k: nat): (n: nat)
    requires k <= |vs|
    ensures k <= n <= |vs|
    ensures forall j :: k <= j < n ==> !vs[j].Authenticated?
    ensures n < |vs| ==> vs[n].Authenticated?
    decreases |vs| - k
  {
    if k == |vs| || vs[k].Authenticated? then k else FirstWin(vs, k + 1)
  }

  /** The exception of the last failure among the first `n` verdicts. */
  function LastFailure(vs: seq<Verdict>, n: nat): (r: Option<Exc>)
    requires n <= |vs|
    ensures r.Some? ==> exists j :: 0 <= j < n && vs[j] == Failed(r.value)
    ensures r.None? ==> forall j :: 0 <= j < n ==> !vs[j].Failed?
  {
    if n == 0 then None
    else match vs[n - 1]
      case Failed(e) => Some(e)
      case _ => LastFailure(vs, n - 1)
  }

  /** How many candidates are tried from `k` on: up to and including the first winner. */
  function Tries(vs: seq<Verdict>, k: nat): (n: nat)
    requires k <= |vs|
    ensures k <= n <= |vs|
    ensures k < |vs| ==> k < n
  {
    var first := FirstWin(vs, k);
    if first < |vs| then first + 1 else |vs|
  }

  /** The requests candidates `k` to `n - 1` send. */
  function CandidateRequests(cfg: Config, k: nat, n: nat): (r: seq<Request>)
    requires k <= n <= |cfg.candidates|
    ensures |r| == n - k
    decreases n - k
  {
    if k == n then [] else [CandidateRequest(cfg, k)] + CandidateRequests(cfg, k + 1, n)
  }

  /** The verdict of the loop from candidate `k` on. */
  function AuthReference(vs: seq<Verdict>, k: nat): Result<(), Exc>
    requires k <= |vs|
  {
    if FirstWin(vs, k) < |vs| then Ok(())
    else Err(AllMethodsFailed(LastFailure(vs, |vs|)))
  }

  /** The loop from candidate `k` on, with `k` requests sent since it started in `st0` and
      the last failure so far recorded, ends as the reference says: it
      succeeds exactly when some candidate from `k` on authenticates, and
      otherwise reports the last failure after trying every candidate. */
  lemma {:induction false} AuthLoopVerdict(cfg: Config, st: State, now: int, k: nat, last: Option<Exc>, st0: State)
    requires k <= |cfg.candidates|
    requires AtCandidate(st, st0, k)
    requires last == LastFailure(Verdicts(cfg, st0, now), k)
    ensures var r := AuthLoop(cfg, st, now, k, last).0;
            r == AuthReference(Verdicts(cfg, st0, now), k)
            && (r.Err? ==> Tries(Verdicts(cfg, st0, now), k) == |cfg.candidates|)
    decreases |cfg.candidates| - k
  {
    var vs := Verdicts(cfg, st0, now);
    if k == |cfg.candidates| {
    } else if vs[k].Authenticated? {
      AuthLoopWin(cfg, st, now, k, last, st0);
    } else {
      AuthLoopNext(cfg, st, now, k, last, st0);
      SkipLoser(vs, k);
      AuthLoopVerdict(cfg, Attempt(cfg, st, now, k).1, now, k + 1, NextLast(vs[k], last), st0);
    }
  }

  /** The loop from candidate `k` on sends one request per candidate it
      tries, in order, and consumes one answer each. */
  lemma {:induction false} AuthLoopSends(cfg: Config, st: State, now: int, k: nat, last: Option<Exc>, st0: State)
    requires k <= |cfg.candidates|
    requires AtCandidate(st, st0, k)
    requires last == LastFailure(Verdicts(cfg, st0, now), k)
    ensures var st1 := AuthLoop(cfg, st, now, k, last).1;
            var n := Tries(Verdicts(cfg, st0, now), k);
            st1.sent == st.sent + CandidateRequests(cfg, k, n)
            && AtCandidate(st1, st0, n)
    decreases |cfg.candidates| - k
  {
    var vs := Verdicts(cfg, st0, now);
    if k == |cfg.candidates| {
      assert CandidateRequests(cfg, k, k) == [];
      assert st.sent + [] == st.sent;
    } else if vs[k].Authenticated? {
      AuthLoopWin(cfg, st, now, k, last, st0);
      assert CandidateRequests(cfg, k, k + 1) == [CandidateRequest(cfg, k)] + [];
    } else {
      var st2 := Attempt(cfg, st, now, k).1;
      AuthLoopNext(cfg, st, now, k, last, st0);
      SkipLoser(vs, k);
      AuthLoopSends(cfg, st2, now, k + 1, NextLast(vs[k], last), st0);
      SentStep(cfg, st.sent, k, Tries(vs, k));
    }
  }

  /** A candidate that does not authenticate hands the loop on to the next. */
  lemma AuthLoopNext(cfg: Config, st: State, now: int, k: nat, last: Option<Exc>, st0: State)
    requires k < |cfg.candidates|
    requires AtCandidate(st, st0, k)
    requires last == LastFailure(Verdicts(cfg, st0, now), k)
    requires !Verdicts(cfg, st0, now)[k].Authenticated?
    ensures var st2 := Attempt(cfg, st, now, k).1;
            var last2 := NextLast(Verdicts(cfg, st0, now)[k], last);
            AuthLoop(cfg, st, now, k, last) == AuthLoop(cfg, st2, now, k + 1, last2)
            && last2 == LastFailure(Verdicts(cfg, st0, now), k + 1)
            && AtCandidate(st2, st0, k + 1)
            && st2.sent == st.sent + [CandidateRequest(cfg, k)]
            && st2.expires == st.expires
  {
    AttemptFacts(cfg, st, now, k, st0);
  }

  /** A candidate that authenticates ends the loop with its token stored. */
  lemma AuthLoopWin(cfg: Config, st: State, now: int, k: nat, last: Option<Exc>, st0: State)
    requires k < |cfg.candidates|
    requires AtCandidate(st, st0, k)
    requires Verdicts(cfg, st0, now)[k].Authenticated?
    ensures var st2 := Attempt(cfg, st, now, k).1;
            AuthLoop(cfg, st, now, k, last) == (Ok(()), st2)
            && FirstWin(Verdicts(cfg, st0, now), k) == k
            && Tries(Verdicts(cfg, st0, now), k) == k + 1
            && Holds(Verdicts(cfg, st0, now)[k], st2, now)
            && AtCandidate(st2, st0, k + 1)
            && st2.sent == st.sent + [CandidateRequest(cfg, k)]
  {
    AttemptFacts(cfg, st, now, k, st0);
  }

  /** Skipping a verdict that does not authenticate changes nothing in the reference. */
  lemma SkipLoser(vs: seq<Verdict>, k: nat)
    requires k < |vs| && !vs[k].Authenticated?
    ensures FirstWin(vs, k) == FirstWin(vs, k + 1)
    ensures Tries(vs, k) == Tries(vs, k + 1)
    ensures AuthReference(vs, k) == AuthReference(vs, k + 1)
  {
  }

  lemma SentStep(cfg: Config, sent: seq<Request>, k: nat, n: nat)
    requires k < n <= |cfg.candidates|
    ensures sent + [CandidateRequest(cfg, k)] + CandidateRequests(cfg, k + 1, n) == sent + CandidateRequests(cfg, k, n)
  {
    assert CandidateRequests(cfg, k, n) == [CandidateRequest(cfg, k)] + CandidateRequests(cfg, k + 1, n);
  }

  /** What the loop from candidate `k` on leaves in the token fields: the
      winner's token and expiry, or an untouched expiry when none wins. */
  lemma {:induction false} AuthLoopKeeps(cfg: Config, st: State, now: int, k: nat, last: Option<Exc>, st0: State)
    requires k <= |cfg.candidates|
    requires AtCandidate(st, st0, k)
    requires last == LastFailure(Verdicts(cfg, st0, now), k)
    ensures var (r, st1) := AuthLoop(cfg, st, now, k, last);
            var n := Tries(Verdicts(cfg, st0, now), k);
            (r.Err? ==> st1.expires == st.expires)
            && (r.Ok? ==> k < n && Holds(Verdicts(cfg, st0, now)[n - 1], st1, now))
    decreases |cfg.candidates| - k
  {
    var vs := Verdicts(cfg, st0, now);
    if k == |cfg.candidates| {
    } else if vs[k].Authenticated? {
      AuthLoopWin(cfg, st, now, k, last, st0);
    } else {
      AuthLoopNext(cfg, st, now, k, last, st0);
      SkipLoser(vs, k);
      AuthLoopKeeps(cfg, Attempt(cfg, st, now, k).1, now, k + 1, NextLast(vs[k], last), st0);
    }
  }

  /** The state holds the accepted token of `v` and the expiry its lifetime gives. */
  predicate Holds(v: Verdict, st: State, now: int) {
    v.Authenticated? && st.token == v.token && st.expires == Some(ExpiryTime(now, v.lifetime))
  }

  /** One pass of the loop, against the reference: candidate `k` sends its
      request, gets the `k`-th outcome of the original script, and stores
      what its verdict says. */
  lemma AttemptFacts(cfg: Config, st: State, now: int, k: nat, st0: State)
    requires k < |cfg.candidates|
    requires AtCandidate(st, st0, k)
    ensures var (v, st2) := Attempt(cfg, st, now, k);
            v == Verdicts(cfg, st0, now)[k]
            && AtCandidate(st2, st0, k + 1)
            && st2.sent == st.sent + [CandidateRequest(cfg, k)]
            && (!v.Authenticated? ==> st2.expires == st.expires)
            && (v.Authenticated? ==> Holds(v, st2, now))
  {
    var (resp, st1) := Exchange(cfg, st, k);
    ExchangeFacts(cfg, st, k);
    assert resp == CandidateResponse(cfg, st0, k);
    VerdictAt(cfg, st0, now, |cfg.candidates|, k);
    TokenStepFacts(resp, st1, now);
  }

  /** `_authenticate` tries the candidates in their fixed order, one request
      each, and stops at the first that yields a token with a usable
      `expires_in`. When none does, all of them were tried and the error
      names the last exception seen (or says that no token came back). */
  lemma AuthenticateTriesInOrder(cfg: Config, st: State, now: int)
    ensures var (r, st1) := AuthenticateSpec(cfg, st, now);
            var vs := Verdicts(cfg, st, now);
            var n := Tries(vs, 0);
            n <= |cfg.candidates| && (cfg.candidates != [] ==> 1 <= n)
            && (r.Ok? <==> FirstWin(vs, 0) < |cfg.candidates|)
            && (forall j :: 0 <= j < n - 1 ==> !vs[j].Authenticated?)
            && st1.sent == st.sent + CandidateRequests(cfg, 0, n)
            && st1.script == st.script
            && (r.Err? ==> n == |cfg.candidates|
                           && r.error == AllMethodsFailed(LastFailure(vs, |cfg.candidates|)))
  {
    AuthLoopVerdict(cfg, st, now, 0, None, st);
    AuthLoopSends(cfg, st, now, 0, None, st);
  }

  /** The token the client keeps after `_authenticate` is the winning
      candidate's, with the expiry its `expires_in` gives; a failed
      authentication leaves the expiry as it was. */
  lemma AuthenticateKeepsWinner(cfg: Config, st: State, now: int)
    ensures var (r, st1) := AuthenticateSpec(cfg, st, now);
            var n := Tries(Verdicts(cfg, st, now), 0);
            (r.Err? ==> st1.expires == st.expires)
            && (r.Ok? ==> 0 < n && Holds(Verdicts(cfg, st, now)[n - 1], st1, now))
  {
    AuthLoopKeeps(cfg, st, now, 0, None, st);
  }

  /** `_ensure_authenticated` sends nothing when a token is held and has not
      expired, and authenticates (sending at least one request when there
      is a candidate) otherwise; its failures are authentication errors
      other than the retry's "Authentication failed". */
  lemma EnsureReauthenticatesIff(cfg: Config, st: State, now: int)
    ensures var (a, st1) := EnsureSpec(cfg, st, now);
            (st.token != JNull && !Expired(st.expires, now) ==> a.Ok? && st1 == st)
            && (cfg.candidates != [] ==> (st1.sent == st.sent <==> st.token != JNull && !Expired(st.expires, now)))
            && (a.Err? ==> a.error.AllMethodsFailed?)
  {
    if st.token == JNull || Expired(st.expires, now) {
      AuthenticateTriesInOrder(cfg, st, now);
    }
  }

  // ------------------------------------------------------------------ retries

  function BearerCount(reqs: seq<Request>): nat {
    if reqs == [] then 0 else (if reqs[0].auth.Bearer? then 1 else 0) + BearerCount(reqs[1..])
  }

  lemma {:induction false} BearerCountAppend(a: seq<Request>, b: seq<Request>)
    ensures BearerCount(a + b) == BearerCount(a) + BearerCount(b)
    decreases |a|
  {
    if a == [] {
      assert a + b == b;
    } else {
      assert (a + b)[0] == a[0];
      assert (a + b)[1..] == a[1..] + b;
      BearerCountAppend(a[1..], b);
    }
  }

  /** Token requests never carry a bearer token. */
  lemma {:induction false} CandidateRequestsNoBearer(cfg: Config, k: nat, n: nat)
    requires k <= n <= |cfg.candidates|
    ensures BearerCount(CandidateRequests(cfg, k, n)) == 0
    decreases n - k
  {
    if k < n {
      CandidateRequestsNoBearer(cfg, k + 1, n);
      CandidateRequestAuth(cfg, k);
      BearerCountAppend([CandidateRequest(cfg, k)], CandidateRequests(cfg, k + 1, n));
    }
  }

  lemma CandidateRequestAuth(cfg: Config, k: nat)
    requires k < |cfg.candidates|
    ensures !CandidateRequest(cfg, k).auth.Bearer?
    ensures BearerCount([CandidateRequest(cfg, k)]) == 0
  {
  }

  /** Authentication extends the request log with token requests only. */
  lemma EnsureSendsNoBearer(cfg: Config, st: State, now: int)
    ensures var st1 := EnsureSpec(cfg, st, now).1;
            st.sent <= st1.sent && BearerCount(st1.sent[|st.sent|..]) == 0
  {
    var st1 := EnsureSpec(cfg, st, now).1;
    if st.token == JNull || Expired(st.expires, now) {
      AuthenticateTriesInOrder(cfg, st, now);
      var n := Tries(Verdicts(cfg, st, now), 0);
      assert st1.sent[|st.sent|..] == CandidateRequests(cfg, 0, n);
      CandidateRequestsNoBearer(cfg, 0, n);
    } else {
      assert st1.sent[|st.sent|..] == [];
    }
  }

  lemma SuffixAppend(a: seq<Request>, b: seq<Request>, c: seq<Request>)
    requires a <= b && b <= c
    ensures c[|a|..] == b[|a|..] + c[|b|..]
  {
  }

  /** An authenticated request sends at most two requests with a bearer
      token: the first try and one retry after a 401. The error
      "Authentication failed" comes only after both were answered 401. */
  lemma AtMostOneRetry(cfg: Config, st: State, verb: string, endpoint: string, data: Option<Json>, now: int)
    ensures var (r, st1) := AuthedRequest(cfg, st, verb, endpoint, data, now);
            st.sent <= st1.sent && BearerCount(st1.sent[|st.sent|..]) <= 2
            && (r == Err(AuthenticationError("Authentication failed")) ==> BearerCount(st1.sent[|st.sent|..]) == 2)
  {
    SendAuthedBearers(cfg, st, verb, RequestUrl(cfg, endpoint), data, now);
  }

  lemma SendAuthedBearers(cfg: Config, st: State, verb: string, url: Url, data: Option<Json>, now: int)
    ensures var (r, st1) := SendAuthed(cfg, st, verb, url, data, now);
            st.sent <= st1.sent && BearerCount(st1.sent[|st.sent|..]) <= 2
            && (r == Err(AuthenticationError("Authentication failed")) ==> BearerCount(st1.sent[|st.sent|..]) == 2)
  {
    var (a, st1) := EnsureSpec(cfg, st, now);
    EnsureSendsNoBearer(cfg, st, now);
    EnsureReauthenticatesIff(cfg, st, now);
    if a.Ok? {
      var req1 := Request(verb, url, Bearer(st1.token), data);
      var (o, st2) := Transmit(st1, req1);
      SentOne(st.sent, st1.sent, req1);
      if Unauthorized(o) {
        RetryBearers(cfg, st2, verb, url, data, now);
        SuffixAppend(st.sent, st2.sent, Retry(cfg, st2, verb, url, data, now).1.sent);
        BearerCountAppend(st2.sent[|st.sent|..], Retry(cfg, st2, verb, url, data, now).1.sent[|st2.sent|..]);
      }
    }
  }

  /** Appending one bearer request to a log that had none since `a`. */
  lemma SentOne(a: seq<Request>, b: seq<Request>, req: Request)
    requires a <= b && BearerCount(b[|a|..]) == 0 && req.auth.Bearer?
    ensures a <= b + [req] && BearerCount((b + [req])[|a|..]) == 1
  {
    assert (b + [req])[|a|..] == b[|a|..] + [req];
    BearerCountAppend(b[|a|..], [req]);
    assert [req][1..] == [];
  }

  lemma RetryBearers(cfg: Config, st: State, verb: string, url: Url, data: Option<Json>, now: int)
    ensures var (r, st1) := Retry(cfg, st, verb, url, data, now);
            st.sent <= st1.sent && BearerCount(st1.sent[|st.sent|..]) <= 1
            && (r == Err(AuthenticationError("Authentication failed")) ==> BearerCount(st1.sent[|st.sent|..]) == 1)
  {
    var stc := st.(token := JNull);
    var (a, st1) := EnsureSpec(cfg, stc, now);
    EnsureSendsNoBearer(cfg, stc, now);
    EnsureReauthenticatesIff(cfg, stc, now);
    if a.Ok? {
      var req := Request(verb, url, Bearer(st1.token), data);
      SentOne(st.sent, st1.sent, req);
    }
  }

  /** Every failure of `_make_request` is a `WUGAPIException`. */
  lemma RequestErrorsAreApiErrors(cfg: Config, st: State, verb: string, endpoint: string, data: Option<Json>,
                                  authenticated: bool, now: int)
    ensures var r := RequestSpec(cfg, st, verb, endpoint, data, authenticated, now).0;
            r.Err? ==> r.error.IsApiError()
  {
    if authenticated {
      var url := RequestUrl(cfg, endpoint);
      var (a, st1) := EnsureSpec(cfg, st, now);
      EnsureReauthenticatesIff(cfg, st, now);
      if a.Ok? {
        var (o, st2) := Transmit(st1, Request(verb, url, Bearer(st1.token), data));
        if Unauthorized(o) {
          EnsureReauthenticatesIff(cfg, st2.(token := JNull), now);
        }
      }
    }
  }

  /** Every failure of `get_devices` is a `WUGAPIException`; a device list
      that is not a list of dictionaries fails with "Failed to get devices: ". */
  lemma GetDevicesErrorsAreApiErrors(cfg: Config, st: State, includeDetails: bool, now: int)
    ensures var r := GetDevicesSpec(cfg, st, includeDetails, now).0;
            r.Err? ==> r.error.IsApiError()
  {
  }

  /** A request without a token clears the stored token exactly when the
      server answers 401, and otherwise leaves it. */
  lemma UnauthorizedClearsToken(cfg: Config, st: State, verb: string, endpoint: string, data: Option<Json>)
    ensures var (r, st1) := UnauthRequest(cfg, st, verb, endpoint, data);
            var o := Answer(st.script, |st.sent|);
            (Unauthorized(o) ==> st1.token == JNull && r.Err?)
            && (!Unauthorized(o) ==> st1.token == st.token)
            && st1.expires == st.expires
  {
  }

  // ------------------------------------------------------------------ details

  /** The detail loop keeps every device, in order, as a dictionary holding
      at least the keys it had. */
  lemma {:induction false} WithDetailsKeepsDevices(cfg: Config, st: State, devices: seq<map<string, Json>>, now: int)
    ensures var out := WithDetails(cfg, st, devices, now).0;
            |out| == |devices|
            && forall i :: 0 <= i < |out| ==> out[i].JObj? && devices[i].Keys <= out[i].fields.Keys
    decreases |devices|
  {
    if devices != [] {
      var (d, st1) := DetailStep(cfg, st, devices[0], now);
      WithDetailsKeepsDevices(cfg, st1, devices[1..], now);
      var out := WithDetails(cfg, st, devices, now).0;
      forall i | 0 <= i < |out|
        ensures out[i].JObj? && devices[i].Keys <= out[i].fields.Keys
      {
        if i > 0 {
          assert out[i] == WithDetails(cfg, st1, devices[1..], now).0[i - 1];
          assert devices[i] == devices[1..][i - 1];
        }
      }
    }
  }

  /** A device without a truthy `id` or `deviceId` is passed through
      untouched and costs no request. */
  lemma DetailStepWithoutId(cfg: Config, st: State, device: map<string, Json>, now: int)
    requires !Truthy(Get(device, "id")) && !Truthy(Get(device, "deviceId"))
    ensures DetailStep(cfg, st, device, now) == (JObj(device), st)
  {
  }

  // ------------------------------------------------------------------ where requests go

  lemma {:induction false} SplitAt(a: string, b: string, c: char)
    requires c !in a
    ensures Split(a + [c] + b, c) == [a] + Split(b, c)
    decreases |a|
  {
    if a == [] {
      assert ([c] + b)[1..] == b;
    } else {
      assert (a + [c] + b)[1..] == a[1..] + [c] + b;
      SplitAt(a[1..], b, c);
      assert [a[0]] + a[1..] == a;
    }
  }

  lemma PlainTwo(a: string, b: string)
    requires Plain(a) && Plain(b)
    requires '/' !in a && '/' !in b
    ensures PlainRef(a + "/" + b)
  {
    SplitNoSeparator(b, '/');
    SplitAt(a, b, '/');
    assert a + "/" + b == a + ['/'] + b;
  }

  lemma PlainOne(a: string)
    requires Plain(a) && '/' !in a
    ensures PlainRef(a)
  {
    SplitNoSeparator(a, '/');
  }

  /** With a clean host, the URL of `"/" + ref` for a plain `ref` is the
      origin followed by `"/" + ref`, which is not the base URL followed by
      `"/" + ref`: the `/api` of the base is replaced, not extended. */
  lemma PlainUrl(cfg: Config, ref: string)
    requires CleanHost(cfg.address.host)
    requires ref != "" && ref[0] != '/' && PlainRef(ref)
    ensures UrlText(RequestUrl(cfg, "/" + ref)) == Origin(cfg) + "/" + ref
    ensures UrlText(RequestUrl(cfg, "/" + ref)) != BaseUrl(cfg) + "/" + ref
  {
    assert ("/" + ref)[1..] == ref;
    assert LStrip("/" + ref, '/') == ref;
    EndpointUrlPlain(cfg.scheme, cfg.address.host, cfg.address.port, "/" + ref);
    assert |BaseUrl(cfg) + "/" + ref| == |Origin(cfg) + "/" + ref| + 4;
  }

  /** A one-segment endpoint such as `/devices` or `/groups` is fetched
      from the origin, not from under `/api`. */
  lemma OneSegmentUrl(cfg: Config, name: string)
    requires CleanHost(cfg.address.host)
    requires Plain(name) && '/' !in name
    ensures UrlText(RequestUrl(cfg, "/" + name)) == Origin(cfg) + "/" + name
    ensures UrlText(RequestUrl(cfg, "/" + name)) != BaseUrl(cfg) + "/" + name
  {
    PlainOne(name);
    PlainUrl(cfg, name);
  }

  /** Decimal digits hold neither a `/` nor a dot segment. */
  lemma DigitsPlain(d: string)
    requires AllDigits(d) && d != ""
    ensures Plain(d) && '/' !in d
  {
    assert IsDigit(d[0]);
    forall i | 0 <= i < |d|
      ensures d[i] != '/'
    {
      assert IsDigit(d[i]);
    }
  }

  /** The details of a device with a numeric id live at `/devices/<id>` under the origin. */
  lemma DeviceDetailsUrl(cfg: Config, id: nat)
    requires CleanHost(cfg.address.host)
    ensures UrlText(RequestUrl(cfg, "/devices/" + PyStr(JInt(id)))) == Origin(cfg) + "/devices/" + IntToString(id)
  {
    var digits := NatToString(id);
    assert PyStr(JInt(id)) == digits;
    DigitsPlain(digits);
    DetailsRef(digits);
    PlainUrl(cfg, "devices/" + digits);
  }

  /** `devices/<digits>` is a plain reference. */
  lemma DetailsRef(digits: string)
    requires Plain(digits) && '/' !in digits
    ensures "/devices/" + digits == "/" + ("devices/" + digits)
    ensures PlainRef("devices/" + digits)
  {
    PlainTwo("devices", digits);
    assert "devices" + "/" + digits == "devices/" + digits;
  }

  // ------------------------------------------------------------------ the connectivity probe

  lemma BeforeTextCons(s: string, sep: string)
    requires sep != [] && |sep| <= |s| && !StartsWith(s, sep)
    ensures BeforeText(s, sep) == [s[0]] + BeforeText(s[1..], sep)
  {
  }

  /** The probe's URL as written, for a host that begins with `api` (such as
      `api.example.com`): the split stops inside `//api`, leaving the URL
      with no host at all — `http:/` for the `http` scheme. */
  lemma ProbeUrlApiHost(cfg: Config)
    requires cfg.scheme == "http" || cfg.scheme == "https"
    requires StartsWith(cfg.address.host, "api")
    ensures ProbeUrl(cfg) == cfg.scheme + ":/"
  {
    var p := cfg.scheme + ":/";
    var rest := cfg.address.host[3..] + ":" + IntToString(cfg.address.port) + "/api";
    ApiHostBase(cfg);
    SchemeHasNoApi(cfg.scheme, "/api" + rest);
    var q := "/api" + rest;
    var s := p + q;
    assert s[..|p|] == p && s[|p|..] == q && q[..4] == "/api";
    BeforeTextAt(s, "/api", |p|);
  }

  lemma ApiHostBase(cfg: Config)
    requires StartsWith(cfg.address.host, "api")
    ensures BaseUrl(cfg) == (cfg.scheme + ":/")
                            + ("/api" + (cfg.address.host[3..] + ":" + IntToString(cfg.address.port) + "/api"))
  {
    assert cfg.address.host == "api" + cfg.address.host[3..];
  }

  /** No `/api` starts inside `http:/` or `https:/` when what follows begins with `/`. */
  lemma SchemeHasNoApi(scheme: string, q: string)
    requires scheme == "http" || scheme == "https"
    requires q != [] && q[0] == '/'
    ensures forall j :: 0 <= j < |scheme + ":/"| ==> !StartsWith((scheme + ":/" + q)[j..], "/api")
  {
    var p := scheme + ":/";
    forall j | 0 <= j < |p|
      ensures !StartsWith((p + q)[j..], "/api")
    {
      if j == |p| - 1 {
        assert (p + q)[j + 1] == '/';
        assert (p + q)[j..][1] == '/';
      } else {
        assert (p + q)[j] != '/';
        assert (p + q)[j..][0] != '/';
      }
    }
  }

  /** For every other clean host the written probe does reach the origin,
      which is where the model sends it. */
  lemma ProbeUrlIsRoot(cfg: Config)
    requires cfg.scheme == "http" || cfg.scheme == "https"
    requires CleanHost(cfg.address.host)
    requires !StartsWith(cfg.address.host, "api")
    ensures ProbeUrl(cfg) == RootUrl(cfg)
  {
    var port := IntToString(cfg.address.port);
    IntTextClean(cfg.address.port);
    OriginNoApi(cfg.scheme, cfg.address.host, port);
    var o := Origin(cfg);
    var s := o + "/api";
    assert s[..|o|] == o && s[|o|..] == "/api";
    BeforeTextAt(s, "/api", |o|);
  }

  /** `split(sep)[0]` of a text whose first `sep` starts at `k`. */
  lemma {:induction false} BeforeTextAt(s: string, sep: string, k: nat)
    requires sep != [] && k <= |s| && StartsWith(s[k..], sep)
    requires forall j :: 0 <= j < k ==> !StartsWith(s[j..], sep)
    ensures BeforeText(s, sep) == s[..k]
    decreases k
  {
    if k == 0 {
      assert s[0..] == s;
    } else {
      assert s[0..] == s;
      BeforeTextCons(s, sep);
      var t := s[1..];
      forall j | 0 <= j < k - 1
        ensures !StartsWith(t[j..], sep)
      {
        assert t[j..] == s[j + 1..];
      }
      assert t[k - 1..] == s[k..];
      BeforeTextAt(t, sep, k - 1);
      assert [s[0]] + t[..k - 1] == s[..k];
    }
  }

  /** A text starting with `/api` has those four characters in front. */
  lemma SlashApiChars(t: string)
    ensures StartsWith(t, "/api") ==> t[0] == '/' && t[1] == 'a' && t[2] == 'p' && t[3] == 'i'
  {
    if StartsWith(t, "/api") {
      assert t[..4] == "/api";
      assert t[0] == t[..4][0] && t[1] == t[..4][1] && t[2] == t[..4][2] && t[3] == t[..4][3];
    }
  }

  /** A text whose first three characters spell `api` starts with `api`. */
  lemma ApiChars(h: string)
    ensures 3 <= |h| && h[0] == 'a' && h[1] == 'p' && h[2] == 'i' ==> StartsWith(h, "api")
  {
    if 3 <= |h| && h[0] == 'a' && h[1] == 'p' && h[2] == 'i' {
      assert h[..3] == [h[0], h[1], h[2]];
    }
  }

  /** Neither scheme the client accepts holds a `/`. */
  lemma SchemeNoSlash(scheme: string)
    requires scheme == "http" || scheme == "https"
    ensures forall i :: 0 <= i < |scheme| ==> scheme[i] != '/'
  {
    assert forall i :: 0 <= i < |scheme| ==> scheme[i] in {'h', 't', 'p', 's'};
  }

  /** The origin of a clean host that does not begin with `api` holds no
      `/api`, not even across its end. */
  lemma OriginNoApi(scheme: string, host: string, port: string)
    requires scheme == "http" || scheme == "https"
    requires CleanHost(host) && CleanHost(port) && !StartsWith(host, "api")
    ensures var o := scheme + "://" + host + ":" + port;
            forall j :: 0 <= j < |o| ==> !StartsWith((o + "/api")[j..], "/api")
  {
    var o := scheme + "://" + host + ":" + port;
    var s := o + "/api";
    var off := |scheme| + 3;
    SchemeNoSlash(scheme);
    ApiChars(host);
    forall j | 0 <= j < |o|
      ensures !StartsWith(s[j..], "/api")
    {
      SlashApiChars(s[j..]);
      assert s[j..][0] == s[j] && s[j..][1] == s[j + 1];
      if j < |scheme| {
        assert s[j] == scheme[j];
      } else if j == |scheme| {
        assert s[j] == ':';
      } else if j == off - 2 {
        assert s[j + 1] == '/';
      } else if j == off - 1 {
        assert s[j..][2] == s[off + 1] && s[j..][3] == s[off + 2];
        if |host| >= 3 {
          assert s[off] == host[0] && s[off + 1] == host[1] && s[off + 2] == host[2];
        } else {
          assert s[off + |host|] == ':';
        }
      } else if j < off + |host| {
        assert s[j] == host[j - off];
      } else if j == off + |host| {
        assert s[j] == ':';
      } else {
        assert s[j] == port[j - off - |host| - 1];
      }
    }
  }

  /** What `test_connection` reports, with the probe it is meant to send:
      the root URL always has a host, and the report is a success exactly
      when both probes got an answer and `GET /system/info` succeeded. */
  lemma TestConnectionSucceedsIff(cfg: Config, st: State, now: int)
    ensures !NoHost(cfg, RootUrl(cfg))
    ensures var (report, _) := TestConnectionSpec(cfg, st, now);
            var (o1, st1) := Transmit(st, Request("GET", Absolute(RootUrl(cfg)), NoAuth, None));
            var (o2, st2) := Transmit(st1, Request("GET", Absolute(BaseUrl(cfg)), NoAuth, None));
            report.JObj?
            && (Get(report.fields, "success") == JBool(true) <==>
                  o1.Response? && o2.Response? && RequestSpec(cfg, st2, "GET", "/system/info", None, true, now).0.Ok?)
  {
  }

  /** `test_connection` as written, for a host beginning with `api`: the
      probe URL `http:/` is refused before anything is sent, so the test
      never succeeds and reports an unexpected error, whatever the server
      would have answered. */
  lemma TestConnectionApiHostFails(cfg: Config, st: State, now: int)
    requires cfg.scheme == "http" || cfg.scheme == "https"
    requires StartsWith(cfg.address.host, "api")
    ensures var (report, st1) := TestConnectionWritten(cfg, st, now);
            st1 == st
            && Get(report.fields, "success") == JBool(false)
            && Get(report.fields, "message") == JStr("Unexpected error: " + NoHostText(cfg.scheme + ":/"))
  {
    ProbeUrlApiHost(cfg);
    var e := PythonError(NoHostText(cfg.scheme + ":/"));
    assert NoHost(cfg, ProbeUrl(cfg));
    assert TestConnectionWritten(cfg, st, now) == (ConnectionReport(Err(e)), st);
    assert !e.IsApiError() && Message(e) == NoHostText(cfg.scheme + ":/");
  }

  /** For every other clean host the written test is the intended one. */
  lemma TestConnectionWrittenAgrees(cfg: Config, st: State, now: int)
    requires cfg.scheme == "http" || cfg.scheme == "https"
    requires CleanHost(cfg.address.host)
    requires !StartsWith(cfg.address.host, "api")
    ensures TestConnectionWritten(cfg, st, now) == TestConnectionSpec(cfg, st, now)
  {
    ProbeUrlIsRoot(cfg);
  }
}
