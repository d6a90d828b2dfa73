/** The two interceptors registered on the shared HTTP client: the outbound
    one adds the bearer token, the inbound one forces a logout on an
    authentication failure and always hands the outcome back unchanged. */
module Interceptors {
  import opened WebStorage
  import opened TokenLookup
  import opened Session
  import opened Endpoints

  const AuthorizationHeader := "Authorization"

  /** The headers the shared client puts on every request. */
  const DefaultHeaders: map<string, string> := map["Content-Type" := "application/json"]

  /** The request configuration the outbound interceptor receives. */
  datatype RequestConfig = RequestConfig(request: Request, headers: map<string, string>)

  /** A request as the shared client first configures it: the JSON content
      type and, before the outbound interceptor runs, no `Authorization`. */
  function Configure(request: Request): (r: RequestConfig)
    ensures r.request == request
    ensures "Content-Type" in r.headers && r.headers["Content-Type"] == "application/json"
    ensures AuthorizationHeader !in r.headers
  {
    RequestConfig(request, DefaultHeaders)
  }

  /** The `Authorization` header value for a token. */
  function BearerHeader(token: string): string {
    "Bearer " + token
  }

  /** The token a bearer header carries, if it is one. */
  function BearerToken(header: string): (t: Option<string>)
    ensures t.Some? ==> BearerHeader(t.value) == header
  {
    if |header| >= 7 && header[..7] == "Bearer " then
      assert header == header[..7] + header[7..];
      Some(header[7..])
    else None
  }

  /** A server reading the header gets back exactly the token that was sent. */
  lemma BearerRoundTrip(token: string)
    ensures BearerToken(BearerHeader(token)) == Some(token)
  {
    assert BearerHeader(token)[..7] == "Bearer ";
    assert BearerHeader(token)[7..] == token;
  }

  /** The outbound interceptor's effect on a configuration, given the token
      `getAdminToken` returned: with a token, `Authorization` is set to its
      bearer form; without one, the configuration is left as it was. Every
      other header and the request itself are untouched. */
  function AttachToken(config: RequestConfig, token: string): (r: RequestConfig)
    ensures r.request == config.request
    ensures token == "" ==> r == config
    ensures token != "" ==> AuthorizationHeader in r.headers &&
                            BearerToken(r.headers[AuthorizationHeader]) == Some(token)
    ensures forall h :: h != AuthorizationHeader ==>
              (h in r.headers <==> h in config.headers) &&
              (h in r.headers ==> r.headers[h] == config.headers[h])
  {
    if token != "" then
      BearerRoundTrip(token);
      config.(headers := config.headers[AuthorizationHeader := BearerHeader(token)])
    else config
  }

  /** The outbound interceptor: reads the token from the browser's storage
      and never rejects the request. */
  method InterceptRequest(browser: Browser, config: RequestConfig) returns (r: RequestConfig)
    ensures r == AttachToken(config, AdminToken(browser.local, browser.session))
  {
    r := AttachToken(config, AdminToken(browser.local, browser.session));
  }

  /** Every request carries `Authorization: Bearer <token>` exactly when the
      session is authenticated, and always keeps the JSON content type. */
  lemma AuthorizationIffAuthenticated(st: BrowserState, request: Request)
    ensures var r := AttachToken(Configure(request), AdminToken(st.local, st.session));
            && (AuthorizationHeader in r.headers <==> Authenticated(st))
            && (Authenticated(st) ==> r.headers[AuthorizationHeader] == BearerHeader(AdminToken(st.local, st.session)))
            && r.headers["Content-Type"] == "application/json"
  {
    assert AuthorizationHeader !in DefaultHeaders;
  }

  /** The part of a response the interceptors look at. */
  datatype HttpResponse = HttpResponse(status: int, data: string)

  /** A failed request; `status` is None when there is no response at all
      (a network failure), so `error?.response?.status` is `undefined`. */
  datatype HttpError = HttpError(status: Option<int>, message: string)

  /** How a request settled: the value the caller's promise resolves or rejects with. */
  datatype Outcome = Fulfilled(response: HttpResponse) | Rejected(error: HttpError)

  /** Status 401 or 403. */
  predicate IsAuthFailure(status: Option<int>) {
    status == Some(401) || status == Some(403)
  }

  /** The inbound interceptor's guard: a rejected outcome with an
      authentication failure, while the browser is not on the login route. */
  predicate ForcesLogout(outcome: Outcome, location: string) {
    outcome.Rejected? && IsAuthFailure(outcome.error.status) && location != LoginPath
  }

  /** The browser state after the inbound interceptor has run. */
  function AfterResponse(st: BrowserState, outcome: Outcome): (r: BrowserState)
    ensures ForcesLogout(outcome, st.location) ==> r == AfterLogout(st)
    ensures ForcesLogout(outcome, st.location) ==> !Authenticated(r) && r.location == LoginPath
    ensures !ForcesLogout(outcome, st.location) ==> r == st
  {
    if ForcesLogout(outcome, st.location) then
      LogoutSignsOut(st);
      AfterLogout(st)
    else st
  }

  /** The inbound interceptor: a success passes through, a failure is handed
      back to the caller after the forced logout, if any. */
  method InterceptResponse(browser: Browser, outcome: Outcome) returns (r: Outcome)
    modifies browser
    ensures r == outcome
    ensures browser.State() == AfterResponse(old(browser.State()), outcome)
  {
    if outcome.Rejected? {
      var status := outcome.error.status;
      if (status == Some(401) || status == Some(403)) && browser.location != LoginPath {
        browser.Logout();
      }
    }
    r := outcome;
  }

  /** Already on the login route, no response changes anything: a failed
      login cannot start a redirect loop. */
  lemma NoRedirectLoop(st: BrowserState, outcome: Outcome)
    requires st.location == LoginPath
    ensures AfterResponse(st, outcome) == st
  {
  }

  /** The state after several responses settle one after another. */
  function AfterResponses(st: BrowserState, outcomes: seq<Outcome>): BrowserState
    decreases |outcomes|
  {
    if outcomes == [] then st else AfterResponses(AfterResponse(st, outcomes[0]), outcomes[1..])
  }

  /** How many forced logouts those responses cause. */
  function ForcedLogouts(st: BrowserState, outcomes: seq<Outcome>): nat
    decreases |outcomes|
  {
    if outcomes == [] then 0
    else (if ForcesLogout(outcomes[0], st.location) then 1 else 0)
         + ForcedLogouts(AfterResponse(st, outcomes[0]), outcomes[1..])
  }

  predicate AnyAuthFailure(outcomes: seq<Outcome>) {
    exists i :: 0 <= i < |outcomes| && outcomes[i].Rejected? && IsAuthFailure(outcomes[i].error.status)
  }

  /** With navigation taking effect at once, as in this model, however many
      requests fail with 401 or 403 at most one logout and redirect happens,
      and one happens exactly when the browser was away from the login route
      and some response was such a failure. */
  lemma {:induction false} AtMostOneForcedLogout(st: BrowserState, outcomes: seq<Outcome>)
    ensures ForcedLogouts(st, outcomes) <= 1
    ensures ForcedLogouts(st, outcomes) == 1 <==> st.location != LoginPath && AnyAuthFailure(outcomes)
    decreases |outcomes|
  {
    if outcomes != [] {
      var next := AfterResponse(st, outcomes[0]);
      var rest := outcomes[1..];
      AtMostOneForcedLogout(next, rest);
      if ForcesLogout(outcomes[0], st.location) {
        assert next.location == LoginPath;
        assert outcomes[0].Rejected? && IsAuthFailure(outcomes[0].error.status);
      } else {
        assert next == st;
        if st.location != LoginPath && AnyAuthFailure(outcomes) {
          var i :| 0 <= i < |outcomes| && outcomes[i].Rejected? && IsAuthFailure(outcomes[i].error.status);
          assert i != 0;
          assert rest[i - 1] == outcomes[i];
        }
        if AnyAuthFailure(rest) {
          var i :| 0 <= i < |rest| && rest[i].Rejected? && IsAuthFailure(rest[i].error.status);
          assert outcomes[i + 1] == rest[i];
        }
      }
    }
  }
}
