/** The authenticated admin API client (`AdminApiClient`): the request
    interceptor that attaches the bearer and CSRF headers, the response
    interceptor with its two single-shot recovery branches (CSRF renewal after
    a 403, token refresh after a 401), the lazy CSRF bootstrap, the routing of
    `/auth/` URLs to a transport at the API root, and the CSRF-then-login
    handshake.

    Every network outcome is a parameter: `replies(k)` is what the k-th
    request put on the admin transport gets back, and a single CSRF answer and
    a single refresh answer serve one logical request, because each recovery
    branch can fire at most once per request. */
module ApiClient {
  import opened Common
  import opened Web

  const ApiHost := "api.vikareta.com"
  const DefaultApiUrl := "https://" + ApiHost + "/api"
  const LoginCsrfUrl := "https://" + ApiHost + "/csrf-token"
  const LoginUrl := DefaultApiUrl + "/auth/login"
  const AuthorizationHeader := "Authorization"
  const CsrfHeader := "X-CSRF-Token"
  const NoCsrfTokenMessage := "Could not extract CSRF token from response"

  /** `process.env.NEXT_PUBLIC_API_URL || 'https://api.vikareta.com/api'`. */
  function ApiBaseUrl(env: string): (r: string)
    ensures r != ""
    ensures env != "" ==> r == env
  {
    Or(env, DefaultApiUrl)
  }

  // ---------------------------------------------------------------------
  // Base URL of the CSRF bootstrap transport

  /** The CSRF transport's base URL as the constructor computes it:
      `API_BASE_URL.replace('/api', '')`, which replaces the FIRST `/api`. */
  function CsrfBaseAsWritten(apiBase: string): string {
    ReplaceFirst(apiBase, "/api", "")
  }

  /** For an `https` URL whose host starts with `api`, the first `/api` is
      the last slash of `//` followed by the host's first three letters, so
      the replace mangles the host and keeps the path. */
  lemma {:induction false} CsrfBaseAsWrittenCutsHost(rest: string)
    ensures CsrfBaseAsWritten("https://" + ("api" + rest) + "/api") == "https:/" + rest + "/api"
  {
    var s := "https://" + ("api" + rest) + "/api";
    var p := "https:/";
    var q := rest + "/api";
    assert s == p + "/api" + q by {
      assert "https://" == p + "/";
      assert "/" + "api" == "/api";
    }
    forall j | 0 <= j < 7 ensures !MatchAt(s, "/api", j) {
      assert s[j + 1] == "https://"[j + 1] != 'a';
      assert s[j..j + 4][1] == s[j + 1];
    }
    IndexOfFirst(s, "/api", 7);
    ReplaceFirstAt(p, "/api", q, "");
  }

  /** With the default API URL the bootstrap transport points at the host
      `https:/.vikareta.com/api`, not at the root the login handshake uses. */
  lemma {:induction false} CsrfBaseAsWrittenBreaksDefault()
    ensures CsrfBaseAsWritten(DefaultApiUrl) == "https:/" + ".vikareta.com" + "/api"
    ensures CsrfBaseAsWritten(DefaultApiUrl) + "/csrf-token" != LoginCsrfUrl
  {
    assert ApiHost == "api" + ".vikareta.com";
    CsrfBaseAsWrittenCutsHost(".vikareta.com");
    assert (CsrfBaseAsWritten(DefaultApiUrl) + "/csrf-token")[7] == '.';
    assert LoginCsrfUrl[7] == '/';
  }

  /** The API root the bootstrap transport is meant to use ("the CSRF
      endpoint is at the root level, not under /api"): a trailing `/api`
      is stripped, anything else is kept. */
  function CsrfBase(apiBase: string): (r: string)
    ensures EndsWith(apiBase, "/api") ==> r + "/api" == apiBase
    ensures !EndsWith(apiBase, "/api") ==> r == apiBase
  {
    if EndsWith(apiBase, "/api") then apiBase[..|apiBase| - 4] else apiBase
  }

  /** With the default API URL the corrected bootstrap URL is exactly the
      one the login handshake hard-codes. */
  lemma {:induction false} CsrfBaseOfDefault()
    ensures CsrfBase(DefaultApiUrl) + "/csrf-token" == LoginCsrfUrl
  {
    var root := "https://" + ApiHost;
    assert DefaultApiUrl == root + "/api";
    assert DefaultApiUrl[|DefaultApiUrl| - 4..] == "/api";
    assert DefaultApiUrl[..|DefaultApiUrl| - 4] == root;
  }

  /** Where `ensureCSRFToken` sends its GET: `/csrf-token` on the CSRF
      transport, whose base the constructor computes as written. */
  function CsrfBootstrapUrl(apiBase: string): (u: string)
    ensures u == CsrfBaseAsWritten(apiBase) + "/csrf-token"
    ensures apiBase == DefaultApiUrl ==> u != LoginCsrfUrl
  {
    CsrfBaseAsWrittenBreaksDefault();
    CsrfBaseAsWritten(apiBase) + "/csrf-token"
  }

  // ---------------------------------------------------------------------
  // Requests and the request interceptor

  /** An axios request config: method, URL, headers and the two retry flags
      the response interceptor sets on it (`_retry`, `_csrfRetry`). */
  datatype Request = Request(httpMethod: string, url: string, headers: map<string, string>, retry: bool, csrfRetry: bool)

  function NewRequest(httpMethod: string, url: string, headers: map<string, string>): Request {
    Request(httpMethod, url, headers, false, false)
  }

  /** `['get', 'head', 'options'].includes(method.toLowerCase())`. */
  predicate IsReadMethod(httpMethod: string) {
    ToLower(httpMethod) in ["get", "head", "options"]
  }

  /** The request interceptor adds the CSRF header only for a method that is
      set and is not a read. */
  predicate CarriesCsrf(httpMethod: string) {
    httpMethod != "" && !IsReadMethod(httpMethod)
  }

  /** Header `h` is one the request interceptor sets for storage `s`. */
  predicate Attaches(s: Storage, httpMethod: string, h: string) {
    || (h == AuthorizationHeader && Has(s, AdminTokenKey))
    || (h == CsrfHeader && CarriesCsrf(httpMethod) && Has(s, CsrfTokenKey))
  }

  /** The request interceptor: a bearer header when an access token is
      stored, the CSRF header on a state-changing request when a CSRF token is
      stored; the other headers, the URL, the method and the flags are kept. */
  function Intercept(s: Storage, req: Request): (r: Request)
    ensures r.httpMethod == req.httpMethod && r.url == req.url
    ensures r.retry == req.retry && r.csrfRetry == req.csrfRetry
    ensures Has(s, AdminTokenKey) ==>
              AuthorizationHeader in r.headers && r.headers[AuthorizationHeader] == "Bearer " + s[AdminTokenKey]
    ensures CarriesCsrf(req.httpMethod) && Has(s, CsrfTokenKey) ==>
              CsrfHeader in r.headers && r.headers[CsrfHeader] == s[CsrfTokenKey]
    ensures forall h :: h in r.headers <==> h in req.headers || Attaches(s, req.httpMethod, h)
    ensures forall h :: h in req.headers && !Attaches(s, req.httpMethod, h) ==> r.headers[h] == req.headers[h]
  {
    var withBearer :=
      if Has(s, AdminTokenKey) then req.headers[AuthorizationHeader := "Bearer " + s[AdminTokenKey]]
      else req.headers;
    var withCsrf :=
      if CarriesCsrf(req.httpMethod) && Has(s, CsrfTokenKey) then withBearer[CsrfHeader := s[CsrfTokenKey]]
      else withBearer;
    req.(headers := withCsrf)
  }

  /** Without an access token and on a read, the interceptor sends the
      request exactly as given. */
  lemma InterceptAddsNothing(s: Storage, req: Request)
    requires !Has(s, AdminTokenKey)
    requires !CarriesCsrf(req.httpMethod) || !Has(s, CsrfTokenKey)
    ensures Intercept(s, req) == req
  {
    var r := Intercept(s, req);
    assert r.headers.Keys == req.headers.Keys;
    assert r.headers == req.headers;
  }

  /** The method test ignores letter case. */
  lemma ReadMethodIgnoresCase(m: string)
    ensures IsReadMethod(m) <==> IsReadMethod(ToLower(m))
  {
    ToLowerIdempotent(m);
  }

  lemma StandardMethods()
    ensures !CarriesCsrf("get") && !CarriesCsrf("GET") && !CarriesCsrf("head") && !CarriesCsrf("options")
    ensures CarriesCsrf("post") && CarriesCsrf("put") && CarriesCsrf("patch") && CarriesCsrf("delete")
    ensures CarriesCsrf("POST") && !CarriesCsrf("")
  {
    assert ToLower("GET") == "get";
    assert ToLower("get") == "get";
    assert ToLower("head") == "head";
    assert ToLower("options") == "options";
    assert ToLower("post") == "post";
    assert ToLower("POST") == "post";
    assert ToLower("put") == "put";
    assert ToLower("patch") == "patch";
    assert ToLower("delete") == "delete";
  }

  // ---------------------------------------------------------------------
  // Network calls other than resource requests

  /** What a GET of the CSRF endpoint produced: an error, or a body whose
      `data.data.csrfToken` and `data.csrfToken` are `nested` and `flat`
      (`""` when absent or empty). */
  datatype CsrfAnswer = FetchFailed(error: JsError) | Fetched(nested: string, flat: string)

  /** What a POST to `/auth/refresh` produced: a failure (network error,
      error status, or a body without `data.data.tokens`), or the tokens
      object, whose `accessToken` may be missing. */
  datatype RefreshAnswer = RefreshFailed | Refreshed(accessToken: Option<string>)

  /** `localStorage.setItem` stores a missing value as the text "undefined". */
  function StoredText(o: Option<string>): string {
    o.GetOr("undefined")
  }

  /** Every request the client puts on the wire. */
  datatype Wire =
    | Api(req: Request)                        // admin transport, base `${API_BASE_URL}/admin`, interceptors on
    | AuthRoot(req: Request)                   // fresh transport at `API_BASE_URL`, no interceptors
    | CsrfBootstrap(url: string)               // GET issued by ensureCSRFToken
    | Refresh(url: string, refreshToken: string) // POST `${API_BASE_URL}/auth/refresh`
    | LoginBootstrap(url: string)              // GET issued by loginWithCSRF
    | Login(url: string, email: string, password: string, csrfToken: string)

  // ---------------------------------------------------------------------
  // CSRF token extraction

  /** ensureCSRFToken's extraction: the nested token first, then the flat
      one; nothing when neither is present or the fetch failed. */
  function LenientToken(a: CsrfAnswer): (r: Option<string>)
    ensures r.Some? <==> a.Fetched? && (a.nested != "" || a.flat != "")
    ensures r.Some? ==> r.value != "" && r.value == (if a.nested != "" then a.nested else a.flat)
  {
    match a
    case FetchFailed(_) => None
    case Fetched(nested, flat) =>
      if nested != "" then Some(nested) else if flat != "" then Some(flat) else None
  }

  /** loginWithCSRF's extraction: the same preference, but a failed fetch is
      rethrown and a body without a token throws. */
  function StrictToken(a: CsrfAnswer): (r: Result<string>)
    ensures r.Ok? <==> LenientToken(a).Some?
    ensures r.Ok? ==> r.value == LenientToken(a).value
    ensures a.FetchFailed? ==> r == Err(a.error)
    ensures a.Fetched? && r.Err? ==> r.error == Thrown(NoCsrfTokenMessage)
  {
    match a
    case FetchFailed(e) => Err(e)
    case Fetched(nested, flat) =>
      if nested != "" then Ok(nested)
      else if flat != "" then Ok(flat)
      else Err(Thrown(NoCsrfTokenMessage))
  }

  datatype Ensured = Ensured(storage: Storage, calls: seq<Wire>)

  /** ensureCSRFToken: no request when a token is stored; otherwise one GET
      of the bootstrap URL, storing the extracted token if there is one.
      It never fails. */
  function EnsureCsrf(apiBase: string, s: Storage, a: CsrfAnswer): (r: Ensured)
    ensures r.calls == [] <==> Has(s, CsrfTokenKey)
    ensures r.calls != [] ==> r.calls == [CsrfBootstrap(CsrfBootstrapUrl(apiBase))]
    ensures Has(s, CsrfTokenKey) ==> r.storage == s
    ensures r.storage - {CsrfTokenKey} == s - {CsrfTokenKey}
    ensures Has(r.storage, CsrfTokenKey) <==> Has(s, CsrfTokenKey) || LenientToken(a).Some?
    ensures !Has(s, CsrfTokenKey) && LenientToken(a).Some? ==> r.storage[CsrfTokenKey] == LenientToken(a).value
    ensures !Has(s, CsrfTokenKey) && LenientToken(a).None? ==> r.storage == s
  {
    if Has(s, CsrfTokenKey) then Ensured(s, [])
    else
      var stored := match LenientToken(a) case Some(t) => s[CsrfTokenKey := t] case None => s;
      Ensured(stored, [CsrfBootstrap(CsrfBootstrapUrl(apiBase))])
  }

  /** Once ensureCSRFToken has stored a token (or one was there), a second
      call makes no request and changes nothing. */
  lemma {:induction false} EnsureCsrfIdempotent(apiBase: string, s: Storage, a: CsrfAnswer, b: CsrfAnswer)
    requires Has(s, CsrfTokenKey) || LenientToken(a).Some?
    ensures var first := EnsureCsrf(apiBase, s, a);
            EnsureCsrf(apiBase, first.storage, b) == Ensured(first.storage, [])
  {
  }

  // ---------------------------------------------------------------------
  // The response interceptor

  /** `errorData?.error?.message || errorData?.message || ''`. */
  function RejectionMessage(e: JsError): string {
    Or(e.responseErrorMessage, e.responseMessage)
  }

  /** `message.includes('CSRF') || message.includes('csrf')`: two literal
      spellings, not a case-insensitive match. */
  predicate MentionsCsrf(message: string) {
    Contains(message, "CSRF") || Contains(message, "csrf")
  }

  /** The CSRF recovery branch fires. */
  predicate IsCsrfRejection(req: Request, e: JsError) {
    e.status == 403 && !req.csrfRetry && MentionsCsrf(RejectionMessage(e))
  }

  /** The 401 branch fires. */
  predicate IsRefreshable(req: Request, e: JsError) {
    e.status == 401 && !req.retry
  }

  lemma MixedCaseCsrfNotRecognised()
    ensures !MentionsCsrf("Invalid Csrf token")
    ensures MentionsCsrf("invalid csrf token") && MentionsCsrf("CSRF token mismatch")
  {
    var s := "Invalid Csrf token";
    // The only `f` is at index 11, after a capital `C`, and there is no `F`.
    forall j | 0 <= j && j + 4 <= |s| ensures !MatchAt(s, "CSRF", j) && !MatchAt(s, "csrf", j) {
      assert s[j..j + 4][3] == s[j + 3];
      assert s[j..j + 4][0] == s[j];
    }
    var t := "invalid csrf token";
    assert MatchAt(t, "csrf", 8);
    ContainsAt(t, "csrf", 8);
    var u := "CSRF token mismatch";
    assert MatchAt(u, "CSRF", 0);
    ContainsAt(u, "CSRF", 0);
  }

  /** The number of request flags still unset: the number of recoveries the
      request can still undergo. */
  function Budget(req: Request): nat {
    (if req.retry then 0 else 1) + (if req.csrfRetry then 0 else 1)
  }

  datatype Next = Resubmit(req: Request) | Reject
  /** The response interceptor's effect: the new storage, what happens to
      the request, whether it redirects to `/login`, and the extra network
      calls it made. */
  datatype Recovery = Recovery(storage: Storage, next: Next, redirect: bool, calls: seq<Wire>)

  function OnError(apiBase: string, s: Storage, req: Request, e: JsError, csrf: CsrfAnswer, refresh: RefreshAnswer): (r: Recovery)
    // the request is resubmitted exactly when a recovery branch succeeded, with one flag more set
    ensures r.next.Resubmit? <==>
              IsCsrfRejection(req, e) || (IsRefreshable(req, e) && Has(s, RefreshTokenKey) && refresh.Refreshed?)
    ensures r.next.Resubmit? ==>
              && Budget(r.next.req) < Budget(req)
              && r.next.req.httpMethod == req.httpMethod && r.next.req.url == req.url
    // CSRF branch: the stored CSRF token is dropped and fetched again, nothing else changes
    ensures IsCsrfRejection(req, e) ==>
              && r.next.req.csrfRetry && r.next.req.retry == req.retry && !r.redirect
              && r.storage - {CsrfTokenKey} == s - {CsrfTokenKey}
              && r.calls == [CsrfBootstrap(CsrfBootstrapUrl(apiBase))]
              && (Has(r.storage, CsrfTokenKey) ==>
                    CsrfHeader in r.next.req.headers && r.next.req.headers[CsrfHeader] == r.storage[CsrfTokenKey])
    // 401 branch: refresh succeeded
    ensures IsRefreshable(req, e) && Has(s, RefreshTokenKey) && refresh.Refreshed? ==>
              var t := StoredText(refresh.accessToken);
              && r.storage == s[AdminTokenKey := t] && !r.redirect && r.next.req.retry
              && AuthorizationHeader in r.next.req.headers && r.next.req.headers[AuthorizationHeader] == "Bearer " + t
              && r.calls == [Refresh(apiBase + "/auth/refresh", s[RefreshTokenKey])]
    // 401 branch: refresh failed
    ensures IsRefreshable(req, e) && Has(s, RefreshTokenKey) && refresh.RefreshFailed? ==>
              && r.storage == s - {AdminTokenKey, RefreshTokenKey} && r.redirect
              && r.calls == [Refresh(apiBase + "/auth/refresh", s[RefreshTokenKey])]
    // 401 branch: no refresh token
    ensures IsRefreshable(req, e) && !Has(s, RefreshTokenKey) ==>
              r.storage == s - {AdminTokenKey} && r.redirect && r.calls == []
    // the 401 branch never touches the CSRF token
    ensures e.status == 401 ==>
              (CsrfTokenKey in r.storage <==> CsrfTokenKey in s) &&
              (CsrfTokenKey in s ==> r.storage[CsrfTokenKey] == s[CsrfTokenKey])
    // anything else is rejected untouched
    ensures !IsCsrfRejection(req, e) && !IsRefreshable(req, e) ==> r == Recovery(s, Reject, false, [])
  {
    if IsCsrfRejection(req, e) then
      var ensured := EnsureCsrf(apiBase, s - {CsrfTokenKey}, csrf);
      var flagged := req.(csrfRetry := true);
      var again :=
        if Has(ensured.storage, CsrfTokenKey) then flagged.(headers := flagged.headers[CsrfHeader := ensured.storage[CsrfTokenKey]])
        else flagged;
      Recovery(ensured.storage, Resubmit(again), false, ensured.calls)
    else if IsRefreshable(req, e) then
      var flagged := req.(retry := true);
      if Has(s, RefreshTokenKey) then
        var call := [Refresh(apiBase + "/auth/refresh", s[RefreshTokenKey])];
        match refresh
        case Refreshed(accessToken) =>
          var t := StoredText(accessToken);
          Recovery(s[AdminTokenKey := t], Resubmit(flagged.(headers := flagged.headers[AuthorizationHeader := "Bearer " + t])), false, call)
        case RefreshFailed =>
          Recovery(s - {AdminTokenKey, RefreshTokenKey}, Reject, true, call)
      else
        Recovery(s - {AdminTokenKey}, Reject, true, [])
    else
      Recovery(s, Reject, false, [])
  }

  // ---------------------------------------------------------------------
  // One logical request through the admin transport

  /** The outcome of one logical request: final storage, every request put
      on the wire in order, whether it redirected to `/login`, and what the
      caller's promise settles to. */
  datatype Run<T> = Run(storage: Storage, wire: seq<Wire>, redirect: bool, result: Result<T>)

  /** One attempt: the request interceptor, the wire, and on an error the
      response interceptor. The promise settles, or the response interceptor
      resubmits `again` after the extra calls it made. */
  datatype Step<T> = Settled(run: Run<T>) | Continue(storage: Storage, calls: seq<Wire>, again: Request)

  function Exchange<T>(apiBase: string, s: Storage, req: Request, k: nat, replies: nat -> Reply<T>,
                       csrf: CsrfAnswer, refresh: RefreshAnswer): (r: Step<T>)
    ensures r.Continue? ==> Budget(r.again) < Budget(req) && r.again.url == req.url
    ensures r.Continue? ==> |r.calls| >= 1 && r.calls[0] == Api(Intercept(s, req))
    ensures r.Settled? ==> |r.run.wire| >= 1 && r.run.wire[0] == Api(Intercept(s, req))
    ensures r.Settled? && r.run.result.Ok? ==> replies(k) == Delivered(r.run.result.value) && r.run.storage == s
    ensures r.Settled? && r.run.result.Err? ==> replies(k) == Failed(r.run.result.error)
    ensures r.Continue? ==> replies(k).Failed?
  {
    var sent := Intercept(s, req);
    match replies(k)
    case Delivered(d) => Settled(Run(s, [Api(sent)], false, Ok(d)))
    case Failed(e) =>
      var rec := OnError(apiBase, s, sent, e, csrf, refresh);
      match rec.next
      case Reject => Settled(Run(rec.storage, [Api(sent)] + rec.calls, rec.redirect, Err(e)))
      case Resubmit(again) => Continue(rec.storage, [Api(sent)] + rec.calls, again)
  }

  /** A request on the admin transport, starting at attempt `k`; a
      resubmission goes through both interceptors again. */
  function Pipeline<T>(apiBase: string, s: Storage, req: Request, k: nat, replies: nat -> Reply<T>,
                       csrf: CsrfAnswer, refresh: RefreshAnswer): (r: Run<T>)
    // the first thing on the wire is the request as the interceptor sends it
    ensures |r.wire| >= 1 && r.wire[0] == Api(Intercept(s, req))
    // a delivered first reply settles at once, with nothing else sent or stored
    ensures replies(k).Delivered? ==> r == Run(s, [Api(Intercept(s, req))], false, Ok(replies(k).data))
    // a request with both retry flags set settles to its first reply
    ensures Budget(req) == 0 ==> r.result == ToResult(replies(k))
    decreases Budget(req)
  {
    match Exchange(apiBase, s, req, k, replies, csrf, refresh)
    case Settled(run) => run
    case Continue(storage, calls, again) =>
      var rest := Pipeline(apiBase, storage, again, k + 1, replies, csrf, refresh);
      Run(rest.storage, calls + rest.wire, rest.redirect, rest.result)
  }

  lemma AppendAssoc(a: seq<Wire>, b: seq<Wire>, c: seq<Wire>)
    ensures a + (b + c) == (a + b) + c
  {
  }

  predicate IsApi(w: Wire) { w.Api? }
  predicate IsCsrfBootstrap(w: Wire) { w.CsrfBootstrap? }
  predicate IsRefresh(w: Wire) { w.Refresh? }

  function Count(ws: seq<Wire>, p: Wire -> bool): nat {
    if ws == [] then 0 else (if p(ws[0]) then 1 else 0) + Count(ws[1..], p)
  }

  lemma {:induction false} CountConcat(a: seq<Wire>, b: seq<Wire>, p: Wire -> bool)
    ensures Count(a + b, p) == Count(a, p) + Count(b, p)
  {
    if a == [] {
      assert a + b == b;
    } else {
      assert (a + b)[1..] == a[1..] + b;
      CountConcat(a[1..], b, p);
    }
  }

  /** The response interceptor makes no request on the admin transport
      itself, and a bootstrap or a refresh call only in its own branch. */
  lemma RecoveryCounts(apiBase: string, s: Storage, req: Request, e: JsError, csrf: CsrfAnswer, refresh: RefreshAnswer)
    ensures var rec := OnError(apiBase, s, req, e, csrf, refresh);
            && Count(rec.calls, IsApi) == 0
            && Count(rec.calls, IsCsrfBootstrap) <= (if IsCsrfRejection(req, e) then 1 else 0)
            && Count(rec.calls, IsRefresh) <= (if IsRefreshable(req, e) then 1 else 0)
  {
    var rec := OnError(apiBase, s, req, e, csrf, refresh);
    if rec.calls != [] {
      assert |rec.calls| == 1 && rec.calls[1..] == [];
    }
  }

  /** What one attempt contributes to the counts: one request on the admin
      transport, and a bootstrap or a refresh call only by setting the
      matching flag. A redirect comes only with a 401 and a signed-out
      storage. */
  lemma ExchangeCounts<T>(apiBase: string, s: Storage, req: Request, k: nat, replies: nat -> Reply<T>,
                          csrf: CsrfAnswer, refresh: RefreshAnswer)
    ensures var r := Exchange(apiBase, s, req, k, replies, csrf, refresh);
            r.Settled? ==>
              && Count(r.run.wire, IsApi) == 1
              && Count(r.run.wire, IsCsrfBootstrap) <= (if req.csrfRetry then 0 else 1)
              && Count(r.run.wire, IsRefresh) <= (if req.retry then 0 else 1)
              && (r.run.redirect ==> AdminTokenKey !in r.run.storage && r.run.result.Err? && r.run.result.error.status == 401)
    ensures var r := Exchange(apiBase, s, req, k, replies, csrf, refresh);
            r.Continue? ==>
              && Count(r.calls, IsApi) == 1
              && Count(r.calls, IsCsrfBootstrap) + (if r.again.csrfRetry then 0 else 1) <= (if req.csrfRetry then 0 else 1)
              && Count(r.calls, IsRefresh) + (if r.again.retry then 0 else 1) <= (if req.retry then 0 else 1)
  {
    var sent := Intercept(s, req);
    if replies(k).Failed? {
      var rec := OnError(apiBase, s, sent, replies(k).error, csrf, refresh);
      RecoveryCounts(apiBase, s, sent, replies(k).error, csrf, refresh);
      CountConcat([Api(sent)], rec.calls, IsApi);
      CountConcat([Api(sent)], rec.calls, IsCsrfBootstrap);
      CountConcat([Api(sent)], rec.calls, IsRefresh);
    }
  }

  /** Retry at most once per failure class: a logical request goes on the
      admin transport at least once and at most once per unset flag more,
      with at most one CSRF bootstrap and at most one refresh call. */
  lemma {:induction false} PipelineBounded<T>(apiBase: string, s: Storage, req: Request, k: nat, replies: nat -> Reply<T>,
                                              csrf: CsrfAnswer, refresh: RefreshAnswer)
    ensures var run := Pipeline(apiBase, s, req, k, replies, csrf, refresh);
            && 1 <= Count(run.wire, IsApi) <= 1 + Budget(req)
            && Count(run.wire, IsCsrfBootstrap) <= (if req.csrfRetry then 0 else 1)
            && Count(run.wire, IsRefresh) <= (if req.retry then 0 else 1)
            && (run.redirect ==> AdminTokenKey !in run.storage && run.result.Err? && run.result.error.status == 401)
    decreases Budget(req)
  {
    ExchangeCounts(apiBase, s, req, k, replies, csrf, refresh);
    match Exchange(apiBase, s, req, k, replies, csrf, refresh)
    case Settled(run) =>
    case Continue(storage, calls, again) =>
      var rest := Pipeline(apiBase, storage, again, k + 1, replies, csrf, refresh);
      PipelineBounded(apiBase, storage, again, k + 1, replies, csrf, refresh);
      CountConcat(calls, rest.wire, IsApi);
      CountConcat(calls, rest.wire, IsCsrfBootstrap);
      CountConcat(calls, rest.wire, IsRefresh);
  }

  /** The caller's promise settles to what the network answered to one of
      the attempts: data delivered, or the error unchanged. */
  lemma {:induction false} PipelineSettlesToReply<T>(apiBase: string, s: Storage, req: Request, k: nat, replies: nat -> Reply<T>,
                                                    csrf: CsrfAnswer, refresh: RefreshAnswer)
    ensures var run := Pipeline(apiBase, s, req, k, replies, csrf, refresh);
            && (run.result.Ok? ==> exists j :: k <= j <= k + Budget(req) && replies(j) == Delivered(run.result.value))
            && (run.result.Err? ==> exists j :: k <= j <= k + Budget(req) && replies(j) == Failed(run.result.error))
    decreases Budget(req)
  {
    match Exchange(apiBase, s, req, k, replies, csrf, refresh)
    case Settled(run) =>
    case Continue(storage, calls, again) =>
      PipelineSettlesToReply(apiBase, storage, again, k + 1, replies, csrf, refresh);
  }

  /** A 401 followed by a successful refresh: the request is resubmitted
      exactly once, with the new bearer, and the caller gets the retry's
      result. */
  lemma RefreshThenRetry<T>(apiBase: string, s: Storage, req: Request, replies: nat -> Reply<T>,
                            csrf: CsrfAnswer, t: string, e: JsError, d: T)
    requires !req.retry && Has(s, RefreshTokenKey) && t != ""
    requires e.status == 401 && replies(0) == Failed(e) && replies(1) == Delivered(d)
    ensures var run := Pipeline(apiBase, s, req, 0, replies, csrf, Refreshed(Some(t)));
            && |run.wire| == 3 && run.wire[0] == Api(Intercept(s, req))
            && run.wire[1] == Refresh(apiBase + "/auth/refresh", s[RefreshTokenKey])
            && run.wire[2].Api? && AuthorizationHeader in run.wire[2].req.headers
            && run.wire[2].req.headers[AuthorizationHeader] == "Bearer " + t
            && run.storage == s[AdminTokenKey := t] && !run.redirect && run.result == Ok(d)
  {
    var sent := Intercept(s, req);
    var rec := OnError(apiBase, s, sent, e, csrf, Refreshed(Some(t)));
    var again := rec.next.req;
    var second := Intercept(rec.storage, again);
    assert Has(rec.storage, AdminTokenKey) && rec.storage[AdminTokenKey] == t;
    assert second.headers[AuthorizationHeader] == "Bearer " + t;
  }

  /** A 401 whose refresh fails: both tokens are cleared, the CSRF token is
      kept, the user is redirected, and nothing is resubmitted. */
  lemma RefreshFailureSignsOut<T>(apiBase: string, s: Storage, req: Request, replies: nat -> Reply<T>,
                                  csrf: CsrfAnswer, e: JsError)
    requires !req.retry && Has(s, RefreshTokenKey)
    requires e.status == 401 && replies(0) == Failed(e)
    ensures var run := Pipeline(apiBase, s, req, 0, replies, csrf, RefreshFailed);
            && run.wire == [Api(Intercept(s, req)), Refresh(apiBase + "/auth/refresh", s[RefreshTokenKey])]
            && run.storage == s - {AdminTokenKey, RefreshTokenKey}
            && run.redirect && run.result == Err(e)
  {
  }

  /** A 403 that mentions CSRF: the stored CSRF token is replaced by a
      freshly fetched one and the request is resubmitted once with it. */
  lemma CsrfRenewedOnce<T>(apiBase: string, s: Storage, req: Request, replies: nat -> Reply<T>,
                           refresh: RefreshAnswer, renewed: string, e: JsError, d: T)
    requires !req.csrfRetry && CarriesCsrf(req.httpMethod) && renewed != ""
    requires e.status == 403 && MentionsCsrf(RejectionMessage(e))
    requires replies(0) == Failed(e) && replies(1) == Delivered(d)
    ensures var run := Pipeline(apiBase, s, req, 0, replies, Fetched(renewed, ""), refresh);
            && |run.wire| == 3 && run.wire[1] == CsrfBootstrap(CsrfBootstrapUrl(apiBase))
            && run.wire[2].Api? && CsrfHeader in run.wire[2].req.headers
            && run.wire[2].req.headers[CsrfHeader] == renewed
            && run.storage == s[CsrfTokenKey := renewed] && run.result == Ok(d)
  {
    var sent := Intercept(s, req);
    var rec := OnError(apiBase, s, sent, e, Fetched(renewed, ""), refresh);
    assert IsCsrfRejection(sent, e);
    assert rec.storage == (s - {CsrfTokenKey})[CsrfTokenKey := renewed];
    assert rec.storage == s[CsrfTokenKey := renewed];
  }

  /** A second CSRF 403 on the retried request is rejected, not retried. */
  lemma SecondCsrfRejectionSurfaces<T>(apiBase: string, s: Storage, req: Request, replies: nat -> Reply<T>,
                                       csrf: CsrfAnswer, refresh: RefreshAnswer, e1: JsError, e2: JsError)
    requires !req.csrfRetry
    requires e1.status == 403 && MentionsCsrf(RejectionMessage(e1)) && replies(0) == Failed(e1)
    requires e2.status == 403 && replies(1) == Failed(e2)
    ensures var run := Pipeline(apiBase, s, req, 0, replies, csrf, refresh);
            && Count(run.wire, IsApi) == 2 && Count(run.wire, IsCsrfBootstrap) == 1
            && run.result == Err(e2) && !run.redirect
  {
    var sent := Intercept(s, req);
    var rec := OnError(apiBase, s, sent, e1, csrf, refresh);
    var again := rec.next.req;
    var second := Intercept(rec.storage, again);
    assert Pipeline(apiBase, rec.storage, again, 1, replies, csrf, refresh) == Run(rec.storage, [Api(second)], false, Err(e2));
    var w := [Api(sent)] + rec.calls + [Api(second)];
    assert w == [Api(sent)] + [CsrfBootstrap(CsrfBootstrapUrl(apiBase))] + [Api(second)];
    CountConcat([Api(sent)] + [CsrfBootstrap(CsrfBootstrapUrl(apiBase))], [Api(second)], IsApi);
    CountConcat([Api(sent)] + [CsrfBootstrap(CsrfBootstrapUrl(apiBase))], [Api(second)], IsCsrfBootstrap);
    CountConcat([Api(sent)], [CsrfBootstrap(CsrfBootstrapUrl(apiBase))], IsApi);
    CountConcat([Api(sent)], [CsrfBootstrap(CsrfBootstrapUrl(apiBase))], IsCsrfBootstrap);
  }

  /** A 403 that does not mention CSRF, or any status other than 401 and
      403, is passed to the caller unchanged, with no retry, no storage
      change and no redirect. */
  lemma ForeignErrorPropagates<T>(apiBase: string, s: Storage, req: Request, replies: nat -> Reply<T>,
                                  csrf: CsrfAnswer, refresh: RefreshAnswer, e: JsError)
    requires replies(0) == Failed(e)
    requires e.status != 401
    requires e.status == 403 ==> !MentionsCsrf(RejectionMessage(e))
    ensures Pipeline(apiBase, s, req, 0, replies, csrf, refresh) == Run(s, [Api(Intercept(s, req))], false, Err(e))
  {
  }

  // ---------------------------------------------------------------------
  // Routing and the auth-root transport

  datatype Verb = GetVerb | PostVerb | PutVerb | PatchVerb | DeleteVerb {
    function Name(): string {
      match this
      case GetVerb => "get"
      case PostVerb => "post"
      case PutVerb => "put"
      case PatchVerb => "patch"
      case DeleteVerb => "delete"
    }
  }

  datatype Transport = AdminTransport | RootTransport

  /** `get` and `post` send a URL starting with `/auth/` to the API root;
      every other call uses the admin transport. */
  function Route(v: Verb, url: string): (t: Transport)
    ensures t == RootTransport <==> (v == GetVerb || v == PostVerb) && StartsWith(url, "/auth/")
  {
    if (v == GetVerb || v == PostVerb) && StartsWith(url, "/auth/") then RootTransport else AdminTransport
  }

  /** The default headers authRequest gives its fresh transport. */
  function AuthHeaders(s: Storage, httpMethod: string): (h: map<string, string>)
    ensures h.Keys <= {AuthorizationHeader, CsrfHeader}
    ensures AuthorizationHeader in h <==> Has(s, AdminTokenKey)
    ensures CsrfHeader in h <==> httpMethod != "get" && Has(s, CsrfTokenKey)
    ensures AuthorizationHeader in h ==> h[AuthorizationHeader] == "Bearer " + s[AdminTokenKey]
    ensures CsrfHeader in h ==> h[CsrfHeader] == s[CsrfTokenKey]
  {
    var bearer: map<string, string> :=
      if Has(s, AdminTokenKey) then map[AuthorizationHeader := "Bearer " + s[AdminTokenKey]] else map[];
    if httpMethod != "get" && Has(s, CsrfTokenKey) then bearer[CsrfHeader := s[CsrfTokenKey]] else bearer
  }

  /** For `get` and `post` the auth-root transport carries exactly the
      headers the request interceptor would have added to a bare request. */
  lemma AuthHeadersMatchInterceptor(s: Storage, v: Verb, url: string)
    requires v == GetVerb || v == PostVerb
    ensures AuthHeaders(s, v.Name()) == Intercept(s, NewRequest(v.Name(), url, map[])).headers
  {
    StandardMethods();
    var a := AuthHeaders(s, v.Name());
    var b := Intercept(s, NewRequest(v.Name(), url, map[])).headers;
    assert a.Keys == b.Keys;
  }

  /** authRequest: ensure a CSRF token first unless it is a `get`, then one
      request on a transport without interceptors; the reply is the result.
      The caller's `config` headers are merged over the transport's
      defaults, so where both name a header the caller's value is sent. */
  function AuthRun<T>(apiBase: string, s: Storage, httpMethod: string, url: string, headers: map<string, string>,
                      reply: Reply<T>, csrf: CsrfAnswer): (run: Run<T>)
    ensures run.result == ToResult(reply) && !run.redirect
    ensures |run.wire| >= 1 && run.wire[|run.wire| - 1].AuthRoot?
    ensures var sent := run.wire[|run.wire| - 1].req;
            && sent.httpMethod == httpMethod && sent.url == url && !sent.retry && !sent.csrfRetry
            && sent.headers.Keys == AuthHeaders(run.storage, httpMethod).Keys + headers.Keys
            && (forall h :: h in headers ==> sent.headers[h] == headers[h])
            && (forall h :: h in sent.headers && h !in headers ==> sent.headers[h] == AuthHeaders(run.storage, httpMethod)[h])
    ensures Count(run.wire, IsApi) == 0 && Count(run.wire, IsRefresh) == 0
    ensures Count(run.wire, IsCsrfBootstrap) == (if httpMethod != "get" && !Has(s, CsrfTokenKey) then 1 else 0)
    ensures run.storage - {CsrfTokenKey} == s - {CsrfTokenKey}
  {
    var ensured := if httpMethod != "get" then EnsureCsrf(apiBase, s, csrf) else Ensured(s, []);
    var sent := Request(httpMethod, url, AuthHeaders(ensured.storage, httpMethod) + headers, false, false);
    CountConcat(ensured.calls, [AuthRoot(sent)], IsApi);
    CountConcat(ensured.calls, [AuthRoot(sent)], IsRefresh);
    CountConcat(ensured.calls, [AuthRoot(sent)], IsCsrfBootstrap);
    Run(ensured.storage, ensured.calls + [AuthRoot(sent)], false, ToResult(reply))
  }

  /** What one call of get/post/put/patch/delete does. */
  function Send<T>(apiBase: string, s: Storage, v: Verb, url: string, headers: map<string, string>,
                   replies: nat -> Reply<T>, csrf: CsrfAnswer, refresh: RefreshAnswer): (r: Run<T>)
    // an auth call bypasses the admin transport and its recovery
    ensures Route(v, url) == RootTransport ==>
              Count(r.wire, IsApi) == 0 && Count(r.wire, IsRefresh) == 0 && !r.redirect && r.result == ToResult(replies(0))
    // and its last request goes to the API root carrying every caller header
    ensures Route(v, url) == RootTransport ==>
              && |r.wire| >= 1 && r.wire[|r.wire| - 1].AuthRoot?
              && r.wire[|r.wire| - 1].req.url == url
              && forall h :: h in headers ==> h in r.wire[|r.wire| - 1].req.headers && r.wire[|r.wire| - 1].req.headers[h] == headers[h]
    // everything else starts on the admin transport, through its interceptor
    ensures Route(v, url) == AdminTransport ==>
              |r.wire| >= 1 && r.wire[0] == Api(Intercept(s, NewRequest(v.Name(), url, headers)))
  {
    match Route(v, url)
    case RootTransport => AuthRun(apiBase, s, v.Name(), url, headers, replies(0), csrf)
    case AdminTransport => Pipeline(apiBase, s, NewRequest(v.Name(), url, headers), 0, replies, csrf, refresh)
  }

  /** put, patch and delete always use the admin transport with its
      interceptors, whatever the URL. */
  lemma WritesUseAdminTransport<T>(apiBase: string, s: Storage, v: Verb, url: string, headers: map<string, string>,
                                   replies: nat -> Reply<T>, csrf: CsrfAnswer, refresh: RefreshAnswer)
    requires v == PutVerb || v == PatchVerb || v == DeleteVerb
    ensures var run := Send(apiBase, s, v, url, headers, replies, csrf, refresh);
            run.wire[0] == Api(Intercept(s, NewRequest(v.Name(), url, headers)))
  {
  }

  /** loginWithCSRF: fetch a token from the hard-coded root URL (failing
      when there is none), post the credentials with it, and store it only
      once the login request succeeded. */
  function LoginHandshake<T>(s: Storage, email: string, password: string, csrf: CsrfAnswer, reply: Reply<T>): (run: Run<T>)
    ensures run.result.Ok? <==> StrictToken(csrf).Ok? && reply.Delivered?
    ensures run.result.Ok? ==> run.result.value == reply.data && run.storage == s[CsrfTokenKey := StrictToken(csrf).value]
    ensures run.result.Err? ==> run.storage == s
    ensures StrictToken(csrf).Err? ==> run.result == Err(StrictToken(csrf).error) && run.wire == [LoginBootstrap(LoginCsrfUrl)]
    ensures StrictToken(csrf).Ok? ==>
              && run.result == ToResult(reply)
              && run.wire == [LoginBootstrap(LoginCsrfUrl), Login(LoginUrl, email, password, StrictToken(csrf).value)]
    ensures !run.redirect
  {
    match StrictToken(csrf)
    case Err(e) => Run(s, [LoginBootstrap(LoginCsrfUrl)], false, Err(e))
    case Ok(token) =>
      var wire := [LoginBootstrap(LoginCsrfUrl), Login(LoginUrl, email, password, token)];
      match reply
      case Failed(e) => Run(s, wire, false, Err(e))
      case Delivered(d) => Run(s[CsrfTokenKey := token], wire, false, Ok(d))
  }

  // ---------------------------------------------------------------------
  // The client object

  class AdminApiClient {
    const browser: Browser
    const apiBase: string
    /** Every request this client has put on the wire. */
    var wire: seq<Wire>

    constructor (browser: Browser, env: string)
      ensures this.browser == browser && apiBase == ApiBaseUrl(env) && wire == []
    {
      this.browser := browser;
      apiBase := ApiBaseUrl(env);
      wire := [];
    }

    method EnsureCsrfToken(answer: CsrfAnswer)
      modifies this`wire, browser`storage
      ensures var r := EnsureCsrf(apiBase, old(browser.storage), answer);
              browser.storage == r.storage && wire == old(wire) + r.calls
    {
      var existing := Get(browser.storage, CsrfTokenKey);
      if existing == "" {
        wire := wire + [CsrfBootstrap(CsrfBootstrapUrl(apiBase))];
        match answer
        case FetchFailed(_) =>
          // the error is swallowed; the request goes on without a token
        case Fetched(nested, flat) =>
          if nested != "" {
            browser.storage := browser.storage[CsrfTokenKey := nested];
          } else if flat != "" {
            browser.storage := browser.storage[CsrfTokenKey := flat];
          }
      }
    }

    /** The response interceptor for one failed attempt `sent`. */
    method Recover(sent: Request, e: JsError, csrf: CsrfAnswer, refresh: RefreshAnswer) returns (next: Next)
      modifies this`wire, browser`storage, browser`location
      ensures var rec := OnError(apiBase, old(browser.storage), sent, e, csrf, refresh);
              && next == rec.next && browser.storage == rec.storage && wire == old(wire) + rec.calls
              && browser.location == (if rec.redirect then "/login" else old(browser.location))
    {
      var again := sent;
      if e.status == 403 && !sent.csrfRetry && MentionsCsrf(RejectionMessage(e)) {
        again := again.(csrfRetry := true);
        browser.storage := browser.storage - {CsrfTokenKey};
        EnsureCsrfToken(csrf);
        var token := Get(browser.storage, CsrfTokenKey);
        if token != "" {
          again := again.(headers := again.headers[CsrfHeader := token]);
        }
        return Resubmit(again);
      }
      if e.status == 401 && !sent.retry {
        again := again.(retry := true);
        var refreshToken := Get(browser.storage, RefreshTokenKey);
        if refreshToken == "" {
          browser.storage := browser.storage - {AdminTokenKey};
          browser.location := "/login";
          return Reject;
        }
        wire := wire + [Refresh(apiBase + "/auth/refresh", refreshToken)];
        match refresh
        case Refreshed(accessToken) =>
          var t := StoredText(accessToken);
          browser.storage := browser.storage[AdminTokenKey := t];
          again := again.(headers := again.headers[AuthorizationHeader := "Bearer " + t]);
          return Resubmit(again);
        case RefreshFailed =>
          browser.storage := browser.storage - {AdminTokenKey, RefreshTokenKey};
          browser.location := "/login";
          return Reject;
      }
      return Reject;
    }

    /** One attempt on the admin transport and the response interceptor's
        reaction to it. */
    method ExchangeOnce<T>(current: Request, k: nat, replies: nat -> Reply<T>, csrf: CsrfAnswer, refresh: RefreshAnswer)
      returns (settled: Option<Result<T>>, again: Request)
      modifies this`wire, browser`storage, browser`location
      ensures var step := Exchange(apiBase, old(browser.storage), current, k, replies, csrf, refresh);
              step.Settled? ==>
                && settled == Some(step.run.result) && browser.storage == step.run.storage && wire == old(wire) + step.run.wire
                && browser.location == (if step.run.redirect then "/login" else old(browser.location))
      ensures var step := Exchange(apiBase, old(browser.storage), current, k, replies, csrf, refresh);
              step.Continue? ==>
                && settled == None && again == step.again && browser.storage == step.storage && wire == old(wire) + step.calls
                && browser.location == old(browser.location)
    {
      var sent := Intercept(browser.storage, current);
      wire := wire + [Api(sent)];
      again := current;
      match replies(k)
      case Delivered(d) =>
        settled := Some(Ok(d));
      case Failed(e) =>
        var next := Recover(sent, e, csrf, refresh);
        match next
        case Reject =>
          settled := Some(Err(e));
        case Resubmit(r) =>
          settled := None;
          again := r;
    }

    /** `this.client(request)`: both interceptors around the admin
        transport, the response interceptor resubmitting at most once per
        failure class. */
    method Dispatch<T>(req: Request, replies: nat -> Reply<T>, csrf: CsrfAnswer, refresh: RefreshAnswer)
      returns (result: Result<T>)
      modifies this`wire, browser`storage, browser`location
      ensures var run := Pipeline(apiBase, old(browser.storage), req, 0, replies, csrf, refresh);
              && browser.storage == run.storage && wire == old(wire) + run.wire && result == run.result
              && browser.location == (if run.redirect then "/login" else old(browser.location))
    {
      ghost var target := Pipeline(apiBase, browser.storage, req, 0, replies, csrf, refresh);
      var current := req;
      var k: nat := 0;
      while true
        invariant var rest := Pipeline(apiBase, browser.storage, current, k, replies, csrf, refresh);
                  && wire + rest.wire == old(wire) + target.wire
                  && rest.storage == target.storage && rest.result == target.result && rest.redirect == target.redirect
        invariant browser.location == old(browser.location)
        decreases Budget(current)
      {
        ghost var w0 := wire;
        ghost var s0 := browser.storage;
        var settled, again := ExchangeOnce(current, k, replies, csrf, refresh);
        if settled.Some? {
          return settled.value;
        }
        ghost var step := Exchange(apiBase, s0, current, k, replies, csrf, refresh);
        ghost var rest := Pipeline(apiBase, browser.storage, again, k + 1, replies, csrf, refresh);
        assert Pipeline(apiBase, s0, current, k, replies, csrf, refresh).wire == step.calls + rest.wire;
        AppendAssoc(w0, step.calls, rest.wire);
        current := again;
        k := k + 1;
      }
    }

    method AuthRequest<T>(httpMethod: string, url: string, config: map<string, string>, reply: Reply<T>, csrf: CsrfAnswer)
      returns (result: Result<T>)
      requires httpMethod == "get" || httpMethod == "post"
      modifies this`wire, browser`storage
      ensures var run := AuthRun(apiBase, old(browser.storage), httpMethod, url, config, reply, csrf);
              browser.storage == run.storage && wire == old(wire) + run.wire && result == run.result
    {
      if httpMethod != "get" {
        EnsureCsrfToken(csrf);
      }
      var headers: map<string, string> := map[];
      var token := Get(browser.storage, AdminTokenKey);
      if token != "" {
        headers := headers[AuthorizationHeader := "Bearer " + token];
      }
      if httpMethod != "get" {
        var csrfToken := Get(browser.storage, CsrfTokenKey);
        if csrfToken != "" {
          headers := headers[CsrfHeader := csrfToken];
        }
      }
      assert headers == AuthHeaders(browser.storage, httpMethod);
      wire := wire + [AuthRoot(Request(httpMethod, url, headers + config, false, false))];
      result := ToResult(reply);
    }

    method Call<T>(v: Verb, url: string, headers: map<string, string>, replies: nat -> Reply<T>,
                   csrf: CsrfAnswer, refresh: RefreshAnswer) returns (result: Result<T>)
      modifies this`wire, browser`storage, browser`location
      ensures var run := Send(apiBase, old(browser.storage), v, url, headers, replies, csrf, refresh);
              && browser.storage == run.storage && wire == old(wire) + run.wire && result == run.result
              && browser.location == (if run.redirect then "/login" else old(browser.location))
    {
      if (v == GetVerb || v == PostVerb) && StartsWith(url, "/auth/") {
        result := AuthRequest(v.Name(), url, headers, replies(0), csrf);
      } else {
        result := Dispatch(NewRequest(v.Name(), url, headers), replies, csrf, refresh);
      }
    }

    /** loginWithCSRF: fetch a token from the hard-coded root URL (throwing
        when there is none), post the credentials with it, and store it only
        after the login request succeeded. */
    method LoginWithCsrf<T>(email: string, password: string, csrf: CsrfAnswer, reply: Reply<T>) returns (result: Result<T>)
      modifies this`wire, browser`storage
      ensures var run := LoginHandshake(old(browser.storage), email, password, csrf, reply);
              browser.storage == run.storage && wire == old(wire) + run.wire && result == run.result
    {
      wire := wire + [LoginBootstrap(LoginCsrfUrl)];
      var token: string;
      match csrf
      case FetchFailed(e) =>
        return Err(e);
      case Fetched(nested, flat) =>
        if nested != "" {
          token := nested;
        } else if flat != "" {
          token := flat;
        } else {
          return Err(Thrown(NoCsrfTokenMessage));
        }
      wire := wire + [Login(LoginUrl, email, password, token)];
      match reply
      case Failed(e) =>
        return Err(e);
      case Delivered(d) =>
        browser.storage := browser.storage[CsrfTokenKey := token];
        return Ok(d);
    }
  }
}
