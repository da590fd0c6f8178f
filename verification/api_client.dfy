/** The HTTP client (lib/api.ts): the headers a request carries, how a fetch
    outcome is turned into an `ApiResponse`, and the one-key token store kept in
    the browser store. The fetch itself is an input: either the error it threw
    or the response it produced. */
module ApiClient {
  import opened Common
  import opened Json
  import opened BrowserStorage
  import AuthContext

  type Headers = map<string, string>

  const ContentTypeHeader := "Content-Type"
  const AuthorizationHeader := "Authorization"
  const JsonMediaType := "application/json"
  const NetworkErrorText := "Network error - please check your connection"

  // ---------------------------------------------------------------------------
  // Token store. `hasWindow` is `typeof window !== 'undefined'`.

  /** `getToken()`. */
  function GetToken(hasWindow: bool, st: Store): (t: Option<string>)
    ensures !hasWindow ==> t.None?
    ensures hasWindow ==> t == StoredText(st, AuthTokenKey)
  {
    if hasWindow then StoredText(st, AuthTokenKey) else None
  }

  /** `setToken(token)`: afterwards `getToken()` returns the token (in a
      browser); no other key changes, and without a window nothing does. */
  function SetToken(hasWindow: bool, st: Store, token: string): (st': Store)
    ensures hasWindow ==> GetToken(hasWindow, st') == Some(token)
    ensures !hasWindow ==> st' == st
    ensures SameExcept(st, st', {AuthTokenKey})
  {
    if hasWindow then st[AuthTokenKey := TextItem(token)] else st
  }

  /** `removeToken()`: afterwards `getToken()` returns null; no other key
      changes, and without a window nothing does. */
  function RemoveToken(hasWindow: bool, st: Store): (st': Store)
    ensures GetToken(hasWindow, st').None?
    ensures AuthTokenKey !in st' || !hasWindow
    ensures !hasWindow ==> st' == st
    ensures SameExcept(st, st', {AuthTokenKey})
  {
    if hasWindow then st - {AuthTokenKey} else st
  }

  /** `isAuthenticated()`: `!!getToken()`. */
  predicate IsAuthenticated(hasWindow: bool, st: Store) {
    var t := GetToken(hasWindow, st);
    t.Some? && t.value != ""
  }

  /** The token lifecycle seen through `isAuthenticated`. */
  lemma TokenLifecycle(hasWindow: bool, st: Store, token: string)
    ensures IsAuthenticated(hasWindow, SetToken(hasWindow, st, token)) <==> hasWindow && token != ""
    ensures !IsAuthenticated(hasWindow, RemoveToken(hasWindow, st))
    ensures !hasWindow ==> !IsAuthenticated(hasWindow, st)
  {
  }

  /** The token store writes plain text under its own key only, so it keeps
      the browser store well formed for the session context's readers. */
  lemma TokenOpsPreserveWellFormed(hasWindow: bool, st: Store, token: string)
    requires WellFormed(st)
    ensures WellFormed(SetToken(hasWindow, st, token))
    ensures WellFormed(RemoveToken(hasWindow, st))
  {
    if hasWindow {
      assert AuthTokenKey[0] != ProfileKeyPrefix[0];
      StorePreservesWellFormed(st, AuthTokenKey, TextItem(token));
      RemovePreservesWellFormed(st, {AuthTokenKey});
    }
  }

  /** The token store and the session context share the browser store without
      touching each other's keys: signing out of the session context keeps the
      API token, so the client stays authenticated for the API. */
  lemma TokenSurvivesSessionSignOut(hasWindow: bool, s: AuthContext.Session)
    ensures GetToken(hasWindow, AuthContext.SignOut(s).storage) == GetToken(hasWindow, s.storage)
    ensures IsAuthenticated(hasWindow, AuthContext.SignOut(s).storage) == IsAuthenticated(hasWindow, s.storage)
  {
  }

  // ---------------------------------------------------------------------------
  // Request headers.

  /** The headers of `config` before the token is considered: a caller's
      `options.headers` replaces the default object outright, because
      `...options` is spread after `headers`. */
  function BaseHeaders(callerHeaders: Option<Headers>): (h: Headers)
    ensures callerHeaders.Some? ==> h == callerHeaders.value
    ensures callerHeaders.None? ==> h.Keys == {ContentTypeHeader} && h[ContentTypeHeader] == JsonMediaType
  {
    match callerHeaders
    case Some(h) => h
    case None => map[ContentTypeHeader := JsonMediaType]
  }

  /** The headers sent: the base headers, plus `Authorization: Bearer <token>`
      when the stored token is non-empty. */
  function RequestHeaders(token: Option<string>, callerHeaders: Option<Headers>): (h: Headers)
    ensures token.Some? && token.value != "" ==>
      AuthorizationHeader in h && h[AuthorizationHeader] == "Bearer " + token.value
    ensures token.None? || token.value == "" ==> h == BaseHeaders(callerHeaders)
    ensures forall k :: k != AuthorizationHeader ==>
      (k in h <==> k in BaseHeaders(callerHeaders)) &&
      (k in h ==> h[k] == BaseHeaders(callerHeaders)[k])
  {
    var base := BaseHeaders(callerHeaders);
    if token.Some? && token.value != "" then base[AuthorizationHeader := "Bearer " + token.value] else base
  }

  /** When the caller sends no `Authorization` header of its own, the request
      carries one exactly when the stored token is non-empty. */
  lemma AuthorizationIffToken(token: Option<string>, callerHeaders: Option<Headers>)
    requires callerHeaders.None? || AuthorizationHeader !in callerHeaders.value
    ensures AuthorizationHeader in RequestHeaders(token, callerHeaders) <==> token.Some? && token.value != ""
  {
  }

  /** Caller-supplied headers drop the default `Content-Type`, which the
      request sends only when the caller supplies no headers at all or
      supplies it themselves. */
  lemma CallerHeadersDropContentType(token: Option<string>, callerHeaders: Option<Headers>)
    ensures ContentTypeHeader in RequestHeaders(token, callerHeaders) <==>
      callerHeaders.None? || ContentTypeHeader in callerHeaders.value
  {
  }

  // ---------------------------------------------------------------------------
  // Response shaping.

  /** What `fetch` did: threw (with `error instanceof Error` and its message),
      or produced a response whose body reads as `json` through
      `response.json()` and as `text` through `response.text()`. */
  datatype FetchOutcome =
    | Threw(isError: bool, message: string)
    | Responded(ok: bool, status: nat, contentType: Option<string>, json: Document, text: string)

  /** `s.includes(sub)`. */
  predicate Contains(s: string, sub: string)
    decreases |s|
  {
    sub <= s || (|s| > 0 && Contains(s[1..], sub))
  }

  /** The fallback message `HTTP error! status: ${status}`. */
  function HttpErrorText(status: nat): (msg: string)
    ensures msg != ""
  {
    "HTTP error! status: " + NatToString(status)
  }

  /** The fallback message names the status: different statuses give
      different messages. */
  lemma HttpErrorTextInjective(a: nat, b: nat)
    requires HttpErrorText(a) == HttpErrorText(b)
    ensures a == b
  {
    var prefix := "HTTP error! status: ";
    assert NatToString(a) == HttpErrorText(a)[|prefix|..];
    assert NatToString(b) == HttpErrorText(b)[|prefix|..];
    NatToStringInjective(a, b);
  }

  /** The `data` the client works with: the parsed JSON body when the
      content type mentions `application/json`, otherwise `{error: text}` with
      the status message standing in for an empty text. */
  function ResponseData(status: nat, contentType: Option<string>, json: Document, text: string): (data: Document)
    ensures contentType.Some? && Contains(contentType.value, JsonMediaType) ==> data == json
    ensures !(contentType.Some? && Contains(contentType.value, JsonMediaType)) ==>
      data.Keys == {"error"} && data["error"].Str? && Truthy(data["error"]) &&
      (text != "" ==> data["error"] == Str(text)) &&
      (text == "" ==> data["error"] == Str(HttpErrorText(status)))
  {
    if contentType.Some? && Contains(contentType.value, JsonMediaType) then json
    else map["error" := Str(if text != "" then text else HttpErrorText(status))]
  }

  /** The `ApiResponse` that `request` resolves to. It never throws. */
  function Normalise(o: FetchOutcome): (r: Document)
    ensures "success" in r
    ensures o.Threw? ==>
      r.Keys == {"success", "error"} && r["success"] == Bool(false) &&
      r["error"] == Str(if o.isError then o.message else NetworkErrorText)
    ensures o.Responded? && !o.ok ==>
      var data := ResponseData(o.status, o.contentType, o.json, o.text);
      && r.Keys == {"success", "error"} && r["success"] == Bool(false)
      && Truthy(r["error"])
      && (Truthy(Field(data, "error")) ==> r["error"] == data["error"])
      && (!Truthy(Field(data, "error")) && Truthy(Field(data, "message")) ==> r["error"] == data["message"])
      && (!Truthy(Field(data, "error")) && !Truthy(Field(data, "message")) ==>
            r["error"] == Str(HttpErrorText(o.status)))
    ensures o.Responded? && o.ok ==>
      var data := ResponseData(o.status, o.contentType, o.json, o.text);
      && r.Keys == data.Keys + {"success"}
      && (forall k :: k in data ==> r[k] == data[k])
      && ("success" !in data ==> r["success"] == Bool(true))
  {
    match o
    case Threw(isError, message) =>
      map["success" := Bool(false), "error" := Str(if isError then message else NetworkErrorText)]
    case Responded(ok, status, contentType, json, text) =>
      var data := ResponseData(status, contentType, json, text);
      if !ok then
        map["success" := Bool(false),
            "error" := Or(Or(Field(data, "error"), Field(data, "message")), Str(HttpErrorText(status)))]
      else
        map["success" := Bool(true)] + data
  }

  /** A response reports success only if the server answered 2xx (`ok`); an
      ok response reports success unless its JSON body says otherwise. */
  lemma SuccessFlag(o: FetchOutcome)
    ensures Normalise(o)["success"] == Bool(true) ==> o.Responded? && o.ok
    ensures o.Responded? && o.ok && !(o.contentType.Some? && Contains(o.contentType.value, JsonMediaType)) ==>
      Normalise(o)["success"] == Bool(true)
    ensures o.Responded? && o.ok && "success" in o.json &&
            o.contentType.Some? && Contains(o.contentType.value, JsonMediaType) ==>
      Normalise(o)["success"] == o.json["success"]
  {
  }
}
