/**
 * The request wrapper of src/utils/api.ts: header assembly, method and body
 * defaults, response classification, and the session-expiry side effects of an
 * unauthorized response. The network exchange itself is a parameter `fetch`
 * from the request sent to the response received.
 */
module Api {
  import opened Wrappers
  import AuthStore
  import Router

  /** The URL prefix of every request (the production value). */
  const ApiBase: string := "/api"
  const ContentType: string := "Content-Type"
  const JsonMediaType: string := "application/json"
  const Authorization: string := "Authorization"
  /** The auth-scheme and separating space of the Authorization header, section 2.1 of RFC 6750. */
  const BearerPrefix: string := "Bearer "
  const UnauthorizedMessage: string := "Unauthorized: Please login again"
  const StatusMessagePrefix: string := "Request failed with status "
  /** The path pushed when the session has expired. */
  const EntryPath: string := "/"
  /** 401 Unauthorized, section 15.5.2 of RFC 9110. */
  const Unauthorized: nat := 401

  datatype HttpMethod = GET | POST | PUT | DELETE

  /** A JSON value: what a request body serialises, and what a response payload parses to. */
  datatype Value =
    | Null
    | Bool(b: bool)
    | Number(n: int)
    | Str(s: string)
    | Arr(items: seq<Value>)
    | Obj(members: seq<(string, Value)>)

  /** JavaScript truthiness of a value: `null`, `false`, `0` and `""` are the falsy ones. */
  function IsTruthy(v: Value): (b: bool)
    ensures b <==> v != Null && v != Bool(false) && v != Number(0) && v != Str("")
  {
    match v
    case Null => false
    case Bool(b) => b
    case Number(n) => n != 0
    case Str(s) => s != ""
    case _ => true
  }

  /** `RequestOptions`: an unset method or body is `None`; unset `headers` is the empty map. */
  datatype RequestOptions = RequestOptions(verb: Option<HttpMethod>, body: Option<Value>, headers: map<string, string>)

  /** What is handed to `fetch`; a body `Some(v)` stands for `JSON.stringify(v)`. */
  datatype Request = Request(url: string, verb: HttpMethod, headers: map<string, string>, body: Option<Value>)

  /**
   * The value of member `key` among an object's members, as `JSON.parse` keeps
   * it: the last occurrence wins; `None` when there is no such member.
   */
  function MemberValue(members: seq<(string, Value)>, key: string): (r: Option<Value>)
    ensures r.Some? ==> exists i :: 0 <= i < |members| && members[i] == (key, r.value) &&
                                    forall j :: i < j < |members| ==> members[j].0 != key
    ensures r.None? ==> forall i :: 0 <= i < |members| ==> members[i].0 != key
    decreases |members|
  {
    if members == [] then None
    else if members[|members| - 1].0 == key then Some(members[|members| - 1].1)
    else MemberValue(members[..|members| - 1], key)
  }

  /**
   * `String(v)`, the conversion `new Error(v)` applies to its argument, or
   * `None` when that conversion throws a `TypeError`. A parsed object has no
   * callable member of its own, so an own `toString` member hides the inherited
   * one and the conversion falls through to `valueOf`, which yields the object
   * again and so throws; without one it prints `[object Object]`. An array
   * converts by joining its elements with commas, `null` elements printing as
   * empty, and throws when an element does.
   */
  function JsString(v: Value): (r: Option<string>)
    ensures r.None? ==> v.Obj? || v.Arr?
    ensures v.Str? ==> r == Some(v.s)
    ensures v.Obj? ==> r == (if MemberValue(v.members, "toString").Some? then None else Some("[object Object]"))
    ensures v.Arr? ==> (r.None? <==> exists i :: 0 <= i < |v.items| && v.items[i] != Null && JsString(v.items[i]).None?)
    decreases v
  {
    match v
    case Null => Some("null")
    case Bool(b) => Some(if b then "true" else "false")
    case Number(n) => Some(if n < 0 then "-" + NatToString(-n) else NatToString(n))
    case Str(s) => Some(s)
    case Arr(items) =>
      if exists i :: 0 <= i < |items| && items[i] != Null && JsString(items[i]).None? then None
      else Some(Join(seq(|items|, i requires 0 <= i < |items| =>
                           if items[i] == Null then "" else match JsString(items[i]) case Some(s) => s case None => "")))
    case Obj(members) => if MemberValue(members, "toString").Some? then None else Some("[object Object]")
  }

  /** The strings separated by commas, as `Array.prototype.join` does by default. */
  function Join(parts: seq<string>): (r: string)
    decreases |parts|
  {
    if |parts| == 0 then "" else if |parts| == 1 then parts[0] else parts[0] + "," + Join(parts[1..])
  }

  /** What `response.json()` yields: a parse failure, or the parsed value. */
  datatype Payload = Unparsable | Parsed(data: Value)

  datatype Response = Response(status: nat, payload: Payload)

  /**
   * How the call settles: resolved with the payload; rejected with an `Error`
   * and its message; rejected by the JSON parser's `SyntaxError`; or rejected by
   * the `TypeError` of reading a property of `null`.
   */
  datatype Outcome = Resolved(data: Value) | Rejected(message: string) | RejectedSyntaxError | RejectedTypeError

  /** The "ok status" range of the Fetch Standard: 200 to 299. */
  predicate IsOk(status: nat)
  {
    200 <= status <= 299
  }

  // ---------------------------------------------------------------------------
  // Headers

  /** The Authorization header value carrying `token` as a bearer credential. */
  function BearerCredentials(token: string): (r: string)
  {
    BearerPrefix + token
  }

  /**
   * The headers sent for `token` and the caller's headers: `Content-Type` is
   * `application/json` unless the caller gives one; a truthy token sets
   * `Authorization` to its bearer form, over any caller value; otherwise
   * `Authorization` is the caller's or absent; every other header is the caller's.
   */
  ghost predicate HeadersFor(h: map<string, string>, token: Option<string>, caller: map<string, string>)
  {
    && ContentType in h
    && h[ContentType] == (if ContentType in caller then caller[ContentType] else JsonMediaType)
    && (AuthStore.Truthy(token) ==> Authorization in h && h[Authorization] == BearerCredentials(token.value))
    && (!AuthStore.Truthy(token) ==> AuthStore.GetItem(h, Authorization) == AuthStore.GetItem(caller, Authorization))
    && (forall k :: k != ContentType && k != Authorization ==> AuthStore.GetItem(h, k) == AuthStore.GetItem(caller, k))
  }

  /** `HeadersFor` leaves no freedom: it pins down the header map completely. */
  lemma HeadersForUnique(h1: map<string, string>, h2: map<string, string>, token: Option<string>, caller: map<string, string>)
    requires HeadersFor(h1, token, caller) && HeadersFor(h2, token, caller)
    ensures h1 == h2
  {
    forall k
      ensures AuthStore.GetItem(h1, k) == AuthStore.GetItem(h2, k)
    {
      if k == ContentType {
      } else if k == Authorization {
      } else {
      }
    }
    assert forall k :: k in h1 <==> AuthStore.GetItem(h1, k).Some?;
    assert forall k :: k in h2 <==> AuthStore.GetItem(h2, k).Some?;
    assert h1.Keys == h2.Keys;
  }

  /** The header object of `apiRequest`: defaults, then the caller's spread over them, then the token. */
  method BuildHeaders(token: Option<string>, caller: map<string, string>) returns (headers: map<string, string>)
    ensures HeadersFor(headers, token, caller)
  {
    headers := map[ContentType := JsonMediaType] + caller;
    if AuthStore.Truthy(token) {
      headers := headers[Authorization := BearerCredentials(token.value)];
    }
  }

  // ---------------------------------------------------------------------------
  // The outgoing request

  /**
   * The request sent for `endpoint` and `options` with `token` held: the base
   * prefix followed by the endpoint, the caller's method or GET, a body only
   * when the caller's body is truthy, and the headers of `HeadersFor`.
   */
  ghost predicate Prepared(req: Request, endpoint: string, options: RequestOptions, token: Option<string>)
  {
    && |req.url| == |ApiBase| + |endpoint|
    && req.url[..|ApiBase|] == ApiBase
    && req.url[|ApiBase|..] == endpoint
    && req.verb == (if options.verb.Some? then options.verb.value else GET)
    && (req.body.Some? <==> options.body.Some? && IsTruthy(options.body.value))
    && (req.body.Some? ==> req.body == options.body)
    && HeadersFor(req.headers, token, options.headers)
  }

  /** `Prepared` pins down the request completely. */
  lemma PreparedUnique(r1: Request, r2: Request, endpoint: string, options: RequestOptions, token: Option<string>)
    requires Prepared(r1, endpoint, options, token) && Prepared(r2, endpoint, options, token)
    ensures r1 == r2
  {
    HeadersForUnique(r1.headers, r2.headers, token, options.headers);
    assert r1.url == r1.url[..|ApiBase|] + r1.url[|ApiBase|..];
    assert r2.url == r2.url[..|ApiBase|] + r2.url[|ApiBase|..];
  }

  /** Everything `apiRequest` computes before the network call. */
  method PrepareRequest(endpoint: string, options: RequestOptions, token: Option<string>) returns (req: Request)
    ensures Prepared(req, endpoint, options, token)
  {
    var headers := BuildHeaders(token, options.headers);
    var verb := if options.verb.Some? then options.verb.value else GET;
    var body := if options.body.Some? && IsTruthy(options.body.value) then options.body else None;
    req := Request(ApiBase + endpoint, verb, headers, body);
  }

  // ---------------------------------------------------------------------------
  // What `fetch` refuses before any exchange

  /** `tchar` of section 5.6.2 of RFC 9110. */
  predicate IsTokenChar(c: char)
  {
    ('0' <= c <= '9') || ('a' <= c <= 'z') || ('A' <= c <= 'Z') || c in "!#$%&'*+-.^_`|~"
  }

  /** A header name: a non-empty token. */
  predicate IsHeaderName(s: string)
  {
    |s| > 0 && forall i :: 0 <= i < |s| ==> IsTokenChar(s[i])
  }

  /** HTTP whitespace of the Fetch Standard: tab, line feed, carriage return and space. */
  predicate IsHttpWhitespace(c: char)
  {
    c == '\t' || c == '\n' || c == '\r' || c == ' '
  }

  function TrimStart(s: string): (r: string)
    ensures forall c :: c in r ==> c in s
    decreases |s|
  {
    if |s| > 0 && IsHttpWhitespace(s[0]) then TrimStart(s[1..]) else s
  }

  function TrimEnd(s: string): (r: string)
    ensures forall c :: c in r ==> c in s
    decreases |s|
  {
    if |s| > 0 && IsHttpWhitespace(s[|s| - 1]) then TrimEnd(s[..|s| - 1]) else s
  }

  /**
   * A value `Headers` accepts: every character fits in a byte (the
   * `ByteString` conversion), and once leading and trailing HTTP whitespace is
   * removed it holds no NUL, line feed or carriage return.
   */
  predicate IsHeaderValue(v: string)
  {
    && (forall i :: 0 <= i < |v| ==> v[i] as int <= 0xFF)
    && (forall c :: c in TrimEnd(TrimStart(v)) ==> c != '\0' && c != '\n' && c != '\r')
  }

  predicate AcceptableHeaders(h: map<string, string>)
  {
    forall k :: k in h ==> IsHeaderName(k) && IsHeaderValue(h[k])
  }

  /**
   * `fetch` throws a `TypeError` without any exchange for a GET that carries a
   * body, and for a header name or value `Headers` does not accept.
   */
  predicate Refused(req: Request)
  {
    (req.verb == GET && req.body.Some?) || !AcceptableHeaders(req.headers)
  }

  /** A caller that leaves the method unset but passes a truthy body gets a GET with a body, which `fetch` refuses. */
  lemma ImplicitGetWithBodyRefused(req: Request, endpoint: string, options: RequestOptions, token: Option<string>)
    requires Prepared(req, endpoint, options, token)
    requires options.verb.None? && options.body.Some? && IsTruthy(options.body.value)
    ensures Refused(req)
  {
  }

  /** A character of `b64token`, section 2.1 of RFC 6750. */
  predicate IsB64TokenChar(c: char)
  {
    ('0' <= c <= '9') || ('a' <= c <= 'z') || ('A' <= c <= 'Z') || c in "-._~+/="
  }

  /** A value with only byte-sized characters and no NUL, line feed or carriage return is accepted. */
  lemma PlainValueAccepted(v: string)
    requires forall i :: 0 <= i < |v| ==> v[i] as int <= 0xFF && v[i] != '\0' && v[i] != '\n' && v[i] != '\r'
    ensures IsHeaderValue(v)
  {
    forall c | c in TrimEnd(TrimStart(v))
      ensures c != '\0' && c != '\n' && c != '\r'
    {
      assert c in v;
    }
  }

  /** The two header names the wrapper sets, and the JSON media type, are accepted. */
  lemma FixedHeadersAccepted()
    ensures IsHeaderName(ContentType) && IsHeaderName(Authorization) && IsHeaderValue(JsonMediaType)
  {
    assert forall i :: 0 <= i < |ContentType| ==> IsTokenChar(ContentType[i]);
    assert forall i :: 0 <= i < |Authorization| ==> IsTokenChar(Authorization[i]);
    PlainValueAccepted(JsonMediaType);
  }

  /** The bearer form of a `b64token` is an accepted header value. */
  lemma BearerAccepted(token: string)
    requires forall i :: 0 <= i < |token| ==> IsB64TokenChar(token[i])
    ensures IsHeaderValue(BearerCredentials(token))
  {
    var v := BearerCredentials(token);
    forall i | 0 <= i < |v|
      ensures v[i] as int <= 0xFF && v[i] != '\0' && v[i] != '\n' && v[i] != '\r'
    {
      if i >= |BearerPrefix| {
        assert v[i] == token[i - |BearerPrefix|];
      }
    }
    PlainValueAccepted(v);
  }

  /**
   * With acceptable caller headers, and a token (when truthy) made of
   * `b64token` characters, the headers `apiRequest` builds are all accepted.
   */
  lemma WellFormedHeadersAccepted(h: map<string, string>, token: Option<string>, caller: map<string, string>)
    requires AcceptableHeaders(caller)
    requires AuthStore.Truthy(token) ==> forall i :: 0 <= i < |token.value| ==> IsB64TokenChar(token.value[i])
    requires HeadersFor(h, token, caller)
    ensures AcceptableHeaders(h)
  {
    FixedHeadersAccepted();
    if AuthStore.Truthy(token) {
      BearerAccepted(token.value);
    }
    forall k | k in h
      ensures IsHeaderName(k) && IsHeaderValue(h[k])
    {
      if k != ContentType && !(k == Authorization && AuthStore.Truthy(token)) {
        assert AuthStore.GetItem(h, k) == AuthStore.GetItem(caller, k);
      }
    }
  }

  // ---------------------------------------------------------------------------
  // Status messages

  function DigitChar(d: nat): char
    requires d < 10
  {
    "0123456789"[d]
  }

  predicate AllDigits(s: string)
  {
    forall i :: 0 <= i < |s| ==> '0' <= s[i] <= '9'
  }

  /** The decimal rendering of a status, as a template literal prints an integer. */
  function NatToString(n: nat): (s: string)
    ensures |s| >= 1 && AllDigits(s)
    ensures |s| > 1 ==> s[0] != '0'
    decreases n
  {
    if n < 10 then [DigitChar(n)] else NatToString(n / 10) + [DigitChar(n % 10)]
  }

  /** The number a string of decimal digits denotes. */
  function DigitsValue(s: string): (n: nat)
    requires AllDigits(s)
    decreases |s|
  {
    if s == [] then 0 else 10 * DigitsValue(s[..|s| - 1]) + (s[|s| - 1] as int - '0' as int)
  }

  lemma {:induction false} DecimalRoundTrip(n: nat)
    ensures DigitsValue(NatToString(n)) == n
    decreases n
  {
    if n >= 10 {
      DecimalRoundTrip(n / 10);
      var s := NatToString(n);
      assert s[..|s| - 1] == NatToString(n / 10);
    }
  }

  /** The generic failure message for a status. */
  function StatusMessage(status: nat): (r: string)
  {
    StatusMessagePrefix + NatToString(status)
  }

  /**
   * `errorData.message`, where `errorData` is the parsed error payload or `{}`
   * when it did not parse; `None` is `undefined`. Only an object has members.
   * On `null` the member access throws, so that payload is excluded here and
   * `ErrorOutcome` handles it before reading the field.
   */
  function MessageField(p: Payload): (r: Option<Value>)
    requires p != Parsed(Null)
    ensures p.Unparsable? ==> r.None?
    ensures p.Parsed? && p.data.Obj? ==> r == MemberValue(p.data.members, "message")
    ensures p.Parsed? && !p.data.Obj? ==> r.None?
  {
    match p
    case Parsed(Obj(members)) => MemberValue(members, "message")
    case _ => None
  }

  /** How a failed, non-401 response rejects. */
  function ErrorOutcome(p: Payload, status: nat): (o: Outcome)
  {
    if p == Parsed(Null) then RejectedTypeError
    else match MessageField(p)
      case Some(m) =>
        if !IsTruthy(m) then Rejected(StatusMessage(status))
        else (match JsString(m)
          case Some(s) => Rejected(s)
          case None => RejectedTypeError)
      case None => Rejected(StatusMessage(status))
  }

  // ---------------------------------------------------------------------------
  // Response classification

  /**
   * How `apiRequest` settles for a response. 401 takes precedence over the
   * generic not-ok branch and ignores the payload. Any other status outside the
   * ok range rejects with the payload's truthy `message` (as a string), or else
   * with the generic status message, also when the payload does not parse; a
   * `null` payload makes the member access itself throw, and a message whose
   * string conversion throws makes `new Error` throw. An ok status resolves
   * with the parsed payload, or rejects with the parser's error.
   */
  function Classify(r: Response): (o: Outcome)
    ensures r.status == Unauthorized ==> o == Rejected(UnauthorizedMessage)
    ensures r.status != Unauthorized && !IsOk(r.status) ==>
              if r.payload == Parsed(Null) then o == RejectedTypeError
              else if MessageField(r.payload).Some? && IsTruthy(MessageField(r.payload).value)
              then o == (if JsString(MessageField(r.payload).value).Some?
                         then Rejected(JsString(MessageField(r.payload).value).value)
                         else RejectedTypeError)
              else o == Rejected(StatusMessage(r.status))
    ensures o.Resolved? <==> IsOk(r.status) && r.payload.Parsed?
    ensures o.Resolved? ==> o.data == r.payload.data
    ensures o == RejectedSyntaxError <==> IsOk(r.status) && r.payload.Unparsable?
    ensures o == RejectedTypeError ==>
              r.status != Unauthorized && !IsOk(r.status) &&
              (r.payload == Parsed(Null) || (MessageField(r.payload).Some? && JsString(MessageField(r.payload).value).None?))
  {
    if r.status == Unauthorized then Rejected(UnauthorizedMessage)
    else if !IsOk(r.status) then ErrorOutcome(r.payload, r.status)
    else match r.payload
      case Unparsable => RejectedSyntaxError
      case Parsed(data) => Resolved(data)
  }

  /**
   * Worked responses: a 500 with `{"message":"boom"}` rejects with "boom"; with
   * an unparsable body, `{}` or an empty message it rejects with the generic
   * message; with `null` it throws; a 401 ignores the message; a 200 with
   * `{"id":1}` resolves with that object.
   */
  lemma ClassifyExamples()
    ensures Classify(Response(500, Parsed(Obj([("message", Str("boom"))])))) == Rejected("boom")
    ensures Classify(Response(500, Unparsable)) == Rejected("Request failed with status 500")
    ensures Classify(Response(500, Parsed(Obj([])))) == Rejected("Request failed with status 500")
    ensures Classify(Response(500, Parsed(Obj([("message", Str(""))])))) == Rejected("Request failed with status 500")
    ensures Classify(Response(500, Parsed(Null))) == RejectedTypeError
    ensures Classify(Response(401, Parsed(Obj([("message", Str("boom"))])))) == Rejected(UnauthorizedMessage)
    ensures Classify(Response(200, Parsed(Obj([("id", Number(1))])))) == Resolved(Obj([("id", Number(1))]))
  {
  }

  /** An object message without its own `toString` prints `[object Object]`. */
  lemma ObjectMessageExample()
    ensures Classify(Response(500, Parsed(Obj([("message", Obj([]))])))) == Rejected("[object Object]")
  {
    assert MessageField(Parsed(Obj([("message", Obj([]))]))) == Some(Obj([]));
  }

  /** An object message with its own `toString` member makes `new Error` throw a `TypeError`. */
  lemma OwnToStringMessageExample()
    ensures Classify(Response(500, Parsed(Obj([("message", Obj([("toString", Str("x"))]))])))) == RejectedTypeError
  {
    var m := Obj([("toString", Str("x"))]);
    assert MessageField(Parsed(Obj([("message", m)]))) == Some(m);
    assert MemberValue(m.members, "toString") == Some(Str("x"));
  }

  /** An array message joins its elements with commas, a `null` element printing as empty. */
  lemma ArrayMessageExample()
    ensures Classify(Response(500, Parsed(Obj([("message", Arr([Str("a"), Null, Str("b")]))])))) == Rejected("a,,b")
  {
    var items := [Str("a"), Null, Str("b")];
    assert MessageField(Parsed(Obj([("message", Arr(items))]))) == Some(Arr(items));
    assert JsString(Arr(items)) == Some(Join(["a", "", "b"])) by {
      assert !exists i :: 0 <= i < |items| && items[i] != Null && JsString(items[i]).None?;
      assert seq(|items|, i requires 0 <= i < |items| =>
                   if items[i] == Null then "" else match JsString(items[i]) case Some(s) => s case None => "")
             == ["a", "", "b"];
    }
    assert Join(["a", "", "b"]) == "a,,b";
  }

  // ---------------------------------------------------------------------------
  // The wrapper and its two delegations

  /**
   * The effect of one call on the session and the push log: an unauthorized
   * response logs out exactly once and pushes the entry path exactly once;
   * anything else touches neither.
   */
  twostate predicate Settled(session: AuthStore.Session, nav: Router.Navigator, unauthorized: bool)
    reads session, nav
  {
    if unauthorized then
      && session.State() == AuthStore.LoggedOut(old(session.State()))
      && session.logoutCalls == old(session.logoutCalls) + 1
      && nav.pushes == old(nav.pushes) + [EntryPath]
    else
      && session.State() == old(session.State())
      && session.logoutCalls == old(session.logoutCalls)
      && nav.pushes == old(nav.pushes)
  }

  /**
   * `apiRequest(endpoint, options)`: a request `fetch` refuses rejects with its
   * `TypeError` and changes nothing; otherwise the call settles as `Classify`
   * says for the response, with the 401 side effects.
   */
  method ApiRequest(endpoint: string, options: RequestOptions, session: AuthStore.Session, nav: Router.Navigator,
                    fetch: Request -> Response)
    returns (sent: Request, outcome: Outcome)
    modifies session, nav
    ensures Prepared(sent, endpoint, options, old(session.token))
    ensures Refused(sent) ==> outcome == RejectedTypeError && Settled(session, nav, false)
    ensures !Refused(sent) ==> outcome == Classify(fetch(sent)) && Settled(session, nav, fetch(sent).status == Unauthorized)
  {
    var token := session.GetToken();
    sent := PrepareRequest(endpoint, options, token);
    if Refused(sent) {
      outcome := RejectedTypeError;
      return;
    }
    var response := fetch(sent);
    if response.status == Unauthorized {
      session.Logout();
      nav.Push(EntryPath);
    }
    outcome := Classify(response);
  }

  /** `apiGet(endpoint)`: a GET with no body and no caller headers. */
  method ApiGet(endpoint: string, session: AuthStore.Session, nav: Router.Navigator, fetch: Request -> Response)
    returns (sent: Request, outcome: Outcome)
    modifies session, nav
    ensures sent.verb == GET && sent.body == None
    ensures Refused(sent) <==> !AcceptableHeaders(sent.headers)
    ensures Prepared(sent, endpoint, RequestOptions(Some(GET), None, map[]), old(session.token))
    ensures Refused(sent) ==> outcome == RejectedTypeError && Settled(session, nav, false)
    ensures !Refused(sent) ==> outcome == Classify(fetch(sent)) && Settled(session, nav, fetch(sent).status == Unauthorized)
  {
    sent, outcome := ApiRequest(endpoint, RequestOptions(Some(GET), None, map[]), session, nav, fetch);
  }

  /** `apiPost(endpoint, body)`: a POST carrying `body` when it is truthy, with no caller headers. */
  method ApiPost(endpoint: string, body: Option<Value>, session: AuthStore.Session, nav: Router.Navigator,
                 fetch: Request -> Response)
    returns (sent: Request, outcome: Outcome)
    modifies session, nav
    ensures sent.verb == POST
    ensures sent.body == (if body.Some? && IsTruthy(body.value) then body else None)
    ensures Prepared(sent, endpoint, RequestOptions(Some(POST), body, map[]), old(session.token))
    ensures Refused(sent) ==> outcome == RejectedTypeError && Settled(session, nav, false)
    ensures !Refused(sent) ==> outcome == Classify(fetch(sent)) && Settled(session, nav, fetch(sent).status == Unauthorized)
  {
    sent, outcome := ApiRequest(endpoint, RequestOptions(Some(POST), body, map[]), session, nav, fetch);
  }

  /**
   * After a 401 the pushed entry path is the login route, and the guard lets
   * the now logged-out session through to it without a further redirect.
   */
  lemma UnauthorizedLandsOnLogin(st: AuthStore.SessionState)
    ensures Router.RouteAt(EntryPath) == Some(Router.LoginRoute)
    ensures Router.Decide(Router.LoginRoute, AuthStore.LoggedOut(st).Authenticated()) == Router.Proceed
  {
  }
}
