/** The pure request preparation of `useApi`: merging the instance's base
    configuration with a call's configuration, the required-URL check, the
    default method and `Content-Type` header, the rule for attaching a body,
    the empty-params shortcut of `buildUrl`, and the argument shaping of the
    `get`/`post`/`put`/`patch`/`del` helpers. */
module ApiConfig {
  import opened Wrappers

  datatype Method = GET | POST | PUT | DELETE | PATCH

  /** A query-parameter value. */
  datatype Scalar = Text(s: string) | Number(n: int) | Flag(b: bool)

  /** A request body, kept only as precisely as JavaScript truthiness needs. */
  datatype JsValue = Undefined | Null | Bool(b: bool) | Num(n: int) | Str(s: string) | Object(id: nat) {

    /** JavaScript truthiness: `undefined`, `null`, `false`, `0` and `""` are falsy. */
    predicate Truthy() {
      match this
      case Undefined => false
      case Null => false
      case Bool(b) => b
      case Num(n) => n != 0
      case Str(s) => s != ""
      case Object(_) => true
    }
  }

  /** A (partial) request configuration; `None` is a key the object does not
      have. `verb` is the configuration's `method` key. */
  datatype Config = Config(
    url: Option<string>,
    verb: Option<Method>,
    headers: Option<map<string, string>>,
    body: Option<JsValue>,
    params: Option<map<string, Scalar>>)

  /** The empty configuration: what an omitted base or call configuration spreads to. */
  const NoConfig := Config(None, None, None, None, None)

  const ContentType := "Content-Type"
  const JsonMediaType := "application/json"
  const UrlRequired := "URL is required. Provide it either in baseConfig or in the request config."

  /** The request URL: the configured URL as is, or that URL with query
      parameters appended (the serialisation itself is left abstract). */
  datatype RequestUrl = Plain(url: string) | WithQuery(url: string, params: map<string, Scalar>)

  /** What is handed to the network: target, method, headers, and the body
      to serialise when one is attached. */
  datatype Request = Request(url: RequestUrl, verb: Method, headers: map<string, string>, body: Option<JsValue>)

  /** `{...a, ...b}` for one key: the call's value when present, else the base's. */
  function Override<T>(call: Option<T>, base: Option<T>): Option<T> {
    if call.Some? then call else base
  }

  /** The header map of a configuration; a missing one spreads as empty. */
  function HeadersOf(c: Config): map<string, string> {
    c.headers.GetOr(map[])
  }

  /** The effective configuration of one call: every top-level key comes from
      the call when present and from the base otherwise, except the headers,
      which merge key by key with the call's winning. */
  function Merge(base: Config, call: Config): (c: Config)
    ensures call.url.Some? ==> c.url == call.url
    ensures call.url.None? ==> c.url == base.url
    ensures call.verb.Some? ==> c.verb == call.verb
    ensures call.verb.None? ==> c.verb == base.verb
    ensures call.body.Some? ==> c.body == call.body
    ensures call.body.None? ==> c.body == base.body
    ensures call.params.Some? ==> c.params == call.params
    ensures call.params.None? ==> c.params == base.params
    ensures c.headers.Some?
    ensures c.headers.value.Keys == HeadersOf(base).Keys + HeadersOf(call).Keys
    ensures forall k :: k in HeadersOf(call) ==> c.headers.value[k] == HeadersOf(call)[k]
    ensures forall k :: k in HeadersOf(base) && k !in HeadersOf(call) ==> c.headers.value[k] == HeadersOf(base)[k]
  {
    Config(
      Override(call.url, base.url),
      Override(call.verb, base.verb),
      Some(HeadersOf(base) + HeadersOf(call)),
      Override(call.body, base.body),
      Override(call.params, base.params))
  }

  /** Merging the same call configuration a second time changes nothing. */
  lemma MergeIdempotent(base: Config, call: Config)
    ensures Merge(Merge(base, call), call) == Merge(base, call)
  {
    var m := Merge(base, call);
    assert HeadersOf(m) + HeadersOf(call) == HeadersOf(m);
  }

  /** `buildUrl`: with no parameters, or an empty parameter object, the URL
      is returned unchanged. */
  function BuildUrl(url: string, params: Option<map<string, Scalar>>): (r: RequestUrl)
    ensures r.url == url
    ensures r == Plain(url) <==> params.None? || params.value == map[]
    ensures r.WithQuery? ==> Some(r.params) == params
  {
    if params.None? || |params.value| == 0 then Plain(url)
    else WithQuery(url, params.value)
  }

  /** The method sent: the configured one, `GET` by default. */
  function EffectiveMethod(c: Config): Method {
    c.verb.GetOr(GET)
  }

  /** The methods whose requests may carry a body. */
  predicate AllowsBody(m: Method) {
    m == POST || m == PUT || m == PATCH
  }

  /** The headers sent: `Content-Type: application/json` unless the merged
      headers set that key themselves, plus every merged header. */
  function RequestHeaders(merged: map<string, string>): (h: map<string, string>)
    ensures h.Keys == merged.Keys + {ContentType}
    ensures h[ContentType] == if ContentType in merged then merged[ContentType] else JsonMediaType
    ensures forall k :: k in merged ==> h[k] == merged[k]
  {
    map[ContentType := JsonMediaType] + merged
  }

  /** The body attached to a request: only a truthy body, and only for a
      method that allows one. */
  function AttachedBody(c: Config): (b: Option<JsValue>)
    ensures b.Some? <==> c.body.Some? && c.body.value.Truthy() && AllowsBody(EffectiveMethod(c))
    ensures b.Some? ==> b == c.body
  {
    if c.body.Some? && c.body.value.Truthy() && AllowsBody(EffectiveMethod(c)) then c.body else None
  }

  /** The preparation `execute` performs before it reaches the network:
      merge, require a non-empty URL, then assemble the request. */
  function Prepare(base: Config, call: Config): (r: Result<Request>)
    ensures var c := Merge(base, call);
      r.Err? <==> c.url.None? || c.url.value == ""
    ensures r.Err? ==> r.message == UrlRequired
    ensures r.Ok? ==> var c := Merge(base, call);
      && r.value.url == BuildUrl(c.url.value, c.params)
      && r.value.verb == EffectiveMethod(c)
      && r.value.headers == RequestHeaders(c.headers.value)
      && r.value.body == AttachedBody(c)
  {
    var c := Merge(base, call);
    if c.url.None? || c.url.value == "" then Err(UrlRequired)
    else Ok(Request(BuildUrl(c.url.value, c.params), EffectiveMethod(c), RequestHeaders(c.headers.value), AttachedBody(c)))
  }

  /** Requests without a body-carrying method never carry a body, whatever
      the configurations say. */
  lemma NoBodyWithoutBodyMethod(base: Config, call: Config)
    requires Prepare(base, call).Ok?
    requires !AllowsBody(Prepare(base, call).value.verb)
    ensures Prepare(base, call).value.body.None?
  {
  }

  /** The argument shaping shared by the helpers: the helper's method always
      wins, the URL argument only when truthy, the body argument only when
      truthy; everything else comes from the helper's configuration argument. */
  function Shape(m: Method, url: Option<string>, body: JsValue, config: Config): (c: Config)
    ensures c.verb == Some(m)
    ensures url.Some? && url.value != "" ==> c.url == url
    ensures url.None? || url.value == "" ==> c.url == config.url
    ensures body.Truthy() ==> c.body == Some(body)
    ensures !body.Truthy() ==> c.body == config.body
    ensures c.headers == config.headers && c.params == config.params
  {
    Config(
      if url.Some? && url.value != "" then url else config.url,
      Some(m),
      config.headers,
      if body.Truthy() then Some(body) else config.body,
      config.params)
  }

  /** `get(url, config)`: the call configuration it hands to `execute`. */
  function Get(url: Option<string>, config: Config): (c: Config)
    ensures c.verb == Some(GET)
  {
    Shape(GET, url, Undefined, config)
  }

  /** `post(url, body, config)`. */
  function Post(url: Option<string>, body: JsValue, config: Config): (c: Config)
    ensures c.verb == Some(POST)
  {
    Shape(POST, url, body, config)
  }

  /** `put(url, body, config)`. */
  function Put(url: Option<string>, body: JsValue, config: Config): (c: Config)
    ensures c.verb == Some(PUT)
  {
    Shape(PUT, url, body, config)
  }

  /** `patch(url, body, config)`. */
  function Patch(url: Option<string>, body: JsValue, config: Config): (c: Config)
    ensures c.verb == Some(PATCH)
  {
    Shape(PATCH, url, body, config)
  }

  /** `del(url, config)`. */
  function Del(url: Option<string>, config: Config): (c: Config)
    ensures c.verb == Some(DELETE)
  {
    Shape(DELETE, url, Undefined, config)
  }

  /** What the helpers send: the forced method, never a body for `get` and
      `del`, and for `post`/`put`/`patch` a truthy body argument attached as
      given; a non-empty URL argument is always used. */
  lemma HelperRequests(base: Config, url: Option<string>, body: JsValue, config: Config)
    ensures Prepare(base, Get(url, config)).Ok? ==>
      Prepare(base, Get(url, config)).value.verb == GET && Prepare(base, Get(url, config)).value.body.None?
    ensures Prepare(base, Del(url, config)).Ok? ==>
      Prepare(base, Del(url, config)).value.verb == DELETE && Prepare(base, Del(url, config)).value.body.None?
    ensures url.Some? && url.value != "" && body.Truthy() ==>
      && Prepare(base, Post(url, body, config)) == Ok(Request(
           BuildUrl(url.value, Merge(base, config).params), POST,
           RequestHeaders(Merge(base, config).headers.value), Some(body)))
      && Prepare(base, Put(url, body, config)).value.body == Some(body)
      && Prepare(base, Patch(url, body, config)).value.body == Some(body)
  {
  }
}
