/** `TiktalikAuthConnection.make_request` up to the point where the socket
    would open: the mutual-exclusion check, form and query encoding, the
    `content-md5` header and the signature. The date (`time.gmtime()`), the
    dict orders and the digests are inputs; opening the connection, sending
    and reading the response are not part of this model. */
module Connection {
  import opened Common
  import opened Values
  import opened FormEncoding
  import opened Signing

  const FormContentType := "application/x-www-form-urlencoded"

  /** The headers dict that `make_request` and `_add_auth_header` fill in
      place; it may be the very dict the caller passed. */
  class Headers {
    var entries: map<string, string>

    constructor (entries: map<string, string>)
      ensures this.entries == entries
    {
      this.entries := entries;
    }
  }

  /** The `ValueError` raised when both a body and form params are given. */
  datatype RequestError = BodyAndParams

  /** What would go on the wire: `conn.request(method, path, body, headers)`. */
  datatype Prepared = Prepared(
    verb: string,
    path: string,
    headers: map<string, string>,
    body: Option<string>)

  /** `if body:` on a Python string or None. */
  predicate HasBody(body: Option<string>)
  {
    body.Some? && body.value != ""
  }

  /** One query value as `make_request` passes it on: a bool becomes the
      literal "true" or "false", anything else is kept. */
  function RenderBool(v: Value): Value
  {
    if v.VBool? then VStr(if v.b then "true" else "false") else v
  }

  /** The `qp` dict built from `query_params`. */
  function RenderQuery(query: map<string, Value>): (qp: map<string, Value>)
    ensures qp.Keys == query.Keys
    ensures forall k :: k in query && query[k].VBool? ==>
      qp[k] == VStr(if query[k].b then "true" else "false")
    ensures forall k :: k in query && !query[k].VBool? ==> qp[k] == query[k]
    ensures IsParamMap(query) ==> IsParamMap(qp)
  {
    map k | k in query :: RenderBool(query[k])
  }

  /** The `for key, value in query_params.iteritems()` loop. */
  method RenderQueryParams(query: map<string, Value>, order: seq<string>) returns (qp: map<string, Value>)
    requires IsKeyOrder(order, query)
    ensures qp == RenderQuery(query)
  {
    qp := map[];
    var i := 0;
    while i < |order|
      invariant 0 <= i <= |order|
      invariant qp.Keys == set j | 0 <= j < i :: order[j]
      invariant forall k :: k in qp ==> k in query && qp[k] == RenderBool(query[k])
    {
      var key := order[i];
      var value := query[key];
      if value.VBool? {
        qp := qp[key := VStr(if value.b then "true" else "false")];
      } else {
        qp := qp[key := value];
      }
      i := i + 1;
    }
    assert qp.Keys == query.Keys by {
      forall k | k in query ensures k in qp {
        var j :| 0 <= j < |order| && order[j] == k;
      }
    }
  }

  /** The query string appended to the path. */
  function QueryString(query: map<string, Value>, order: seq<string>, quote: string -> string): string
    requires IsParamMap(query) && IsKeyOrder(order, query)
  {
    Encode(RenderQuery(query), order, quote)
  }

  /** The headers `make_request` writes before signing: the forced
      content type for a form body, and the hex MD5 of a non-empty body. */
  function ContentHeaders(headers: map<string, string>, form: bool, body: Option<string>,
                          md5Hex: string -> string): map<string, string>
  {
    var typed := if form then headers["content-type" := FormContentType] else headers;
    if HasBody(body) then typed["content-md5" := md5Hex(body.value)] else typed
  }

  /** Only `content-type` (for a form) and `content-md5` (for a non-empty
      body) are written; every other header, and a caller's own
      `content-type` or `content-md5` that is not overwritten, is kept. */
  lemma ContentHeadersSpec(headers: map<string, string>, form: bool, body: Option<string>,
                           md5Hex: string -> string)
    ensures var h := ContentHeaders(headers, form, body, md5Hex);
      && h.Keys == headers.Keys + (if form then {"content-type"} else {}) +
                   (if HasBody(body) then {"content-md5"} else {})
      && (form ==> h["content-type"] == FormContentType)
      && (HasBody(body) ==> h["content-md5"] == md5Hex(body.value))
      && (forall k :: k in headers && k != "content-type" && k != "content-md5" ==> h[k] == headers[k])
      && (!form && "content-type" in headers ==> h["content-type"] == headers["content-type"])
      && (!HasBody(body) && "content-md5" in headers ==> h["content-md5"] == headers["content-md5"])
  {
  }

  /** The body `make_request` sends: the form encoding of the params when
      there are any, the caller's body otherwise. */
  function RequestBody(body: Option<string>, params: map<string, Value>, order: seq<string>,
                       quote: string -> string): Option<string>
    requires IsParamMap(params) && IsKeyOrder(order, params)
  {
    if params != map[] then Some(Encode(params, order, quote)) else body
  }

  /** The path `make_request` sends and signs. */
  function RequestPath(path: string, query: map<string, Value>, order: seq<string>,
                       quote: string -> string): string
    requires IsParamMap(query) && IsKeyOrder(order, query)
  {
    if query != map[] then path + "?" + QueryString(query, order, quote) else path
  }

  /** Everything `make_request` does before the connection opens, as a
      function of its arguments: the `ValueError` exactly when both a body
      and form params are given. */
  function Prepare(prims: Primitives, apiKey: string, secret: string, verb: string, path: string,
                   headers: map<string, string>, body: Option<string>,
                   params: map<string, Value>, query: map<string, Value>,
                   paramOrder: seq<string>, queryOrder: seq<string>, now: string): (r: Result<Prepared, RequestError>)
    requires IsParamMap(params) && IsKeyOrder(paramOrder, params)
    requires IsParamMap(query) && IsKeyOrder(queryOrder, query)
    ensures r.Failure? <==> params != map[] && HasBody(body)
    ensures r.Success? ==> r.value.verb == verb
  {
    if params != map[] && HasBody(body) then Failure(BodyAndParams)
    else
      var body1 := RequestBody(body, params, paramOrder, prims.quotePlus);
      var path1 := RequestPath(path, query, queryOrder, prims.quotePlus);
      var headers1 := ContentHeaders(headers, params != map[], body1, prims.md5Hex);
      Success(Prepared(verb, path1, SignedHeaders(prims, apiKey, secret, verb, path1, headers1, now), body1))
  }

  /** A prepared request carries the form encoding of the params as its body
      (else the caller's body), and the path with the query string after a
      "?" (else the path unchanged). */
  lemma PreparedBodyAndPath(prims: Primitives, apiKey: string, secret: string, verb: string, path: string,
                            headers: map<string, string>, body: Option<string>,
                            params: map<string, Value>, query: map<string, Value>,
                            paramOrder: seq<string>, queryOrder: seq<string>, now: string)
    requires IsParamMap(params) && IsKeyOrder(paramOrder, params)
    requires IsParamMap(query) && IsKeyOrder(queryOrder, query)
    requires !(params != map[] && HasBody(body))
    ensures var r := Prepare(prims, apiKey, secret, verb, path, headers, body, params, query,
                             paramOrder, queryOrder, now);
      && r.Success?
      && (params != map[] ==> r.value.body == Some(Encode(params, paramOrder, prims.quotePlus)))
      && (params == map[] ==> r.value.body == body)
      && (query != map[] ==> r.value.path == path + "?" + QueryString(query, queryOrder, prims.quotePlus))
      && (query == map[] ==> r.value.path == path)
  {
  }

  /** The headers of a prepared request: the caller's, untouched except for
      the forced form content type, the hex MD5 of a non-empty body, the date
      (the caller's when given, else the clock's) and the signature, which
      covers exactly the path and headers that are sent. */
  lemma PreparedHeaders(prims: Primitives, apiKey: string, secret: string, verb: string, path: string,
                        headers: map<string, string>, body: Option<string>,
                        params: map<string, Value>, query: map<string, Value>,
                        paramOrder: seq<string>, queryOrder: seq<string>, now: string)
    requires IsParamMap(params) && IsKeyOrder(paramOrder, params)
    requires IsParamMap(query) && IsKeyOrder(queryOrder, query)
    requires !(params != map[] && HasBody(body))
    ensures var r := Prepare(prims, apiKey, secret, verb, path, headers, body, params, query,
                             paramOrder, queryOrder, now);
      var h := r.value.headers;
      && r.Success?
      && h.Keys == headers.Keys + {"date", "Authorization"} +
           (if params != map[] then {"content-type"} else {}) +
           (if HasBody(r.value.body) then {"content-md5"} else {})
      && (forall k :: k in headers && k != "content-type" && k != "content-md5" && k != "Authorization" ==>
            h[k] == headers[k])
      && (params != map[] ==> h["content-type"] == FormContentType)
      && (HasBody(r.value.body) ==> h["content-md5"] == prims.md5Hex(r.value.body.value))
      && (!HasBody(r.value.body) ==> ("content-md5" in h <==> "content-md5" in headers))
      && (!HasBody(r.value.body) && "content-md5" in headers ==> h["content-md5"] == headers["content-md5"])
      && (params == map[] && "content-type" in headers ==> h["content-type"] == headers["content-type"])
      && ("date" in headers ==> h["date"] == headers["date"])
      && ("date" !in headers ==> h["date"] == now)
      && h["Authorization"] ==
           AuthorizationValue(apiKey, Sign(prims, secret, CanonicalString(verb, r.value.path, h)))
  {
    var body1 := RequestBody(body, params, paramOrder, prims.quotePlus);
    var path1 := RequestPath(path, query, queryOrder, prims.quotePlus);
    var headers1 := ContentHeaders(headers, params != map[], body1, prims.md5Hex);
    ContentHeadersSpec(headers, params != map[], body1, prims.md5Hex);
    var h := SignedHeaders(prims, apiKey, secret, verb, path1, headers1, now);
    assert h.Keys == headers1.Keys + {"date", "Authorization"};
  }

  class AuthConnection {
    const apiKey: string
    const apiSecretKey: string
    const host: string
    const port: int
    const useSsl: bool
    const timeout: int
    const prims: Primitives

    /** Stores the credentials and endpoint as given; the secret key is used
        as is, with no format detection. */
    constructor (apiKey: string, apiSecretKey: string, host: string, port: int, useSsl: bool,
                 prims: Primitives)
      ensures this.apiKey == apiKey && this.apiSecretKey == apiSecretKey
      ensures this.host == host && this.port == port && this.useSsl == useSsl
      ensures this.prims == prims && this.timeout == 5
    {
      this.apiKey := apiKey;
      this.apiSecretKey := apiSecretKey;
      this.host := host;
      this.port := port;
      this.useSsl := useSsl;
      this.prims := prims;
      this.timeout := 5;
    }

    /** `_add_auth_header`: writes `date` (when missing) and `Authorization`
        into the dict itself. */
    method AddAuthHeader(verb: string, path: string, headers: Headers, now: string)
      modifies headers
      ensures headers.entries ==
        SignedHeaders(prims, apiKey, apiSecretKey, verb, path, old(headers.entries), now)
    {
      if "date" !in headers.entries {
        headers.entries := headers.entries["date" := now];
      }
      var s := CanonicalString(verb, path, headers.entries);
      headers.entries := headers.entries["Authorization" := AuthorizationValue(apiKey, Sign(prims, apiSecretKey, s))];
    }

    /** `make_request` without the dispatch. `sent` is the dict that carries
        the headers: the caller's own when it passed a non-empty one (which is
        then changed in place), a fresh one otherwise (`headers or {}`). On
        the `ValueError` path nothing is touched. */
    method MakeRequest(verb: string, path: string, headers: Headers?, body: Option<string>,
                       params: map<string, Value>, query: map<string, Value>,
                       paramOrder: seq<string>, queryOrder: seq<string>, now: string)
      returns (r: Result<Prepared, RequestError>, sent: Headers?)
      requires IsParamMap(params) && IsKeyOrder(paramOrder, params)
      requires IsParamMap(query) && IsKeyOrder(queryOrder, query)
      modifies headers
      ensures r == Prepare(prims, apiKey, apiSecretKey, verb, path,
                           if headers == null then map[] else old(headers.entries),
                           body, params, query, paramOrder, queryOrder, now)
      ensures r.Failure? ==> sent == null
      ensures r.Failure? && headers != null ==> headers.entries == old(headers.entries)
      ensures r.Success? ==> sent != null && sent.entries == r.value.headers
      ensures r.Success? && headers != null && old(headers.entries) != map[] ==> sent == headers
      ensures r.Success? && (headers == null || old(headers.entries) == map[]) ==> fresh(sent)
      ensures r.Success? && headers != null && old(headers.entries) == map[] ==> headers.entries == map[]
    {
      if params != map[] && HasBody(body) {
        return Failure(BodyAndParams), null;
      }
      var h: Headers;
      if headers != null && headers.entries != map[] {
        h := headers;
      } else {
        h := new Headers(map[]);
      }
      ghost var h0 := h.entries;
      var b := body;
      var p := path;
      if params != map[] {
        b := Some(Encode(params, paramOrder, prims.quotePlus));
        h.entries := h.entries["content-type" := FormContentType];
      }
      ghost var typed := h.entries;
      assert typed == if params != map[] then h0["content-type" := FormContentType] else h0;
      if query != map[] {
        var qp := RenderQueryParams(query, queryOrder);
        p := path + "?" + Encode(qp, queryOrder, prims.quotePlus);
      }
      if HasBody(b) {
        h.entries := h.entries["content-md5" := prims.md5Hex(b.value)];
      }
      assert b == RequestBody(body, params, paramOrder, prims.quotePlus);
      assert p == RequestPath(path, query, queryOrder, prims.quotePlus);
      assert h.entries == if HasBody(b) then typed["content-md5" := prims.md5Hex(b.value)] else typed;
      assert h.entries == ContentHeaders(h0, params != map[], b, prims.md5Hex);
      AddAuthHeader(verb, p, h, now);
      return Success(Prepared(verb, p, h.entries, b)), h;
    }
  }
}
