/** The request signer of `TiktalikAuthConnection`: the five-line canonical
    string, its HMAC-SHA1 signature (base64), and the headers once `date` and
    `Authorization` are in. The digest and the encoders are parameters: the
    model fixes where they are applied and to what, not how they compute. */
module Signing {
  import opened Strings

  /** The library calls the request code depends on: `hmac.new(key, msg,
      sha).digest()`, `base64.b64encode`, `md5.new(body).hexdigest()` and
      `urllib.quote_plus`. */
  datatype Primitives = Primitives(
    hmacSha1: (string, string) -> string,
    base64: string -> string,
    md5Hex: string -> string,
    quotePlus: string -> string)

  /** `headers.get(key, default)`. */
  function Lookup(headers: map<string, string>, key: string, default: string): string
  {
    if key in headers then headers[key] else default
  }

  /** `_canonical_string`: method, content-md5, content-type, date and path
      joined by newlines; a missing md5 or type leaves its line empty. */
  function CanonicalString(verb: string, path: string, headers: map<string, string>): string
    requires "date" in headers
  {
    Join([verb, Lookup(headers, "content-md5", ""), Lookup(headers, "content-type", ""),
          headers["date"], path], '\n')
  }

  /** When no field holds a newline, the canonical string has exactly four
      separators, no trailing newline, and its lines are the five fields in
      order. */
  lemma CanonicalLines(verb: string, path: string, headers: map<string, string>)
    requires "date" in headers
    requires '\n' !in verb && '\n' !in path
    requires forall k :: k in headers ==> '\n' !in headers[k]
    ensures Split(CanonicalString(verb, path, headers), '\n') ==
      [verb, Lookup(headers, "content-md5", ""), Lookup(headers, "content-type", ""),
       headers["date"], path]
  {
    SplitJoin([verb, Lookup(headers, "content-md5", ""), Lookup(headers, "content-type", ""),
               headers["date"], path], '\n');
  }

  /** `_sign_string`: base64 of the HMAC-SHA1 of `s` under the secret key. */
  function Sign(prims: Primitives, secret: string, s: string): string
  {
    prims.base64(prims.hmacSha1(secret, s))
  }

  /** The value of the `Authorization` header. */
  function AuthorizationValue(apiKey: string, signature: string): string
  {
    "TKAuth " + apiKey + ":" + signature
  }

  /** The header is the scheme, a space, and `key:signature`; a server that
      splits it recovers the key and the signature, provided the key holds no
      space or colon and the signature (base64) none either. */
  lemma AuthorizationParts(apiKey: string, signature: string)
    requires ' ' !in apiKey && ':' !in apiKey
    requires ' ' !in signature && ':' !in signature
    ensures Split(AuthorizationValue(apiKey, signature), ' ') == ["TKAuth", apiKey + ":" + signature]
    ensures Split(apiKey + ":" + signature, ':') == [apiKey, signature]
  {
    assert AuthorizationValue(apiKey, signature) == Join(["TKAuth", apiKey + ":" + signature], ' ');
    SplitJoin(["TKAuth", apiKey + ":" + signature], ' ');
    SplitJoin([apiKey, signature], ':');
  }

  /** `_add_auth_header` on a dict: `date` is added only when missing, an
      existing one is kept; `Authorization` is set to the signature of the
      canonical string of the very headers that are sent; nothing else
      changes. */
  function SignedHeaders(prims: Primitives, apiKey: string, secret: string, verb: string,
                         path: string, headers: map<string, string>, now: string): (r: map<string, string>)
    ensures r.Keys == headers.Keys + {"date", "Authorization"}
    ensures "date" in headers ==> r["date"] == headers["date"]
    ensures "date" !in headers ==> r["date"] == now
    ensures forall k :: k in headers && k != "Authorization" ==> r[k] == headers[k]
    ensures r["Authorization"] ==
      AuthorizationValue(apiKey, Sign(prims, secret, CanonicalString(verb, path, r)))
  {
    var dated := if "date" in headers then headers else headers["date" := now];
    var signed := dated["Authorization" := AuthorizationValue(apiKey, Sign(prims, secret, CanonicalString(verb, path, dated)))];
    assert CanonicalString(verb, path, signed) == CanonicalString(verb, path, dated) by {
      assert Lookup(signed, "content-md5", "") == Lookup(dated, "content-md5", "");
      assert Lookup(signed, "content-type", "") == Lookup(dated, "content-type", "");
    }
    signed
  }

  /** A request without a body (no md5, no type): its two middle lines are
      empty, so the verb is followed by three newlines and then the date. */
  lemma CanonicalWithoutBody(verb: string, date: string, path: string)
    ensures CanonicalString(verb, path, map["date" := date]) ==
      verb + "\n\n\n" + date + "\n" + path
  {
    var headers := map["date" := date];
    assert Lookup(headers, "content-md5", "") == "" && Lookup(headers, "content-type", "") == "";
    var l3 := [date, path];
    var l2 := [""] + l3;
    var l1 := [""] + l2;
    var l0 := [verb] + l1;
    assert l0 == [verb, "", "", date, path];
    var j3 := date + "\n" + path;
    assert Join(l3, '\n') == j3 by { assert l3[1..] == [path]; }
    assert Join(l2, '\n') == "\n" + j3 by { assert l2[1..] == l3; }
    assert Join(l1, '\n') == "\n\n" + j3 by { assert l1[1..] == l2; }
    assert Join(l0, '\n') == verb + "\n\n\n" + j3 by { assert l0[1..] == l1; }
  }
}
