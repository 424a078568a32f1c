/** `HTTPBalancerConnection`: the requests of the HTTP load balancer
    service and the objects built from their responses. */
module BalancerConnection {
  import opened Common
  import opened Strings
  import opened Values
  import opened FormEncoding
  import opened Connection
  import Balancer

  /** `base_url`: absolute, and without a trailing slash. */
  function BaseUrl(): (u: string)
    ensures |u| > 0 && u[0] == '/' && u[|u| - 1] != '/'
    ensures u == Path(["api", "v1", "loadbalancer"])
  {
    "/api/v1/loadbalancer"
  }

  datatype Call =
    | ListHttpBalancers(history: Value)
    | GetHttpBalancer(uuid: string)
    | CreateHttpBalancer(name: Value, domains: Value, backends: seq<Balancer.Backend>)

  /** The request each call sends: the list is a `GET` of `/http` whose only
      query key is `history`, the lookup a `GET` of one balancer, and the
      creation a `POST` to `/http` with exactly `name`, `domains[]` and the
      formatted `backends[]`. */
  function Descriptor(c: Call): (r: Request)
    ensures r.verb == (if c.CreateHttpBalancer? then "POST" else "GET")
    ensures c.ListHttpBalancers? ==>
      r.path == "/http" && r.params == map[] && r.query.Keys == {"history"} && r.query["history"] == c.history
    ensures c.GetHttpBalancer? ==> r.path == "/http/" + c.uuid && r.params == map[] && r.query == map[]
    ensures c.CreateHttpBalancer? ==>
      && r.path == "/http" && r.query == map[]
      && r.params.Keys == {"name", "domains[]", "backends[]"}
      && r.params["name"] == c.name && r.params["domains[]"] == c.domains
      && r.params["backends[]"] == VList(Balancer.FormatBackends(c.backends))
  {
    match c
    case ListHttpBalancers(history) => Request("GET", "/http", map[], map["history" := history])
    case GetHttpBalancer(uuid) => Bare("GET", "/http/" + uuid)
    case CreateHttpBalancer(name, domains, backends) =>
      var params := map["name" := name, "domains[]" := domains,
                        "backends[]" := VList(Balancer.FormatBackends(backends))];
      assert "name" in params && "domains[]" in params;
      Request("POST", "/http", params, map[])
  }

  /** The connection looks a balancer up at the very path the balancer's own
      `delete` uses, and `create_httpbalancer` formats its backends exactly
      as `set_backends` does. */
  lemma AgreesWithBalancer(uuid: string, name: Value, domains: Value, backends: seq<Balancer.Backend>)
    ensures Descriptor(GetHttpBalancer(uuid)).path == Balancer.Descriptor(Balancer.Http, uuid, Balancer.Delete).path
    ensures Descriptor(CreateHttpBalancer(name, domains, backends)).params["backends[]"] ==
      Balancer.Descriptor(Balancer.Http, uuid, Balancer.SetBackends(backends)).params["backends[]"]
  {
    assert "/http/" + uuid + "" == "/http/" + uuid;
  }

  /** With a boolean flag, `history` goes out as the literal `true` or
      `false`. */
  lemma HistoryRendered(history: bool)
    ensures RenderQuery(Descriptor(ListHttpBalancers(VBool(history))).query) ==
      map["history" := VStr(if history then "true" else "false")]
  {
    var q := Descriptor(ListHttpBalancers(VBool(history))).query;
    assert q["history"].VBool?;
  }

  /** The form body of `create_httpbalancer` carries one `backends[]` pair
      per tuple, in order, each reading back as its tuple. */
  lemma CreateBackendsEncoded(name: Value, domains: Value, backends: seq<Balancer.Backend>, order: seq<string>)
    requires IsScalar(name) && IsParamValue(domains)
    requires forall i :: 0 <= i < |backends| ==> ':' !in backends[i].ip
    requires IsKeyOrder(order, Descriptor(CreateHttpBalancer(name, domains, backends)).params)
    ensures var pairs := PairsWithKey(FormPairs(Descriptor(CreateHttpBalancer(name, domains, backends)).params, order), "backends[]");
      && |pairs| == |backends|
      && forall i :: 0 <= i < |pairs| ==>
           pairs[i].0 == "backends[]" && Balancer.ParseBackend(pairs[i].1) == Some(backends[i])
  {
    var params := Descriptor(CreateHttpBalancer(name, domains, backends)).params;
    Balancer.BackendPairsReadBack(backends);
    assert forall k :: k in params ==> IsParamValue(params[k]);
    FormPairsOfKey(params, order, "backends[]");
  }

  /** `list_httpbalancers`: one `HTTPBalancer` per element of the response,
      in order. */
  function HttpBalancers(conn: Value, response: seq<map<string, Value>>): (r: seq<Value>)
    requires forall i :: 0 <= i < |response| ==> Balancer.BalancerPayload(Balancer.Http, response[i])
    ensures |r| == |response|
    ensures forall i :: 0 <= i < |r| ==>
      r[i] == VObj(HttpBalancer, Balancer.BalancerAttributes(Balancer.Http, conn, response[i]))
  {
    seq(|response|, i requires 0 <= i < |response| =>
      VObj(HttpBalancer, Balancer.BalancerAttributes(Balancer.Http, conn, response[i])))
  }
}
