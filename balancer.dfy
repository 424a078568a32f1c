/** The two load balancer classes, `LoadBalancer` and `HTTPBalancer`. They
    build the same requests, the HTTP one under an extra `/http` segment,
    and wrap the same nested payloads, except that only `LoadBalancer` wraps
    a `monitor`. */
module Balancer {
  import opened Common
  import opened Strings
  import opened Values
  import opened FormEncoding
  import opened ApiObject

  datatype Flavor = Classic | Http

  /** The segments every request path of one balancer starts with. */
  function Root(flavor: Flavor, uuid: string): seq<string>
  {
    match flavor
    case Classic => [uuid]
    case Http => ["http", uuid]
  }

  /** The same prefix as the source writes it: `"/%s" % uuid` or
      `"/http/%s" % uuid`. */
  function Prefix(flavor: Flavor, uuid: string): string
  {
    match flavor
    case Classic => "/" + uuid
    case Http => "/http/" + uuid
  }

  /** One `(ip, port, weight)` tuple. */
  datatype Backend = Backend(ip: string, port: int, weight: int)

  /** `"%s:%i:%i" % (ip, port, weight)`. */
  function FormatBackend(b: Backend): string
  {
    b.ip + ":" + IntToString(b.port) + ":" + IntToString(b.weight)
  }

  /** How a server reads a backend string back: three colon-separated
      fields, the last two integers. */
  function ParseBackend(s: string): Option<Backend>
  {
    var parts := Split(s, ':');
    if |parts| != 3 then None
    else
      match (ParseInt(parts[1]), ParseInt(parts[2]))
      case (Some(port), Some(weight)) => Some(Backend(parts[0], port, weight))
      case _ => None
  }

  lemma NoColonInInt(n: int)
    ensures ':' !in IntToString(n)
  {
    var s := IntToString(n);
    forall i | 0 <= i < |s| ensures s[i] != ':' {
      assert IsDigit(s[i]) || s[i] == '-';
    }
  }

  /** A backend whose address holds no colon is read back exactly. */
  lemma BackendRoundTrip(b: Backend)
    requires ':' !in b.ip
    ensures ParseBackend(FormatBackend(b)) == Some(b)
  {
    var port := IntToString(b.port);
    var weight := IntToString(b.weight);
    NoColonInInt(b.port);
    NoColonInInt(b.weight);
    assert Join([port, weight], ':') == port + [':'] + weight by {
      assert [port, weight][1..] == [weight];
    }
    assert Join([b.ip, port, weight], ':') == b.ip + [':'] + Join([port, weight], ':') by {
      assert [b.ip, port, weight][1..] == [port, weight];
    }
    assert FormatBackend(b) == Join([b.ip, port, weight], ':');
    SplitJoin([b.ip, port, weight], ':');
    IntRoundTrip(b.port);
    IntRoundTrip(b.weight);
  }

  /** `["%s:%i:%i" % b for b in backends]`. */
  function FormatBackends(backends: seq<Backend>): (r: seq<Value>)
    ensures |r| == |backends|
    ensures forall i :: 0 <= i < |r| ==> r[i] == VStr(FormatBackend(backends[i]))
  {
    seq(|backends|, i requires 0 <= i < |backends| => VStr(FormatBackend(backends[i])))
  }

  /** The params of `modify_backend`: exactly the fields given as something
      other than `None`, with the value given. */
  function BackendFields(ip: Value, port: Value, weight: Value): (p: map<string, Value>)
    ensures p.Keys <= {"ip", "port", "weight"}
    ensures "ip" in p <==> ip != VNone
    ensures "port" in p <==> port != VNone
    ensures "weight" in p <==> weight != VNone
    ensures "ip" in p ==> p["ip"] == ip
    ensures "port" in p ==> p["port"] == port
    ensures "weight" in p ==> p["weight"] == weight
  {
    (if ip != VNone then map["ip" := ip] else map[]) +
    (if port != VNone then map["port" := port] else map[]) +
    (if weight != VNone then map["weight" := weight] else map[])
  }

  /** The three conditional inserts of `modify_backend`. */
  method ModifyBackendParams(ip: Value, port: Value, weight: Value) returns (params: map<string, Value>)
    ensures params == BackendFields(ip, port, weight)
  {
    params := map[];
    if ip != VNone {
      params := params["ip" := ip];
    }
    if port != VNone {
      params := params["port" := port];
    }
    if weight != VNone {
      params := params["weight" := weight];
    }
  }

  /** The request-building methods of a balancer. */
  datatype Op =
    | Enable
    | Disable
    | Rename(name: Value)
    | Delete
    | SetDomains(domains: Value)
    | AddDomain(domain: Value)
    | RemoveDomain(domainName: string)
    | SetBackends(backends: seq<Backend>)
    | AddBackend(backend: Backend)
    | RemoveBackend(backendUuid: string)
    | ModifyBackend(backendUuid: string, ip: Value, port: Value, weight: Value)

  /** The segments after the balancer's root. */
  function OpSegments(op: Op): seq<string>
  {
    match op
    case Enable => ["enable"]
    case Disable => ["disable"]
    case Rename(_) => ["name"]
    case Delete => []
    case SetDomains(_) => ["domain"]
    case AddDomain(_) => ["domain"]
    case RemoveDomain(d) => ["domain", d]
    case SetBackends(_) => ["backend"]
    case AddBackend(_) => ["backend"]
    case RemoveBackend(b) => ["backend", b]
    case ModifyBackend(b, _, _, _) => ["backend", b]
  }

  /** The part of the path after the balancer's prefix, as the source
      writes it. */
  function Suffix(op: Op): string
  {
    match op
    case Enable => "/enable"
    case Disable => "/disable"
    case Rename(_) => "/name"
    case Delete => ""
    case SetDomains(_) => "/domain"
    case AddDomain(_) => "/domain"
    case RemoveDomain(d) => "/domain/" + d
    case SetBackends(_) => "/backend"
    case AddBackend(_) => "/backend"
    case RemoveBackend(b) => "/backend/" + b
    case ModifyBackend(b, _, _, _) => "/backend/" + b
  }

  /** The request each method hands to `conn.request`. None sends a query;
      every path starts with the balancer's prefix; only the removals send
      a `DELETE`, and only they and `enable`/`disable` send no params. */
  function Descriptor(flavor: Flavor, uuid: string, op: Op): (r: Request)
    ensures r.path == Prefix(flavor, uuid) + Suffix(op)
    ensures Prefix(flavor, uuid) <= r.path
    ensures r.query == map[]
    ensures r.verb == "DELETE" <==> op.Delete? || op.RemoveDomain? || op.RemoveBackend?
    ensures r.verb == "POST" <==> op.Enable? || op.Disable? || op.SetDomains? || op.SetBackends?
    ensures r.verb == "PUT" <==> op.Rename? || op.AddDomain? || op.AddBackend? || op.ModifyBackend?
    ensures op.Rename? ==> r.params == map["name" := op.name]
    ensures op.SetDomains? ==> r.params == map["domains[]" := op.domains]
    ensures op.AddDomain? ==> r.params == map["domain" := op.domain]
    ensures op.SetBackends? ==> r.params == map["backends[]" := VList(FormatBackends(op.backends))]
    ensures op.AddBackend? ==> r.params == map["backend" := VStr(FormatBackend(op.backend))]
    ensures op.ModifyBackend? ==> r.params == BackendFields(op.ip, op.port, op.weight)
    ensures op.Enable? || op.Disable? || op.Delete? || op.RemoveDomain? || op.RemoveBackend? ==>
      r.params == map[]
  {
    var path := Prefix(flavor, uuid) + Suffix(op);
    match op
    case Enable => Bare("POST", path)
    case Disable => Bare("POST", path)
    case Rename(name) => Request("PUT", path, map["name" := name], map[])
    case Delete => Bare("DELETE", path)
    case SetDomains(domains) => Request("POST", path, map["domains[]" := domains], map[])
    case AddDomain(domain) => Request("PUT", path, map["domain" := domain], map[])
    case RemoveDomain(_) => Bare("DELETE", path)
    case SetBackends(backends) =>
      Request("POST", path, map["backends[]" := VList(FormatBackends(backends))], map[])
    case AddBackend(b) => Request("PUT", path, map["backend" := VStr(FormatBackend(b))], map[])
    case RemoveBackend(_) => Bare("DELETE", path)
    case ModifyBackend(_, ip, port, weight) => Request("PUT", path, BackendFields(ip, port, weight), map[])
  }

  /** The HTTP balancer sends what the classic one sends, with `/http` in
      front of the path. */
  lemma HttpUnderPrefix(uuid: string, op: Op)
    ensures Descriptor(Http, uuid, op) ==
      Descriptor(Classic, uuid, op).(path := "/http" + Descriptor(Classic, uuid, op).path)
  {
    var classic := Descriptor(Classic, uuid, op);
    assert "/http/" + uuid + Suffix(op) == "/http" + ("/" + uuid + Suffix(op));
    assert Descriptor(Http, uuid, op).path == "/http" + classic.path;
  }

  lemma PrefixPath(flavor: Flavor, uuid: string)
    ensures Prefix(flavor, uuid) == Path(Root(flavor, uuid))
  {
    match flavor
    case Classic => PathOfOne(uuid);
    case Http =>
      PathOfTwo("http", uuid);
      assert "/" + "http" + "/" == "/http/";
  }

  lemma SuffixPath(op: Op)
    ensures Suffix(op) == Path(OpSegments(op))
  {
    match op
    case Enable =>
      PathOfOne("enable");
      assert "/" + "enable" == "/enable";
    case Disable =>
      PathOfOne("disable");
      assert "/" + "disable" == "/disable";
    case Rename(_) =>
      PathOfOne("name");
      assert "/" + "name" == "/name";
    case Delete =>
    case SetDomains(_) =>
      PathOfOne("domain");
      assert "/" + "domain" == "/domain";
    case AddDomain(_) =>
      PathOfOne("domain");
      assert "/" + "domain" == "/domain";
    case RemoveDomain(d) =>
      PathOfTwo("domain", d);
      assert "/" + "domain" + "/" == "/domain/";
    case SetBackends(_) =>
      PathOfOne("backend");
      assert "/" + "backend" == "/backend";
    case AddBackend(_) =>
      PathOfOne("backend");
      assert "/" + "backend" == "/backend";
    case RemoveBackend(b) =>
      PathOfTwo("backend", b);
      assert "/" + "backend" + "/" == "/backend/";
    case ModifyBackend(b, _, _, _) =>
      PathOfTwo("backend", b);
      assert "/" + "backend" + "/" == "/backend/";
  }

  /** The path each method writes out is the path of the balancer's root
      followed by the method's own segments. */
  lemma DescriptorPath(flavor: Flavor, uuid: string, op: Op)
    ensures Descriptor(flavor, uuid, op).path == Path(Root(flavor, uuid) + OpSegments(op))
  {
    PathAppend(Root(flavor, uuid), OpSegments(op));
    PrefixPath(flavor, uuid);
    SuffixPath(op);
  }

  /** No uuid or domain of the request holds a slash. */
  predicate PlainNames(uuid: string, op: Op)
  {
    && '/' !in uuid
    && (op.RemoveDomain? ==> '/' !in op.domainName)
    && (op.RemoveBackend? || op.ModifyBackend? ==> '/' !in op.backendUuid)
  }

  /** The sent path splits back into the balancer's root and the method's
      segments. */
  lemma DescriptorSegments(flavor: Flavor, uuid: string, op: Op)
    requires PlainNames(uuid, op)
    ensures Split(Descriptor(flavor, uuid, op).path, '/') == [""] + Root(flavor, uuid) + OpSegments(op)
  {
    var segments := Root(flavor, uuid) + OpSegments(op);
    assert forall x :: x in segments ==> '/' !in x by {
      PlainSegments(flavor, uuid, op);
    }
    DescriptorPath(flavor, uuid, op);
    PathSegments(segments);
  }

  /** With plain names, none of the path's segments holds a slash. */
  lemma PlainSegments(flavor: Flavor, uuid: string, op: Op)
    requires PlainNames(uuid, op)
    ensures forall x :: x in Root(flavor, uuid) ==> '/' !in x
    ensures forall x :: x in OpSegments(op) ==> '/' !in x
    ensures forall x :: x in Root(flavor, uuid) + OpSegments(op) ==> '/' !in x
  {
  }

  lemma BackendsExpanded(backends: seq<Backend>)
    ensures IsParamValue(VList(FormatBackends(backends)))
    ensures Expand("backends[]", VList(FormatBackends(backends))) ==
      seq(|backends|, i requires 0 <= i < |backends| => ("backends[]", FormatBackend(backends[i])))
  {
    var items := FormatBackends(backends);
    assert forall x :: x in items ==> IsScalar(x);
  }

  /** Each expanded `backends[]` pair reads back as its tuple. */
  lemma BackendPairsReadBack(backends: seq<Backend>)
    requires forall i :: 0 <= i < |backends| ==> ':' !in backends[i].ip
    ensures IsParamValue(VList(FormatBackends(backends)))
    ensures var pairs := Expand("backends[]", VList(FormatBackends(backends)));
      && |pairs| == |backends|
      && forall i :: 0 <= i < |pairs| ==> pairs[i].0 == "backends[]" && ParseBackend(pairs[i].1) == Some(backends[i])
  {
    BackendsExpanded(backends);
    forall i | 0 <= i < |backends| ensures ParseBackend(FormatBackend(backends[i])) == Some(backends[i]) {
      BackendRoundTrip(backends[i]);
    }
  }

  /** The form body of `set_backends` carries one `backends[]` pair per
      tuple, in order, and each pair's value reads back as its tuple. */
  lemma SetBackendsEncoded(flavor: Flavor, uuid: string, backends: seq<Backend>, order: seq<string>)
    requires forall i :: 0 <= i < |backends| ==> ':' !in backends[i].ip
    requires IsKeyOrder(order, Descriptor(flavor, uuid, SetBackends(backends)).params)
    ensures var pairs := PairsWithKey(FormPairs(Descriptor(flavor, uuid, SetBackends(backends)).params, order), "backends[]");
      && |pairs| == |backends|
      && forall i :: 0 <= i < |pairs| ==> pairs[i].0 == "backends[]" && ParseBackend(pairs[i].1) == Some(backends[i])
  {
    var params := Descriptor(flavor, uuid, SetBackends(backends)).params;
    BackendPairsReadBack(backends);
    FormPairsOfKey(params, order, "backends[]");
  }

  /** The wrapper kinds of each flavour. */
  function BalancerKind(flavor: Flavor): Kind
  {
    match flavor
    case Classic => LoadBalancer
    case Http => HttpBalancer
  }

  function BackendKind(flavor: Flavor): Kind
  {
    match flavor
    case Classic => LoadBalancerBackend
    case Http => HttpBalancerBackend
  }

  function ActionKind(flavor: Flavor): Kind
  {
    match flavor
    case Classic => LoadBalancerAction
    case Http => HttpBalancerAction
  }

  /** A payload the constructor accepts: `backends` and `history` are present
      (they have no defaults), `backends` and a truthy `history` are lists of
      dicts, and a classic balancer's `monitor` is a dict. */
  predicate BalancerPayload(flavor: Flavor, json: map<string, Value>)
  {
    && "backends" in json && json["backends"].VList? && AllDicts(json["backends"].items)
    && "history" in json
    && (Truthy(json["history"]) ==> json["history"].VList? && AllDicts(json["history"].items))
    && (flavor == Classic ==> "monitor" in json && json["monitor"].VDict?)
  }

  /** The attributes once `__init__` is done. */
  function BalancerAttributes(flavor: Flavor, conn: Value, json: map<string, Value>): map<string, Value>
    requires BalancerPayload(flavor, json)
  {
    var merged := Attributes(conn, json, map[]);
    var history := merged["history"];
    var attrs := merged["backends" := VList(WrapEach(BackendKind(flavor), conn, merged["backends"].items))]
                       ["history" := if Truthy(history) then VList(WrapEach(ActionKind(flavor), conn, history.items))
                                     else VList([])];
    if flavor == Classic then attrs["monitor" := Wrap(LoadBalancerBackendMonitor, conn, merged["monitor"])]
    else attrs
  }

  /** Every payload key is an attribute, `backends` is wrapped one by one,
      `history` is wrapped one by one when truthy and `[]` otherwise, only a
      classic balancer wraps its `monitor`, and everything else is kept. */
  lemma BalancerAttributesSpec(flavor: Flavor, conn: Value, json: map<string, Value>)
    requires BalancerPayload(flavor, json)
    ensures var attrs := BalancerAttributes(flavor, conn, json);
      && attrs.Keys == {"conn"} + json.Keys
      && ("conn" !in json ==> attrs["conn"] == conn)
      && attrs["backends"] == VList(WrapEach(BackendKind(flavor), conn, json["backends"].items))
      && (Truthy(json["history"]) ==>
            attrs["history"] == VList(WrapEach(ActionKind(flavor), conn, json["history"].items)))
      && (!Truthy(json["history"]) ==> attrs["history"] == VList([]))
      && (flavor == Classic ==> attrs["monitor"] == Wrap(LoadBalancerBackendMonitor, conn, json["monitor"]))
      && (forall k :: k in json && k != "backends" && k != "history" && (flavor == Classic ==> k != "monitor") ==>
            attrs[k] == json[k])
  {
  }

  /** `LoadBalancer(conn, json)` / `HTTPBalancer(conn, json)`: the merge,
      then the fields reassigned one after the other. */
  method NewBalancer(flavor: Flavor, conn: Value, json: map<string, Value>) returns (balancer: Value)
    requires BalancerPayload(flavor, json)
    ensures balancer == VObj(BalancerKind(flavor), BalancerAttributes(flavor, conn, json))
  {
    var attrs := SetAttributes(conn, json, map[]);
    attrs := attrs["backends" := VList(WrapEach(BackendKind(flavor), conn, attrs["backends"].items))];
    if flavor == Classic {
      attrs := attrs["monitor" := Wrap(LoadBalancerBackendMonitor, conn, attrs["monitor"])];
    }
    if Truthy(attrs["history"]) {
      attrs := attrs["history" := VList(WrapEach(ActionKind(flavor), conn, attrs["history"].items))];
    } else {
      attrs := attrs["history" := VList([])];
    }
    balancer := VObj(BalancerKind(flavor), attrs);
  }
}
