/** `ComputingConnection`: the request each call hands to `conn.request`
    (verb, path under `base_url`, form params, query params), and how the
    decoded response becomes wrapped objects. */
module ComputingConnection {
  import opened Strings
  import opened Values
  import opened FormEncoding
  import opened Connection
  import opened ComputingObjects

  /** `base_url`: absolute, and without a trailing slash, so a path that
      starts with `/` appends to it without doubling the separator. */
  function BaseUrl(): (u: string)
    ensures |u| > 0 && u[0] == '/' && u[|u| - 1] != '/'
    ensures u == Path(["api", "v1", "computing"])
  {
    "/api/v1/computing"
  }

  /** The base URL followed by a request path splits into the base's segments
      and then the request's own. */
  lemma {:induction false} UrlSegments(segments: seq<string>)
    requires forall s :: s in segments ==> '/' !in s
    ensures Split(BaseUrl() + Path(segments), '/') == ["", "api", "v1", "computing"] + segments
  {
    PathAppend(["api", "v1", "computing"], segments);
    PathSegments(["api", "v1", "computing"] + segments);
  }

  /** The calls of `ComputingConnection` that only build a request. */
  datatype Call =
    | ListInstances(actions: Value, vpsimage: Value, cost: Value)
    | ListNetworks
    | ListImages
    | ListInstanceInterfaces(uuid: string)
    | GetInstance(uuid: string, actions: Value, vpsimage: Value, cost: Value)
    | GetImage(uuid: string)
    | DeleteInstance(uuid: string)
    | DeleteImage(uuid: string)
    | AddNetworkInterface(uuid: string, networkUuid: string, interfaceSeq: Value)

  /** The path of each call as a list of segments. */
  function Segments(c: Call): seq<string>
  {
    match c
    case ListInstances(_, _, _) => ["instance"]
    case ListNetworks => ["network"]
    case ListImages => ["image"]
    case ListInstanceInterfaces(uuid) => ["instance", uuid, "interface"]
    case GetInstance(uuid, _, _, _) => ["instance", uuid]
    case GetImage(uuid) => ["image", uuid]
    case DeleteInstance(uuid) => ["instance", uuid]
    case DeleteImage(uuid) => ["image", uuid]
    case AddNetworkInterface(uuid, _, _) => ["instance", uuid, "interface"]
  }

  /** The query of `list_instances` and `get_instance`. */
  function InstanceQuery(actions: Value, vpsimage: Value, cost: Value): map<string, Value>
  {
    map["actions" := actions, "vpsimage" := vpsimage, "cost" := cost]
  }

  /** The request each call sends. Only the instance reads carry a query,
      with exactly the keys `actions`, `vpsimage` and `cost`; only
      `add_network_interface` carries form params, exactly `network_uuid` and
      `seq`; the deletes are the only `DELETE`s. */
  function Descriptor(c: Call): (r: Request)
    ensures r.verb == (if c.DeleteInstance? || c.DeleteImage? then "DELETE"
                       else if c.AddNetworkInterface? then "POST" else "GET")
    ensures r.query != map[] <==> c.ListInstances? || c.GetInstance?
    ensures c.ListInstances? || c.GetInstance? ==>
      && r.query.Keys == {"actions", "vpsimage", "cost"}
      && r.query["actions"] == c.actions
      && r.query["vpsimage"] == c.vpsimage
      && r.query["cost"] == c.cost
    ensures r.params != map[] <==> c.AddNetworkInterface?
    ensures c.AddNetworkInterface? ==>
      && r.params.Keys == {"network_uuid", "seq"}
      && r.params["network_uuid"] == VStr(c.networkUuid)
      && r.params["seq"] == c.interfaceSeq
  {
    match c
    case ListInstances(actions, vpsimage, cost) =>
      assert "actions" in InstanceQuery(actions, vpsimage, cost);
      Request("GET", "/instance", map[], InstanceQuery(actions, vpsimage, cost))
    case ListNetworks =>
      Bare("GET", "/network")
    case ListImages =>
      Bare("GET", "/image")
    case ListInstanceInterfaces(uuid) =>
      Bare("GET", "/instance/" + uuid + "/" + "interface")
    case GetInstance(uuid, actions, vpsimage, cost) =>
      assert "actions" in InstanceQuery(actions, vpsimage, cost);
      Request("GET", "/instance/" + uuid, map[], InstanceQuery(actions, vpsimage, cost))
    case GetImage(uuid) =>
      Bare("GET", "/image/" + uuid)
    case DeleteInstance(uuid) =>
      Bare("DELETE", "/instance/" + uuid)
    case DeleteImage(uuid) =>
      Bare("DELETE", "/image/" + uuid)
    case AddNetworkInterface(uuid, networkUuid, interfaceSeq) =>
      var params := map["network_uuid" := VStr(networkUuid), "seq" := interfaceSeq];
      assert "seq" in params;
      Request("POST", "/instance/" + uuid + "/" + "interface", params, map[])
  }

  /** The path each call writes out is the path of its segments. */
  lemma DescriptorPath(c: Call)
    ensures Descriptor(c).path == Path(Segments(c))
  {
    match c
    case ListInstances(_, _, _) =>
      PathOfOne("instance");
      assert "/" + "instance" == "/instance";
    case ListNetworks =>
      PathOfOne("network");
      assert "/" + "network" == "/network";
    case ListImages =>
      PathOfOne("image");
      assert "/" + "image" == "/image";
    case ListInstanceInterfaces(uuid) => InstancePath(uuid, "interface");
    case GetInstance(uuid, _, _, _) => InstancePath(uuid, "");
    case GetImage(uuid) => ImagePath(uuid);
    case DeleteInstance(uuid) => InstancePath(uuid, "");
    case DeleteImage(uuid) => ImagePath(uuid);
    case AddNetworkInterface(uuid, _, _) => InstancePath(uuid, "interface");
  }

  lemma InstancePath(uuid: string, sub: string)
    ensures Path(["instance", uuid]) == "/instance/" + uuid
    ensures Path(["instance", uuid, sub]) == "/instance/" + uuid + "/" + sub
  {
    PathOfTwo("instance", uuid);
    PathOfThree("instance", uuid, sub);
    assert "/" + "instance" + "/" == "/instance/";
  }

  lemma ImagePath(uuid: string)
    ensures Path(["image", uuid]) == "/image/" + uuid
  {
    PathOfTwo("image", uuid);
    assert "/" + "image" + "/" == "/image/";
  }

  /** No uuid of the call holds a slash. */
  predicate PlainUuids(c: Call)
  {
    !c.ListInstances? && !c.ListNetworks? && !c.ListImages? ==> '/' !in c.uuid
  }

  /** The sent path splits back into the call's segments. */
  lemma DescriptorSegments(c: Call)
    requires PlainUuids(c)
    ensures Split(Descriptor(c).path, '/') == [""] + Segments(c)
  {
    var segments := Segments(c);
    assert forall x :: x in segments ==> '/' !in x by {
      PlainSegments(c);
    }
    DescriptorPath(c);
    PathSegments(segments);
  }

  /** With a plain uuid, none of the call's segments holds a slash. */
  lemma PlainSegments(c: Call)
    requires PlainUuids(c)
    ensures forall x :: x in Segments(c) ==> '/' !in x
  {
  }

  /** Two calls with plain uuids that send the same request are the same
      call: every call has a request of its own. */
  lemma DescriptorsDistinct(c1: Call, c2: Call)
    requires PlainUuids(c1) && PlainUuids(c2)
    requires Descriptor(c1) == Descriptor(c2)
    ensures c1 == c2
  {
    DescriptorSegments(c1);
    DescriptorSegments(c2);
    assert Segments(c1) == ([""] + Segments(c1))[1..] == ([""] + Segments(c2))[1..] == Segments(c2);
  }

  /** With the boolean flags the callers pass, each query value goes out as
      the literal `true` or `false`. */
  lemma InstanceQueryRendered(actions: bool, vpsimage: bool, cost: bool)
    ensures RenderQuery(InstanceQuery(VBool(actions), VBool(vpsimage), VBool(cost))) ==
      InstanceQuery(VStr(if actions then "true" else "false"),
                    VStr(if vpsimage then "true" else "false"),
                    VStr(if cost then "true" else "false"))
  {
    var q := InstanceQuery(VBool(actions), VBool(vpsimage), VBool(cost));
    assert q["actions"].VBool? && q["vpsimage"].VBool? && q["cost"].VBool?;
  }

  function Strs(items: seq<string>): (r: seq<Value>)
    ensures |r| == |items|
    ensures forall i :: 0 <= i < |r| ==> r[i] == VStr(items[i])
  {
    seq(|items|, i requires 0 <= i < |items| => VStr(items[i]))
  }

  /** The form params of `create_instance`: hostname, size, image and the
      network list always, and `ssh_key` exactly when it is truthy. */
  function CreateInstanceParams(hostname: string, size: Value, imageUuid: string,
                                networks: seq<string>, sshKey: Value): (p: map<string, Value>)
    ensures p.Keys == {"hostname", "size", "image_uuid", "networks[]"} +
      (if Truthy(sshKey) then {"ssh_key"} else {})
    ensures p["hostname"] == VStr(hostname) && p["size"] == size && p["image_uuid"] == VStr(imageUuid)
    ensures p["networks[]"] == VList(Strs(networks))
    ensures "ssh_key" in p ==> p["ssh_key"] == sshKey
  {
    var base := map["hostname" := VStr(hostname), "size" := size, "image_uuid" := VStr(imageUuid),
                    "networks[]" := VList(Strs(networks))];
    if Truthy(sshKey) && sshKey != VStr("") then base["ssh_key" := sshKey] else base
  }

  /** `create_instance`: the params dict is built in three steps, then sent
      as a `POST` to `/instance`. */
  method CreateInstance(hostname: string, size: Value, imageUuid: string,
                        networks: seq<string>, sshKey: Value) returns (r: Request)
    ensures r == Request("POST", "/instance", CreateInstanceParams(hostname, size, imageUuid, networks, sshKey), map[])
  {
    var params := map["hostname" := VStr(hostname), "size" := size, "image_uuid" := VStr(imageUuid)];
    params := params["networks[]" := VList(Strs(networks))];
    if Truthy(sshKey) && sshKey != VStr("") {
      params := params["ssh_key" := sshKey];
    }
    r := Request("POST", "/instance", params, map[]);
  }

  /** Whatever order the dict walks its keys in, the form body carries one
      `networks[]` pair per network, in the order given, and an `ssh_key`
      pair exactly when the key is truthy. */
  lemma CreateInstanceEncoded(hostname: string, size: Value, imageUuid: string,
                              networks: seq<string>, sshKey: Value, order: seq<string>)
    requires IsScalar(size) && IsScalar(sshKey)
    requires IsKeyOrder(order, CreateInstanceParams(hostname, size, imageUuid, networks, sshKey))
    ensures var pairs := FormPairs(CreateInstanceParams(hostname, size, imageUuid, networks, sshKey), order);
      && PairsWithKey(pairs, "networks[]") == seq(|networks|, i requires 0 <= i < |networks| => ("networks[]", networks[i]))
      && PairsWithKey(pairs, "ssh_key") == (if Truthy(sshKey) then [("ssh_key", Str(sshKey))] else [])
  {
    var p := CreateInstanceParams(hostname, size, imageUuid, networks, sshKey);
    CreateParamsAreForm(hostname, size, imageUuid, networks, sshKey);
    var pairs := FormPairs(p, order);
    assert "networks[]" in order;
    FormPairsOfKey(p, order, "networks[]");
    NetworksExpanded(networks);
    FormPairsOfKey(p, order, "ssh_key");
    assert "ssh_key" in p <==> Truthy(sshKey);
    assert "ssh_key" in order <==> "ssh_key" in p;
    if Truthy(sshKey) {
      assert p["ssh_key"] == sshKey;
      assert Expand("ssh_key", sshKey) == [("ssh_key", Str(sshKey))];
    }
  }

  /** Every value of the `create_instance` params is one urlencode takes. */
  lemma CreateParamsAreForm(hostname: string, size: Value, imageUuid: string,
                            networks: seq<string>, sshKey: Value)
    requires IsScalar(size) && IsScalar(sshKey)
    ensures IsParamMap(CreateInstanceParams(hostname, size, imageUuid, networks, sshKey))
  {
    NetworksExpanded(networks);
  }

  /** A list of network uuids is a form value, and expands to one pair per
      uuid. */
  lemma NetworksExpanded(networks: seq<string>)
    ensures IsParamValue(VList(Strs(networks)))
    ensures Expand("networks[]", VList(Strs(networks))) ==
      seq(|networks|, i requires 0 <= i < |networks| => ("networks[]", networks[i]))
  {
    var items := Strs(networks);
    assert forall x :: x in items ==> IsScalar(x);
  }

  /** `list_instances` (and `get_instance` for one payload): one new
      `Instance` per element of the response, in order. */
  method InstancesOf(conn: Value, response: seq<map<string, Value>>) returns (instances: seq<Instance>)
    requires forall i :: 0 <= i < |response| ==> InstancePayload(response[i])
    ensures |instances| == |response|
    ensures forall i :: 0 <= i < |instances| ==> fresh(instances[i])
    ensures forall i, j :: 0 <= i < j < |instances| ==> instances[i] != instances[j]
    ensures forall i :: 0 <= i < |instances| ==>
      instances[i].attrs == InstanceAttributes(conn, response[i])
  {
    ghost var expected := seq(|response|, i requires 0 <= i < |response| => InstanceAttributes(conn, response[i]));
    instances := [];
    var n := 0;
    while n < |response|
      invariant 0 <= n <= |response| && |instances| == n
      invariant forall i :: 0 <= i < n ==> instances[i].attrs == expected[i]
      invariant forall i :: 0 <= i < n ==> fresh(instances[i])
      invariant forall i, j :: 0 <= i < j < n ==> instances[i] != instances[j]
    {
      var instance := new Instance(conn, response[n]);
      assert instance.attrs == expected[n];
      assert forall i :: 0 <= i < n ==> instances[i] != instance;
      instances := instances + [instance];
      n := n + 1;
    }
    assert forall i :: 0 <= i < |response| ==> expected[i] == InstanceAttributes(conn, response[i]);
  }
}
