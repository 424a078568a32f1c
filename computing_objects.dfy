/** The computing resource objects: `Network`, `VPSNetInterface`, `VPSImage`,
    `Operation` (never changed after construction, so values), and `Instance`
    (a class: `list_interfaces` overwrites one of its attributes). */
module ComputingObjects {
  import opened Common
  import opened Strings
  import opened Values
  import opened ApiObject
  import opened Errors

  /** A payload `VPSNetInterface` can be built from: a dict whose `network`
      is a dict (anything else fails in `Network(conn, self.network)`). */
  predicate NetInterfacePayload(v: Value)
  {
    v.VDict? && "network" in v.fields && v.fields["network"].VDict?
  }

  /** `VPSNetInterface(conn, payload)`: the payload's attributes, with
      `network` replaced by a `Network` built from it. */
  function NetInterface(conn: Value, payload: Value): (r: Value)
    requires NetInterfacePayload(payload)
    ensures r.VObj? && r.kind == Values.NetInterface
    ensures r.attrs.Keys == {"conn"} + payload.fields.Keys
    ensures r.attrs["network"] == Wrap(Network, conn, payload.fields["network"])
    ensures forall k :: k in payload.fields && k != "network" ==> r.attrs[k] == payload.fields[k]
    ensures "conn" !in payload.fields ==> r.attrs["conn"] == conn
  {
    var attrs := Attributes(conn, payload.fields, map[]);
    VObj(Values.NetInterface, attrs["network" := Wrap(Network, conn, attrs["network"])])
  }

  function NetInterfaces(conn: Value, items: seq<Value>): (r: seq<Value>)
    requires forall i :: 0 <= i < |items| ==> NetInterfacePayload(items[i])
    ensures |r| == |items|
    ensures forall i :: 0 <= i < |r| ==>
      && NetInterfacePayload(items[i])
      && r[i].VObj? && r[i].kind == Values.NetInterface
      && r[i].attrs.Keys == {"conn"} + items[i].fields.Keys
      && r[i].attrs["network"] == Wrap(Network, conn, items[i].fields["network"])
      && (forall k :: k in items[i].fields && k != "network" ==> r[i].attrs[k] == items[i].fields[k])
      && ("conn" !in items[i].fields ==> r[i].attrs["conn"] == conn)
  {
    seq(|items|, i requires 0 <= i < |items| => NetInterface(conn, items[i]))
  }

  /** The defaults `Instance` passes to `APIObject.__init__`. */
  const InstanceDefaults: map<string, Value> :=
    map["actions" := VList([]), "vpsimage" := VNone, "gross_cost_per_hour" := VNone]

  /** A payload `Instance(conn, payload)` accepts: `interfaces` is present (the
      comprehension over it fails otherwise) and holds interface payloads,
      `actions` when present is a list of dicts, and a truthy `vpsimage` is a
      dict. */
  predicate InstancePayload(json: map<string, Value>)
  {
    && "interfaces" in json && json["interfaces"].VList?
    && (forall i :: 0 <= i < |json["interfaces"].items| ==> NetInterfacePayload(json["interfaces"].items[i]))
    && ("actions" in json ==> json["actions"].VList? && AllDicts(json["actions"].items))
    && ("vpsimage" in json && Truthy(json["vpsimage"]) ==> json["vpsimage"].VDict?)
  }

  /** The attributes of an `Instance` once `__init__` is done: the merge with
      the defaults, then `interfaces`, `actions` and a truthy `vpsimage`
      re-wrapped. */
  function InstanceAttributes(conn: Value, json: map<string, Value>): map<string, Value>
    requires InstancePayload(json)
  {
    var merged := Attributes(conn, json, InstanceDefaults);
    var image := merged["vpsimage"];
    merged["interfaces" := VList(NetInterfaces(conn, merged["interfaces"].items))]
          ["actions" := VList(WrapEach(Operation, conn, merged["actions"].items))]
          ["vpsimage" := if Truthy(image) then Wrap(Image, conn, image) else image]
  }

  /** The defaults fill only missing keys, every other payload value is kept,
      `interfaces` and `actions` are wrapped one by one in order, and
      `vpsimage` is wrapped only when truthy. */
  lemma InstanceAttributesSpec(conn: Value, json: map<string, Value>)
    requires InstancePayload(json)
    ensures var attrs := InstanceAttributes(conn, json);
      && attrs.Keys == {"conn"} + json.Keys + InstanceDefaults.Keys
      && ("conn" !in json ==> attrs["conn"] == conn)
      && (forall k :: k in json && k != "interfaces" && k != "actions" && k != "vpsimage" ==>
            attrs[k] == json[k])
      && ("gross_cost_per_hour" !in json ==> attrs["gross_cost_per_hour"] == VNone)
      && attrs["interfaces"] == VList(NetInterfaces(conn, json["interfaces"].items))
      && ("actions" in json ==> attrs["actions"] == VList(WrapEach(Operation, conn, json["actions"].items)))
      && ("actions" !in json ==> attrs["actions"] == VList([]))
      && ("vpsimage" in json && Truthy(json["vpsimage"]) ==>
            attrs["vpsimage"] == Wrap(Image, conn, json["vpsimage"]))
      && ("vpsimage" in json && !Truthy(json["vpsimage"]) ==> attrs["vpsimage"] == json["vpsimage"])
      && ("vpsimage" !in json ==> attrs["vpsimage"] == VNone)
  {
  }

  /** The four power and backup actions of an instance. */
  datatype Action = Start | Stop | ForceStop | Backup

  function ActionName(a: Action): string
  {
    match a
    case Start => "start"
    case Stop => "stop"
    case ForceStop => "force_stop"
    case Backup => "backup"
  }

  /** The `NotImplementedError` of `remove_interface`. */
  datatype NotImplemented = NotImplemented

  class Instance {
    var attrs: map<string, Value>

    /** `Instance(conn, json_dict)`: merge with the defaults, then re-wrap
        `interfaces`, `actions` and a truthy `vpsimage`. */
    constructor (conn: Value, json: map<string, Value>)
      requires InstancePayload(json)
      ensures attrs == InstanceAttributes(conn, json)
    {
      var merged := SetAttributes(conn, json, InstanceDefaults);
      merged := merged["interfaces" := VList(NetInterfaces(conn, merged["interfaces"].items))];
      merged := merged["actions" := VList(WrapEach(Operation, conn, merged["actions"].items))];
      if Truthy(merged["vpsimage"]) {
        merged := merged["vpsimage" := Wrap(Image, conn, merged["vpsimage"])];
      }
      attrs := merged;
    }

    predicate HasUuid()
      reads this
    {
      "uuid" in attrs && attrs["uuid"].VStr?
    }

    /** `start`, `stop`, `force_stop`, `backup`: one POST to
        `/instance/<uuid>/<action>` without params. The path splits back into
        the uuid and the action, so each action on each instance has a path of
        its own. */
    function ActionRequest(a: Action): (r: Request)
      reads this
      requires HasUuid()
      ensures r.verb == "POST" && r.params == map[] && r.query == map[]
      ensures r.path == "/instance/" + attrs["uuid"].s + "/" + ActionName(a)
      ensures '/' !in attrs["uuid"].s ==>
        Split(r.path, '/') == ["", "instance", attrs["uuid"].s, ActionName(a)]
    {
      var uuid := attrs["uuid"].s;
      var segments := ["instance", uuid, ActionName(a)];
      assert '/' !in uuid ==> Split(Path(segments), '/') == [""] + segments by {
        if '/' !in uuid {
          PathSegments(segments);
        }
      }
      PathOfThree("instance", uuid, ActionName(a));
      assert "/" + "instance" + "/" == "/instance/";
      Bare("POST", Path(segments))
    }

    /** `list_interfaces`: `self.interfaces` becomes the list the connection
        fetched (`fetched`), and that same list is returned. */
    method ListInterfaces(fetched: seq<Value>) returns (interfaces: seq<Value>)
      modifies this
      ensures attrs == old(attrs)["interfaces" := VList(fetched)]
      ensures interfaces == fetched
    {
      attrs := attrs["interfaces" := VList(fetched)];
      interfaces := fetched;
    }

    /** `remove_interface` is not implemented: it always raises. */
    function RemoveInterface(index: int): (r: Result<(), NotImplemented>)
      ensures r == Failure(NotImplemented)
    {
      Failure(NotImplemented)
    }
  }

  function Hostname(i: Instance): string
    reads i
    requires HasHostname(i)
  {
    i.attrs["hostname"].s
  }

  predicate HasHostname(i: Instance)
    reads i
  {
    "hostname" in i.attrs && i.attrs["hostname"].VStr?
  }

  /** The lower-cased hostnames of the listed instances, in list order. */
  function LoweredHostnames(listed: seq<Instance>): (names: seq<string>)
    reads set i | i in listed
    requires forall j :: 0 <= j < |listed| ==> HasHostname(listed[j])
    ensures |names| == |listed|
    ensures forall j :: 0 <= j < |names| ==> names[j] == Lower(Hostname(listed[j]))
  {
    if |listed| == 0 then []
    else
      var last := |listed| - 1;
      var init := listed[..last];
      assert forall j :: 0 <= j < last ==> init[j] == listed[j];
      LoweredHostnames(init) + [Lower(Hostname(listed[last]))]
  }

  /** The positions of `lowered` among `names`: strictly increasing, and
      exactly the positions that hold it. */
  function MatchPositions(names: seq<string>, lowered: string): (idx: seq<int>)
    ensures forall j :: 0 <= j < |idx| ==> 0 <= idx[j] < |names|
    ensures forall j, k :: 0 <= j < k < |idx| ==> idx[j] < idx[k]
    ensures forall p :: 0 <= p < |names| ==> (p in idx <==> names[p] == lowered)
  {
    if |names| == 0 then []
    else
      var last := |names| - 1;
      var init := names[..last];
      var prefix := MatchPositions(init, lowered);
      assert forall p :: 0 <= p < last ==> init[p] == names[p];
      if names[last] == lowered then prefix + [last] else prefix
  }

  /** The listed instances whose lower-cased hostname is `lowered`, in list
      order: the list read at the matching positions, each once. */
  function MatchingHosts(listed: seq<Instance>, lowered: string): (r: seq<Instance>)
    reads set i | i in listed
    requires forall j :: 0 <= j < |listed| ==> HasHostname(listed[j])
    ensures var idx := MatchPositions(LoweredHostnames(listed), lowered);
      |r| == |idx| && forall j :: 0 <= j < |r| ==> r[j] == listed[idx[j]]
  {
    var idx := MatchPositions(LoweredHostnames(listed), lowered);
    seq(|idx|, j requires 0 <= j < |idx| => listed[idx[j]])
  }

  /** Hence every result is a listed instance that matches, and every
      matching listed instance is among the results. */
  lemma MatchingHostsMembers(listed: seq<Instance>, lowered: string)
    requires forall j :: 0 <= j < |listed| ==> HasHostname(listed[j])
    ensures var r := MatchingHosts(listed, lowered);
      && (forall j :: 0 <= j < |r| ==> r[j] in listed && Lower(Hostname(r[j])) == lowered)
      && (forall p :: 0 <= p < |listed| && Lower(Hostname(listed[p])) == lowered ==> listed[p] in r)
  {
    var r := MatchingHosts(listed, lowered);
    var names := LoweredHostnames(listed);
    var idx := MatchPositions(names, lowered);
    forall j | 0 <= j < |r| ensures r[j] in listed && Lower(Hostname(r[j])) == lowered {
      assert idx[j] in idx;
      assert names[idx[j]] == lowered;
    }
    forall p | 0 <= p < |listed| && Lower(Hostname(listed[p])) == lowered ensures listed[p] in r {
      assert names[p] == lowered;
      var j :| 0 <= j < |idx| && idx[j] == p;
      assert r[j] == listed[p];
    }
  }

  /** When every name is `lowered`, the positions are all of them, in
      order. */
  lemma {:induction false} AllPositions(names: seq<string>, lowered: string)
    requires forall j :: 0 <= j < |names| ==> names[j] == lowered
    ensures MatchPositions(names, lowered) == seq(|names|, (j: int) => j)
  {
    if |names| > 0 {
      var last := |names| - 1;
      AllPositions(names[..last], lowered);
      assert seq(last, (j: int) => j) + [last] == seq(|names|, (j: int) => j);
    }
  }

  /** When every listed hostname matches, the result is the list itself:
      same order, no instance repeated or dropped. */
  lemma MatchingAll(listed: seq<Instance>, lowered: string)
    requires forall j :: 0 <= j < |listed| ==> HasHostname(listed[j])
    requires forall j :: 0 <= j < |listed| ==> Lower(Hostname(listed[j])) == lowered
    ensures MatchingHosts(listed, lowered) == listed
  {
    AllPositions(LoweredHostnames(listed), lowered);
  }

  /** `Instance.get_by_hostname` over what `list_instances` returned: the
      case-insensitive matches in list order, or `TiktalikAPIError(404)` when
      there is none, so a successful result is never empty. */
  function GetByHostname(listed: seq<Instance>, hostname: string): (r: Result<seq<Instance>, TiktalikApiError>)
    reads set i | i in listed
    requires forall j :: 0 <= j < |listed| ==> HasHostname(listed[j])
    ensures r.Failure? <==> (forall j :: 0 <= j < |listed| ==> Lower(Hostname(listed[j])) != Lower(hostname))
    ensures r.Failure? ==> r.error == NewApiError(404)
    ensures r.Success? ==> |r.value| > 0 && r.value == MatchingHosts(listed, Lower(hostname))
    ensures r.Success? ==> forall j :: 0 <= j < |r.value| ==>
      r.value[j] in listed && Lower(Hostname(r.value[j])) == Lower(hostname)
  {
    var instances := MatchingHosts(listed, Lower(hostname));
    MatchingHostsMembers(listed, Lower(hostname));
    if |instances| == 0 then Failure(NewApiError(404))
    else
      assert exists k :: 0 <= k < |listed| && Lower(Hostname(listed[k])) == Lower(hostname) by {
        var k :| 0 <= k < |listed| && listed[k] == instances[0];
      }
      Success(instances)
  }
}
