/** `APIObject.__init__`: the attributes of every object the API returns.
    `self.conn` is set first, then one attribute per payload key, then one per
    default whose key the payload lacks. The object's attributes are modelled
    as the dict they form. */
module ApiObject {
  import opened Values

  /** The attribute dict after `__init__`: every payload key keeps its payload
      value, a default only fills a key the payload lacks, and `conn` is the
      constructor argument unless the payload or a default names it. */
  function Attributes(conn: Value, json: map<string, Value>, defaults: map<string, Value>): (attrs: map<string, Value>)
    ensures attrs.Keys == {"conn"} + json.Keys + defaults.Keys
    ensures forall k :: k in json ==> attrs[k] == json[k]
    ensures forall k :: k in defaults && k !in json ==> attrs[k] == defaults[k]
    ensures "conn" !in json && "conn" !in defaults ==> attrs["conn"] == conn
  {
    map["conn" := conn] + defaults + json
  }

  /** Without defaults the attributes are the payload plus `conn`, and a
      payload `conn` key replaces the connection. */
  lemma NoDefaults(conn: Value, json: map<string, Value>)
    ensures Attributes(conn, json, map[]) == if "conn" in json then json else json["conn" := conn]
  {
  }

  /** The two `setattr` loops of `__init__`, walking the keys in whatever
      order the dicts give them. */
  method SetAttributes(conn: Value, json: map<string, Value>, defaults: map<string, Value>)
    returns (attrs: map<string, Value>)
    ensures attrs == Attributes(conn, json, defaults)
  {
    attrs := map["conn" := conn];
    var todo := json.Keys;
    while todo != {}
      invariant todo <= json.Keys
      invariant attrs.Keys == {"conn"} + (json.Keys - todo)
      invariant forall k :: k in json && k !in todo ==> attrs[k] == json[k]
      invariant "conn" !in json || "conn" in todo ==> attrs["conn"] == conn
      decreases todo
    {
      var key :| key in todo;
      attrs := attrs[key := json[key]];
      todo := todo - {key};
    }
    todo := defaults.Keys;
    while todo != {}
      invariant todo <= defaults.Keys
      invariant attrs.Keys == {"conn"} + json.Keys + (defaults.Keys - todo)
      invariant forall k :: k in json ==> attrs[k] == json[k]
      invariant forall k :: k in defaults && k !in json && k !in todo ==> attrs[k] == defaults[k]
      invariant "conn" !in json && ("conn" !in defaults || "conn" in todo) ==> attrs["conn"] == conn
      decreases todo
    {
      var key :| key in todo;
      if key !in json {
        attrs := attrs[key := defaults[key]];
      }
      todo := todo - {key};
    }
    var spec := Attributes(conn, json, defaults);
    assert forall k :: k in attrs ==> attrs[k] == spec[k];
  }

  /** `Kind(conn, payload)` for a wrapper whose `__init__` is `APIObject`'s. */
  function Wrap(kind: Kind, conn: Value, payload: Value): (r: Value)
    requires payload.VDict?
    ensures r.VObj? && r.kind == kind
    ensures r.attrs.Keys == {"conn"} + payload.fields.Keys
    ensures forall k :: k in payload.fields ==> r.attrs[k] == payload.fields[k]
    ensures "conn" !in payload.fields ==> r.attrs["conn"] == conn
  {
    VObj(kind, Attributes(conn, payload.fields, map[]))
  }

  predicate AllDicts(items: seq<Value>)
  {
    forall i :: 0 <= i < |items| ==> items[i].VDict?
  }

  /** `[Kind(conn, x) for x in items]`. */
  function WrapEach(kind: Kind, conn: Value, items: seq<Value>): (r: seq<Value>)
    requires AllDicts(items)
    ensures |r| == |items|
    ensures forall i :: 0 <= i < |r| ==>
      r[i].VObj? && r[i].kind == kind && r[i].attrs.Keys == {"conn"} + items[i].fields.Keys
    ensures forall i, k :: 0 <= i < |r| && k in items[i].fields ==> r[i].attrs[k] == items[i].fields[k]
    ensures forall i :: 0 <= i < |r| && "conn" !in items[i].fields ==> r[i].attrs["conn"] == conn
  {
    seq(|items|, i requires 0 <= i < |items| => Wrap(kind, conn, items[i]))
  }
}
