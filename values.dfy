/** The values that flow through the client: decoded JSON payloads, the
    Python objects the wrappers build from them, and the request descriptor
    every wrapper hands to `conn.request`. */
module Values {
  import Strings

  /** Which wrapper class a wrapped payload belongs to. `Instance` is a class
      of its own (see ComputingObjects); the others are never changed after
      construction and are kept as values. */
  datatype Kind =
    | Network
    | NetInterface
    | Image
    | Operation
    | LoadBalancerBackend
    | LoadBalancerAction
    | LoadBalancerBackendMonitor
    | HttpBalancerBackend
    | HttpBalancerAction
    | LoadBalancer
    | HttpBalancer

  /** A Python value as the library sees it: JSON scalars, lists and dicts,
      a wrapped API object (its attribute dict), and a connection handle. */
  datatype Value =
    | VNone
    | VBool(b: bool)
    | VInt(i: int)
    | VStr(s: string)
    | VList(items: seq<Value>)
    | VDict(fields: map<string, Value>)
    | VObj(kind: Kind, attrs: map<string, Value>)
    | VConn(id: nat)

  /** Python truthiness: None, False, 0, "" and empty containers are false. */
  predicate Truthy(v: Value)
  {
    match v
    case VNone => false
    case VBool(b) => b
    case VInt(i) => i != 0
    case VStr(s) => s != ""
    case VList(items) => items != []
    case VDict(fields) => fields != map[]
    case VObj(_, _) => true
    case VConn(_) => true
  }

  predicate IsScalar(v: Value)
  {
    v.VNone? || v.VBool? || v.VInt? || v.VStr?
  }

  /** Python's `str(v)` (and `"%s" % v`) on a scalar. */
  function Str(v: Value): string
    requires IsScalar(v)
  {
    match v
    case VNone => "None"
    case VBool(b) => if b then "True" else "False"
    case VInt(i) => Strings.IntToString(i)
    case VStr(s) => s
  }

  /** What a wrapper passes to `conn.request(method, path, params,
      query_params)`. An omitted `params` or `query_params` is the empty map:
      the request code only ever tests them for truthiness. */
  datatype Request = Request(
    verb: string,
    path: string,
    params: map<string, Value>,
    query: map<string, Value>)

  /** A request without form or query parameters. */
  function Bare(verb: string, path: string): Request
  {
    Request(verb, path, map[], map[])
  }
}
