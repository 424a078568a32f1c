# tiktalik client core, modelled in Dafny

This project models the Python client library for the Tiktalik cloud API.
It covers the part of the library that decides what goes over the wire,
up to the point where a socket would be opened.

- **`TiktalikAuthConnection.make_request`**:
  - the check that rejects a request carrying both a body and form params;
  - form encoding of the params (`urllib.urlencode(params, True)`), where a list value repeats its key;
  - rendering of boolean query values and the `?query` suffix on the path;
  - the hex `content-md5` header;
  - the `date` header;
  - the five-line canonical string and the `Authorization: TKAuth key:signature` header.

  The headers dict is a class (`Connection.Headers`) because the library fills it in place, sometimes the caller's own dict.
- **`APIObject.__init__`**: the merge of payload and defaults into an object's attributes.
- **`TiktalikAPIError`**.
- **The computing resources** (`Instance`, `VPSNetInterface`, `Network`, `VPSImage`, `Operation`) and `ComputingConnection`:
  - every call is modelled as the request descriptor it hands to `conn.request` (verb, path, form params, query params);
  - the response is wrapped element by element;
  - `create_instance` builds its params step by step;
  - `get_by_hostname` filters case-insensitively and fails with 404 when nothing matches.
- **The load balancers** (`LoadBalancer`, `HTTPBalancer`) and `HTTPBalancerConnection`:
  - the descriptors of `enable`, `disable`, `rename`, `delete`, the domain and backend operations, and `modify_backend`'s conditional params;
  - the `ip:port:weight` backend format;
  - the wrapping of `backends`, `history` and (classic only) `monitor`.

Modelling choices:

- The cryptographic and encoding library calls are fields of `Signing.Primitives`:
  - HMAC-SHA1 (RFC 2104) and base64 (section 4 of RFC 4648);
  - the hex MD5 digest;
  - `urllib.quote_plus`.

  The model fixes what each of them is applied to. It does not fix how they compute.
- The clock reading that fills a missing `date` is the input `now`.
- Python 2 dict iteration order is unspecified, and every dict walk is modelled for any order. The encoders take the order as a parameter (`order`, constrained by `FormEncoding.IsKeyOrder`). The `setattr` loops of `ApiObject.SetAttributes` pick each next key with an arbitrary choice. Every property is proved for all orders.
- Python values are `Values.Value`:
  - JSON null, booleans, integers and strings (no floats), lists and dicts;
  - a wrapped object as its kind plus attribute dict;
  - a connection handle.

  `Instance` is a class, since `list_interfaces` overwrites one of its attributes. The other wrapped objects never change after construction and are values.
- `content-md5` holds the hex digest, as the code writes it (tiktalik/connection.py:57-58). RFC 1864 section 2 asks for base64 of the digest; the model follows the code.

## Model

| member | source | states |
|---|---|---|
| Connection.RenderQuery | tiktalik/connection.py:44-51 | the rendered query has the same keys; a bool value becomes exactly "true" or "false", any other value is passed on unchanged, and an encodable query stays encodable |
| Connection.RenderQueryParams | tiktalik/connection.py:45-51 | the loop over `query_params` builds exactly the rendered query, whatever order it walks the keys in |
| Connection.ContentHeadersSpec | tiktalik/connection.py:40-58 | with form params `content-type` is forced to `application/x-www-form-urlencoded` (overwriting the caller's); a non-empty body gets `content-md5` equal to the hex MD5 of that body; every other header keeps its value, including a caller's `content-type` when there are no params and a caller's `content-md5` when the body is empty |
| Connection.Prepare | tiktalik/connection.py:35-36 | the request fails with the `ValueError` exactly when both the params and the body are non-empty; otherwise it succeeds with the caller's method |
| Connection.PreparedBodyAndPath | tiktalik/connection.py:40-54 | non-empty params become the body as their form encoding, otherwise the caller's body is sent; a non-empty query makes the path `path + "?" + encoded query`, otherwise the path is unchanged |
| Connection.PreparedHeaders | tiktalik/connection.py:38-74 | the sent headers are the caller's plus exactly `date`, `Authorization`, the forced content type and the MD5 of a non-empty body; every other caller header keeps its value, including a caller's `content-type` when there are no params and a caller's `content-md5` when the body is empty; an existing `date` is kept and a missing one is the clock's; `Authorization` signs the canonical string of the very path and headers that are sent |
| Connection.AuthConnection.constructor | tiktalik/connection.py:10-24 | key, secret, host, port and the SSL flag are stored as given (the secret with no format detection); the timeout is 5 |
| Connection.AuthConnection.AddAuthHeader | tiktalik/connection.py:69-76 | the dict itself becomes the signed headers of its old contents |
| Connection.AuthConnection.MakeRequest | tiktalik/connection.py:27-62 | the outcome equals `Prepare`; on the `ValueError` nothing is touched and no dict is created; a caller's non-empty dict is the one filled in place; an empty or absent dict is replaced by a fresh one and the caller's empty dict stays empty |
| Signing.SignedHeaders | tiktalik/connection.py:69-76 | the key set gains exactly `date` and `Authorization`; an existing `date` is kept and a missing one is set to the clock; every other header is unchanged; `Authorization` is `"TKAuth " + key + ":" + base64(HMAC-SHA1(secret, canonical string of the returned headers))` |
| Signing.CanonicalLines | tiktalik/connection.py:78-81 | when no field holds a newline, the canonical string splits on newlines into exactly method, `content-md5` or "", `content-type` or "", date and path, so it has four separators and no trailing newline |
| Signing.CanonicalWithoutBody | tiktalik/connection.py:78-81 | for any verb, a request whose only header is `date` yields the verb, two empty lines (no md5, no type), the date and the path |
| Signing.AuthorizationParts | tiktalik/connection.py:74 | the header value splits into the scheme `TKAuth` and `key:signature`, and that splits into key and signature, when neither holds a space or colon |
| FormEncoding.FormPairsOfKey | tiktalik/connection.py:41 | in any key order, the pairs encoded for one key are exactly that value's expansion: one pair per list element in list order, a single pair otherwise, none for an absent key |
| FormEncoding.UrlencodeRoundTrip | tiktalik/connection.py:41 | the encoded body decodes back to exactly the encoded pairs, given a quoting function that escapes `&` and `=` and has an inverse |
| ApiObject.Attributes | tiktalik/apiobject.py:29-39 | the key set is `conn` plus the payload's plus the defaults' keys; payload values always win; a default fills only a key the payload lacks; `conn` is the argument unless the payload or a default names it |
| ApiObject.SetAttributes | tiktalik/apiobject.py:32-39 | the two `setattr` loops, walking the keys in any order, produce exactly those attributes |
| ApiObject.NoDefaults | tiktalik/apiobject.py:29-35 | with no defaults the attributes are the payload plus `conn`, and a payload `conn` key replaces the connection |
| ApiObject.Wrap | tiktalik/apiobject.py:29-35 | a wrapper without defaults has the payload's keys plus `conn`, each payload value kept, and `conn` is the given connection unless the payload names one |
| ApiObject.WrapEach | tiktalik/computing/connection.py:65 | one wrapped object per payload element, same length and order, each keeping its element's values and carrying the given connection as `conn` unless its payload names one |
| Errors.NewApiError | tiktalik/error.py:12-19 | status and data are stored unchanged; a dict payload gives its `description`, anything else gives None; a dict without `description` is excluded |
| Errors.MessageStatus | tiktalik/error.py:21-22 | the message starts with `TiktalikAPIError:`, its second word reads back as the HTTP status, and the remaining words join back into the description |
| ComputingObjects.NetInterface | tiktalik/computing/objects.py:65-68 | the interface keeps every payload attribute except `network`, which becomes a `Network` built from the payload's `network` |
| ComputingObjects.NetInterfaces | tiktalik/computing/connection.py:89-90 | one interface per payload element, in order, each with its network wrapped, every other attribute (`uuid`, `ip`, `mac`, `seq`, ...) equal to its element's, and `conn` set unless the payload has one |
| ComputingObjects.InstanceAttributesSpec | tiktalik/computing/objects.py:143-151 | `actions=[]`, `vpsimage=None` and `gross_cost_per_hour=None` only where the payload lacks them; other payload values kept; `interfaces` and `actions` wrapped element-wise in order; `vpsimage` wrapped only when truthy |
| ComputingObjects.Instance.constructor | tiktalik/computing/objects.py:143-151 | the merge followed by the three reassignments yields exactly those attributes |
| ComputingObjects.Instance.ActionRequest | tiktalik/computing/objects.py:186-212 | `start`, `stop`, `force_stop` and `backup` each send one POST with no params to `/instance/<uuid>/<action>`, for any uuid; for a uuid without '/' that path splits back into `instance`, the uuid and the action name |
| ComputingObjects.Instance.ListInterfaces | tiktalik/computing/objects.py:222-223 | `interfaces` is replaced by the fetched list, that same list is returned, and no other attribute changes |
| ComputingObjects.Instance.RemoveInterface | tiktalik/computing/objects.py:232-236 | always fails with `NotImplementedError` |
| ComputingObjects.MatchPositions | tiktalik/computing/objects.py:172-173 | the positions the comprehension keeps are strictly increasing and are exactly the positions whose lower-cased hostname matches |
| ComputingObjects.MatchingHosts | tiktalik/computing/objects.py:172-173 | the result is the listed instances read at those positions, so it keeps list order and holds each match exactly once |
| ComputingObjects.MatchingHostsMembers | tiktalik/computing/objects.py:172-173 | every result is a listed instance whose lower-cased hostname matches, and every matching listed instance is in the result |
| ComputingObjects.MatchingAll | tiktalik/computing/objects.py:172-173 | when every listed hostname matches, the result is the list itself, in the same order and with no repeats |
| ComputingObjects.GetByHostname | tiktalik/computing/objects.py:172-176 | fails exactly when no listed hostname matches case-insensitively, and then with `TiktalikAPIError(404)`; a success is non-empty and is `MatchingHosts`: the matches in list order |
| ComputingConnection.BaseUrl | tiktalik/computing/connection.py:31-32 | the base URL is absolute, has no trailing slash, and is the path of `api`, `v1`, `computing` |
| ComputingConnection.UrlSegments | tiktalik/computing/connection.py:31-32 | the base URL followed by a request path splits into the base's segments and then the request's |
| ComputingConnection.Descriptor | tiktalik/computing/connection.py:51-191 | only `list_instances` and `get_instance` send a query, with exactly the keys `actions`, `vpsimage`, `cost`; only `add_network_interface` sends params, exactly `network_uuid` and `seq`; the deletes are the only DELETEs, and `add_network_interface` is the only POST among these calls |
| ComputingConnection.DescriptorPath | tiktalik/computing/connection.py:89-190 | every path as the source writes it is the path of the call's segments |
| ComputingConnection.DescriptorSegments | tiktalik/computing/connection.py:89-190 | with slash-free uuids the sent path splits back into the call's segments |
| ComputingConnection.DescriptorsDistinct | tiktalik/computing/connection.py:51-191 | two calls with slash-free uuids that send the same request are the same call |
| ComputingConnection.InstanceQueryRendered | tiktalik/computing/connection.py:51-52 | with boolean flags each of `actions`, `vpsimage`, `cost` goes out as `true` or `false` |
| ComputingConnection.CreateInstanceParams | tiktalik/computing/connection.py:144-148 | the params always hold `hostname`, `size`, `image_uuid` and `networks[]` (the given list), and hold `ssh_key` exactly when it is truthy |
| ComputingConnection.CreateInstance | tiktalik/computing/connection.py:144-150 | the step-by-step dict is exactly those params, sent as POST `/instance` with no query |
| ComputingConnection.CreateInstanceEncoded | tiktalik/computing/connection.py:144-150 | in any key order the body carries one `networks[]` pair per network in the given order, and an `ssh_key` pair exactly when the key is truthy |
| ComputingConnection.InstancesOf | tiktalik/computing/connection.py:51-54 | one new, distinct `Instance` per response element, in order, each with that element's attributes |
| Strings.Lower | tiktalik/computing/objects.py:172-173 | lower-casing keeps the length, turns each upper-case ASCII letter into the lower-case letter at the same alphabet position, and changes no other character |
| Strings.LowerIdempotent | tiktalik/computing/objects.py:172-173 | lower-casing an already lower-cased hostname changes nothing, so comparing `lower()` of both sides is a consistent case-insensitive match |
| Balancer.FormatBackends | tiktalik/loadbalancer/objects.py:113-114 | one `ip:port:weight` string per tuple, same count and order |
| Balancer.BackendRoundTrip | tiktalik/loadbalancer/objects.py:118 | a backend string reads back as its `(ip, port, weight)` when the ip holds no colon |
| Balancer.BackendFields | tiktalik/loadbalancer/objects.py:124-127 | `modify_backend`'s params hold exactly those of `ip`, `port`, `weight` that are not None, with the values given |
| Balancer.ModifyBackendParams | tiktalik/loadbalancer/objects.py:124-129 | the three conditional inserts build exactly those params |
| Balancer.Descriptor | tiktalik/loadbalancer/objects.py:68-129 | every path starts with the balancer's prefix; no request has a query; DELETE exactly for `delete` and the removals, POST for `enable`, `disable`, `set_domains`, `set_backends`, PUT for the rest; each method's params as listed, including the single formatted `backend` and the `backends[]` list |
| Balancer.DescriptorPath | tiktalik/loadbalancer/objects.py:73-129 | every path as the source writes it is the path of the balancer's root and the method's segments |
| Balancer.DescriptorSegments | tiktalik/loadbalancer/http.py:72-128 | with slash-free names the path splits back into root and segments, e.g. `http`, uuid, `enable` |
| Balancer.HttpUnderPrefix | tiktalik/loadbalancer/http.py:67-128 | an `HTTPBalancer` sends what a `LoadBalancer` sends, with `/http` in front of the path |
| Balancer.SetBackendsEncoded | tiktalik/loadbalancer/objects.py:108-114 | in any key order the body carries one `backends[]` pair per tuple, in order, each reading back as its tuple |
| Balancer.BalancerAttributesSpec | tiktalik/loadbalancer/objects.py:34-39 | `backends` wrapped element-wise; `history` wrapped element-wise when truthy and `[]` otherwise; `monitor` wrapped only for the classic balancer; every other payload value kept |
| Balancer.NewBalancer | tiktalik/loadbalancer/http.py:34-38 | the merge followed by the reassignments yields exactly those attributes |
| BalancerConnection.BaseUrl | tiktalik/loadbalancer/connection.py:24-25 | the base URL is absolute, has no trailing slash, and is the path of `api`, `v1`, `loadbalancer` |
| BalancerConnection.Descriptor | tiktalik/loadbalancer/connection.py:27-40 | the list is GET `/http` with exactly the query key `history`; the lookup is GET `/http/<uuid>`; creation is POST `/http` with exactly `name`, `domains[]` and the formatted `backends[]` |
| BalancerConnection.AgreesWithBalancer | tiktalik/loadbalancer/connection.py:31-40 | the lookup path is the one the balancer's own `delete` uses, and creation formats backends exactly as `set_backends` does |
| BalancerConnection.HistoryRendered | tiktalik/loadbalancer/connection.py:28 | a boolean `history` goes out as `true` or `false` |
| BalancerConnection.CreateBackendsEncoded | tiktalik/loadbalancer/connection.py:35-40 | in any key order the creation body carries one `backends[]` pair per tuple, in order, each reading back as its tuple |
| BalancerConnection.HttpBalancers | tiktalik/loadbalancer/connection.py:27-29 | one `HTTPBalancer` per response element, in order, with that element's attributes |

## Left out

- Sending the request is not modelled: the choice between `HTTPSConnection` and `HTTPConnection`, the connection object, the 5-second timeout in use, `conn.request` and `getresponse` are I/O. The model stops at the prepared method, path, headers and body.
- HMAC-SHA1, MD5, base64 and `quote_plus` are parameters. The model states where each is applied, not what it computes.
- The clock (`time.strftime` of `time.gmtime()`) is the input `now`. Its RFC 1123 shape is not checked.
- The order of keys in an encoded body or query follows Python 2 dict order. It is a parameter and no property depends on it.
- `request` is not part of this model, and neither is anything it does: prefixing `base_url`, JSON decoding, mapping an error status to `TiktalikAPIError`. Each wrapper is modelled up to the descriptor it hands over. The mapping of a response takes the decoded payload as input.
- The `__str__` methods of the resource objects are display only and are not modelled. The same goes for the one-line forwarders (`list_all`, `get`, `create`, `get_by_uuid`, `Instance.add_interface`, `VPSImage.delete`): each delegates to a modelled call.
- `Network`, `VPSImage`, `Operation` and the balancer backends, actions and monitor are values, not objects. Object identity and aliasing between them are not modelled.
- Strings are sequences of characters. Python 2 byte and unicode distinctions, and non-ASCII case folding, are not modelled.
- Connection.AuthConnection.constructor: the Python defaults for host, port and `use_ssl` are not expressed. Callers pass all three.
- Connection.PreparedHeaders: `content-md5` is not "present exactly when the body is non-empty". When the body is empty, a `content-md5` the caller supplied stays with its value, as the code does, and the lemma states that instead.
- Errors.MessageStatus: covers only scalar descriptions. A list or dict description is not modelled.
- Every wrapper is modelled as the evidently intended merge, as if `APIObject` derived from `object`. As written it cannot run under Python 2:
  - `class APIObject:` (tiktalik/apiobject.py:24) has no base class, and the library is Python 2 only (`httplib`, `sha` and `md5` at tiktalik/connection.py:3), so `APIObject` is an old-style class;
  - `super(APIObject, self).__init__()` at tiktalik/apiobject.py:30 therefore raises `TypeError`, and so do the `super(...)` calls at tiktalik/computing/objects.py:66 and 146, tiktalik/loadbalancer/objects.py:35 and tiktalik/loadbalancer/http.py:35;
  - so every wrapper construction fails in the code as written. `ApiObject.Attributes`, `ApiObject.SetAttributes`, `ApiObject.Wrap`, `ApiObject.WrapEach`, `ComputingObjects.NetInterface`, the `Instance` constructor, `Balancer.NewBalancer`, `BalancerConnection.HttpBalancers` and `ComputingConnection.InstancesOf` model the merge instead, and the model does not capture that `TypeError`.
- FormEncoding.IsParamValue: urlencode with `doseq` also accepts a dict (it walks the keys) and nested sequences (each element goes through `str()`). Only scalars and lists of scalars are modelled, which is what the library's callers pass.
- Balancer.FormatBackends: ports and weights are integers. `"%i"` applied to a float, which truncates, is not modelled.
- BalancerConnection.Descriptor: `backends` is a sequence, so `backends=None` is excluded by its type. In the library that default raises when the list comprehension runs.
- ComputingObjects.GetByHostname: instances without a string `hostname` are excluded by its precondition. The library would raise `AttributeError` for them.
- Floats are not modelled: `Values.Value` has no float case. A float attribute such as `gross_cost_per_hour` cannot be represented. Neither can a float `size` for `create_instance`, which urlencode would render with Python 2 `str()` (12 significant digits). A size such as `"0.25"` is modelled only as a string.
- ComputingObjects.InstanceAttributesSpec: payloads that `InstancePayload` rejects are excluded. In the following cases the library raises instead of building an `Instance`:
  - no `interfaces`, or `interfaces` neither a list nor an empty dict or string (for example JSON null);
  - an interface whose `network` is missing or not a dict;
  - an `actions` value that is neither a list of dicts nor an empty dict or string (for example JSON null);
  - a truthy `vpsimage` that is not a dict.
- ComputingObjects.InstanceAttributesSpec: also excluded, although the library accepts them, are an `interfaces` or `actions` value that is an empty dict `{}` or an empty string. The comprehension iterates nothing and the attribute becomes `[]`; the model requires a list there.
- ComputingObjects.Instance.constructor: the same payloads are excluded, for the same reasons.
- ComputingObjects.Instance.ActionRequest: requires a string `uuid`. An instance without one, or with another type that `%s` would format, is not modelled.
- Balancer.BalancerAttributesSpec: payloads that `BalancerPayload` rejects are excluded. In the following cases the library raises instead of building the balancer:
  - no `backends` or no `history`;
  - `backends` neither a list of dicts nor an empty dict or string (for example JSON null, or `[null]`);
  - a truthy `history` that is not a list of dicts (for example `[null]`, or a non-empty dict);
  - a classic payload without a dict `monitor`.
- Balancer.BalancerAttributesSpec: also excluded, although the library accepts it, is a `backends` value that is an empty dict `{}` or an empty string. The comprehension iterates nothing and `backends` becomes `[]`; the model requires a list there.
- Balancer.NewBalancer: the same payloads are excluded, for the same reasons.
- ComputingConnection.Descriptor: `uuid` values are strings, and `%s` of another type is not modelled.
- Balancer.Descriptor: `uuid` values are strings, and `%s` of another type is not modelled.
