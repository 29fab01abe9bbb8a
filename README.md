# Home Assistant REST connector, modelled in Dafny

This project models the REST connector of the Home Assistant voice skill. It covers the
`HomeAssistantRESTConnector` class and the initialiser of its base class `HomeAssistantConnector`.
The connector talks to a Home Assistant hub over its REST API. It builds authenticated requests
for the hub's state and service endpoints. It filters the hub's entity list by entity-id prefix
and by one attribute. It keeps a registry of per-device event callbacks. It turns failed GET
requests, and failed status checks or decoding of POST responses, into fixed sentinel results
(`[]`, `{}` or `None`); an exception raised by the POST call itself reaches the caller.

Files:

- `json.dfy` (module `JsonValues`): decoded JSON values. Also the Python operations the
  connector applies to them: subscripting by a string, `in`, and iterating over a device list,
  each with the exception it can raise; and the string tests `StartsWith` and `IsSubstring`.
  The `AttributeError` of `.startswith` on a non-string is raised by `DeviceFilters.TypeMatches`.
- `http.dfy` (module `Http`): the request the connector hands to `requests`, and what the
  transport gives back. The transport itself is an oracle `send: Request -> Transfer` that each
  operation takes as a parameter. The module also models the `raise_for_status()` / `json()`
  steps of every `try` block.
- `endpoints.dfy` (module `Endpoints`): the URLs, the headers and the POST payloads.
  `ParseRoute` reads a URL path back into the endpoint it names. `BearerToken` reads the token
  back out of an `Authorization` header that uses the Bearer scheme (section 2.1 of RFC 6750).
  The builders are proved against these two readers.
- `filters.dfy` (module `DeviceFilters`): the four list-comprehension filters, modelled by one
  comprehension `Select` and one per-device condition `Test`. It also holds the lemmas on order,
  exactness, the first failing device, and the `in` / `not in` partition.
- `connector.dfy` (module `Connector`): the class `RestConnector`. It holds the fields `host`,
  `apiKey`, `assistOnly`, `verifySsl`, `timeout`, `eventListeners` and `headers`, and has one
  method per operation. The module also defines the sentinel functions for each kind of failure.

Three behaviours of the code that a reader might not expect:

- `get_device_state` returns `[]` on a `ConnectionError` and `{}` on any other
  `RequestException` (connector.py:49-54). `DeviceStateResult` models both.
- In every POST operation, the call to `requests.post` stands before the `try`
  (connector.py:66-69), so its exceptions reach the caller. `PostResult` returns
  `Raised(kind)` for them.
- In the attribute filters, a device of the requested type without the attribute raises
  `KeyError` (connector.py:97), and the filter lets it out. `AttributeOf` returns
  `Err(KeyError(attribute))` for it, and `Select` passes it on.

## Model

| member | source | states |
|---|---|---|
| `Connector.RestConnector.constructor` | skill_homeassistant/ha_client/logic/base.py:17-32 | stores host and API key unchanged; `assistOnly` and `verifySsl` default to true and `timeout` to 3; the callback registry starts empty; the headers are those of `AuthHeaders(apiKey)`, set by the REST initialiser at connector.py:18-23 |
| `Endpoints.AuthHeaders` | skill_homeassistant/ha_client/logic/connector.py:20-23 | exactly two headers: `Authorization` is `"Bearer " + api_key`, and reading the bearer token back out of it gives the API key; `content-type` is `application/json` |
| `Connector.RestConnector.RegisterCallback` | skill_homeassistant/ha_client/logic/connector.py:25-26 | afterwards the device id maps to the new callback, replacing any earlier one; the key set gains only that id; every other id keeps its callback; no other field changes |
| `Connector.RestConnector.GetAllDevices` | skill_homeassistant/ha_client/logic/connector.py:28-40 | sends a GET to the all-states URL with the connector's headers, timeout and TLS flag; the result is `AllDevicesResult` of the transfer |
| `Connector.AllDevicesResult` | skill_homeassistant/ha_client/logic/connector.py:31-40 | the hub's decoded answer when the fetch succeeds; `[]` is returned exactly when the fetch failed (any failure) or the hub answered `[]` |
| `Connector.RestConnector.GetDeviceState` | skill_homeassistant/ha_client/logic/connector.py:42-54 | sends a GET to the entity's state URL; the result is `DeviceStateResult` of the transfer |
| `Connector.DeviceStateResult` | skill_homeassistant/ha_client/logic/connector.py:45-54 | the decoded answer on success; `[]` exactly on a connection failure or an answer of `[]`; `{}` exactly on another request failure or an answer of `{}` |
| `Connector.RestConnector.SetDeviceState` | skill_homeassistant/ha_client/logic/connector.py:56-74 | POSTs `StatePayload(state, attributes)` to the entity's state URL; the result is `PostResult` of the transfer |
| `Endpoints.StatePayload` | skill_homeassistant/ha_client/logic/connector.py:65 | the payload has exactly the keys `state` and `attributes`; `attributes` is sent as given, `null` included |
| `Connector.PostResult` | skill_homeassistant/ha_client/logic/connector.py:66-74 | an exception of the POST call itself escapes (`Raised`) and nothing else does; a passed status check with a decodable body returns that body; `None` is returned exactly when the status check or the decoding fails, or when the body is `null` |
| `Connector.FailureSentinels` | skill_homeassistant/ha_client/logic/connector.py:35-74 | the sentinel table of connector.py:35-40, 49-54 and 66-74 (test/test_connector.py:56-72, 93-109 and 136-145 check its connection and request-failure rows and its failed-status POST row): `[]` for the device list on a connection or request failure and on a failed status; `[]`/`{}` for one state on a connection/request failure; `None` for a POST whose status check or decoding fails; the POST call's own exception escapes |
| `Http.Checked` | skill_homeassistant/ha_client/logic/connector.py:33-34 | `raise_for_status()` then `json()`: succeeds exactly on a status below 400 with a decodable body, giving that body; every failure is a non-connection request failure |
| `Endpoints.AllStatesUrl` | skill_homeassistant/ha_client/logic/connector.py:30 | the URL is the host followed by a path that routes to the all-states endpoint |
| `Endpoints.EntityStateUrl` | skill_homeassistant/ha_client/logic/connector.py:44 | the URL is the host followed by exactly `/api/states/<entity_id>`, a path that routes back to the state of that entity id |
| `Endpoints.ServiceUrl` | skill_homeassistant/ha_client/logic/connector.py:177 | the URL is the host followed by exactly `/api/services/<domain>/<service>`; that path routes back to the same domain and service whenever the domain holds no `/` |
| `Endpoints.ConversationUrl` | skill_homeassistant/ha_client/logic/connector.py:202 | the URL is the host followed by a path that routes to the conversation endpoint |
| `Endpoints.EndpointsDistinct` | skill_homeassistant/ha_client/logic/connector.py:30-202 | below one host, the all-states, entity-state, service and conversation URLs never coincide, for every entity id, domain and service |
| `Endpoints.ServicePayload` | skill_homeassistant/ha_client/logic/connector.py:178-181 | the keys are `entity_id` plus the argument keys; every argument appears with its value, so an `entity_id` argument overrides the device id; otherwise `entity_id` is the device id; `None` and `{}` arguments add nothing |
| `Connector.RestConnector.CallFunction` | skill_homeassistant/ha_client/logic/connector.py:168-192 | the loop that writes the arguments into the payload one key at a time yields `ServicePayload(deviceId, arguments)`; the payload is POSTed to `ServiceUrl(host, type, function)`; the result is `PostResult` of the transfer |
| `Connector.RestConnector.TurnOn` | skill_homeassistant/ha_client/logic/connector.py:130-147 | the same request as the `turn_on` service call with no arguments; the result is `PostResult` of the transfer |
| `Connector.RestConnector.TurnOff` | skill_homeassistant/ha_client/logic/connector.py:149-166 | the same request as the `turn_off` service call with no arguments; the result is `PostResult` of the transfer |
| `Endpoints.SwitchIsServiceCall` | skill_homeassistant/ha_client/logic/connector.py:137-138 | the literal turn-on/turn-off URLs and the payload `{"entity_id": id}` are the service URL and service payload of `turn_on`/`turn_off` without arguments, and `{}` arguments equal `None` |
| `Connector.RestConnector.SendAssistCommand` | skill_homeassistant/ha_client/logic/connector.py:194-215 | POSTs `AssistPayload(command, arguments)` to the conversation URL; the result is `PostResult` of the transfer |
| `Endpoints.AssistPayload` | skill_homeassistant/ha_client/logic/connector.py:201-206 | exactly the keys `text` and `language`; `text` is the command; `language` is the `language` argument when present, else `"en"`; missing arguments read as `{}` |
| `Endpoints.AssistIgnoresOtherArguments` | skill_homeassistant/ha_client/logic/connector.py:205 | two argument sets that agree on `language` give the same Assist payload |
| `Connector.RestConnector.GetAllDevicesWithType` | skill_homeassistant/ha_client/logic/connector.py:76-83 | fetches the device list once, then applies the type filter to it |
| `Connector.RestConnector.GetAllDevicesWithTypeAndAttribute` | skill_homeassistant/ha_client/logic/connector.py:85-98 | fetches the device list once, then applies the type-and-`==` filter to it |
| `Connector.RestConnector.GetAllDevicesWithTypeAndAttributeIn` | skill_homeassistant/ha_client/logic/connector.py:100-113 | fetches the device list once, then applies the type-and-`in` filter to it |
| `Connector.RestConnector.GetAllDevicesWithTypeAndAttributeNotIn` | skill_homeassistant/ha_client/logic/connector.py:115-128 | fetches the device list once, then applies the type-and-`not in` filter to it |
| `JsonValues.Elements` | skill_homeassistant/ha_client/logic/connector.py:83 | iterating the fetched value: a list yields its items; an empty dict or string yields nothing; `TypeError` exactly for `None`, a number, a boolean, a non-empty dict or a non-empty string |
| `DeviceFilters.TypeMatches` | skill_homeassistant/ha_client/logic/connector.py:83 | succeeds exactly when the record is a dict with a string `entity_id`, and then is the raw prefix test `startswith(device_type)`; a missing `entity_id` raises its `KeyError`, a non-dict record `TypeError`, a non-string id `AttributeError` |
| `DeviceFilters.AttributeOf` | skill_homeassistant/ha_client/logic/connector.py:97 | strict lookup: succeeds exactly when `attributes` is a dict that holds the attribute, giving its value; a record without `attributes` raises `KeyError("attributes")`, a missing attribute `KeyError(attribute)`, a non-dict record or `attributes` value `TypeError` |
| `JsonValues.Contains` | skill_homeassistant/ha_client/logic/connector.py:112 | Python `in`: list membership, substring for strings, key membership for dicts; `TypeError` exactly for non-containers, a non-string in a string, or an unhashable key; a hashable non-string is never a key of a dict |
| `DeviceFilters.Test` | skill_homeassistant/ha_client/logic/connector.py:94-127 | the type test runs first and its failure is the condition's failure; a non-matching device gives false without reading its attributes; a matching device that lacks the attribute raises the lookup's exception; on a matching device that holds it, the `==` condition is equality with the value, `in` is `Contains(values, attribute)`, and `not in` is its negation with the same exceptions |
| `DeviceFilters.Select` | skill_homeassistant/ha_client/logic/connector.py:83-128 | each of the four comprehensions (connector.py:83, 94-98, 109-113, 124-128) succeeds exactly when the condition succeeds on every device, and keeps no more devices than it is given |
| `DeviceFilters.FilterDevices` | skill_homeassistant/ha_client/logic/connector.py:82-83 | a filter over what `get_all_devices` returned: a list is filtered, succeeding exactly when the condition does on every item, and the result is the comprehension `Select` over the list's items, so every lemma about `Select` applies, and it keeps the list's order; an empty dict or string gives `[]`; any other non-list raises `TypeError` |
| `JsonValues.Subscript` | skill_homeassistant/ha_client/logic/connector.py:97 | `d[key]`: the value when `d` is a dict that holds the key; `KeyError(key)` for a dict without it; `TypeError` for anything else |
| `DeviceFilters.SelectFailsAtFirstFault` | skill_homeassistant/ha_client/logic/connector.py:94-98 | a filter succeeds exactly when the condition succeeds on every device; otherwise it raises the exception of the first device on which the condition fails |
| `DeviceFilters.SelectKeepsExactly` | skill_homeassistant/ha_client/logic/connector.py:83 | a successful filter's result is a subsequence of the input (order kept) and holds every copy of each device whose condition holds and no other device |
| `DeviceFilters.TypeFilterExact` | skill_homeassistant/ha_client/logic/connector.py:76-83 | on records that all carry a string `entity_id`, the type filter succeeds and keeps, in order, exactly the records whose id starts with the type |
| `DeviceFilters.AttributeEqualsExact` | skill_homeassistant/ha_client/logic/connector.py:85-98 | on records with a string `entity_id` where every type-matching record holds the attribute, the `==` filter succeeds and keeps, in order, every copy of exactly the type-matching records whose attribute equals the value (test/test_connector.py:163-174) |
| `DeviceFilters.AttributeInExact` | skill_homeassistant/ha_client/logic/connector.py:100-113 | on such records and a list of values, the `in` filter succeeds and keeps, in order, exactly the type-matching records whose attribute is one of the values (test/test_connector.py:177-188) |
| `DeviceFilters.AttributeNotInExact` | skill_homeassistant/ha_client/logic/connector.py:115-128 | on such records and a list of values, the `not in` filter succeeds and keeps, in order, exactly the type-matching records whose attribute is none of the values (test/test_connector.py:191-203) |
| `DeviceFilters.DomainMatchPasses` | skill_homeassistant/ha_client/logic/connector.py:83 | every device whose id is `<type>.<slug>` passes the type filter for `<type>` |
| `DeviceFilters.PrefixIsNotDomain` | skill_homeassistant/ha_client/logic/connector.py:83 | the test is a string prefix, not a domain split: the `light` filter keeps `lightning.strike` |
| `DeviceFilters.InNotInOnDevice` | skill_homeassistant/ha_client/logic/connector.py:112-127 | on one device the `in` and `not in` conditions fail together with the same exception; when they succeed, exactly one holds if the type matches and neither holds otherwise |
| `DeviceFilters.InNotInPartition` | skill_homeassistant/ha_client/logic/connector.py:100-128 | the `in` and `not in` filters fail together with the same exception; on success the type filter succeeds, both results are subsequences of it, and their multisets add up to its multiset |
| `DeviceFilters.InNotInDisjoint` | skill_homeassistant/ha_client/logic/connector.py:100-128 | no device is kept by both the `in` and the `not in` filter |
| `DeviceFilters.EqualsIsInSingleton` | skill_homeassistant/ha_client/logic/connector.py:85-113 | the `==` filter with a value gives the same result as the `in` filter with the one-element list of that value |

## Left out

- The HTTP transport is external I/O. This covers `requests.get` / `requests.post`, TLS
  verification and timeouts. It is the oracle `send`, and the model records only the headers,
  timeout and TLS flag handed to it.
- The exception classes of `requests` are reduced to two kinds: `ConnectionError` and any other
  `RequestException`. A JSON decoding error counts as the second kind. This matches `requests`
  2.27 and later, where that error is a `RequestException`.
- `json.dumps` is a library call. Payloads are modelled as maps, not as JSON text.
- `LOG.exception` has no effect on any result and is left out.
- The abstract base class `HomeAssistantConnector` (base.py:34-143) is not a separate type. Its
  initialiser is the first half of the `RestConnector` constructor. Its abstract methods only
  raise `NotImplementedError`, and each one is a method of `RestConnector` here.
- `event_listeners` is a Dafny map, which is a value. So no two connectors can share a
  registry, and the fresh dict of each Python instance needs no separate statement.
- Delivering events to the registered callbacks, and any concurrency around it, are outside the
  connector's code and are not modelled.
- JSON numbers are integers only. Floating-point values are left out.
- A dict that is not a list but is iterated as a device list is modelled by its effect only.
  The dict's keys come out in insertion order, which a Dafny map does not keep. Every key is a
  string, and subscripting a string raises `TypeError`, so the model raises `TypeError` for any
  non-empty dict.
- DeviceFilters.Test: compares values with structural equality. Python's `==` also treats
  `True` as equal to `1` and `False` as equal to `0`, and the model does not.
- JsonValues.Contains: membership in a list also uses structural equality, so the same
  `True`/`1` identification is not modelled.
- Connector.RestConnector.constructor: arguments are typed. A non-string `api_key`, which would
  raise `TypeError` when the headers are built, cannot occur. A `timeout` of another type
  (float, `None`, a tuple) is not modelled.
- Connector.RestConnector.SendAssistCommand: `arguments` is `None` or a dict with string keys.
  A truthy non-dict, which would raise on `.get` (connector.py:205), cannot occur.
- Connector.RestConnector.CallFunction: `arguments` is `None` or a dict with string keys. A
  truthy non-dict, which would raise on `.items()`, cannot occur.
- The device model, the brightness and colour conversions, the mapping from entity type to
  device class, fuzzy name resolution and the client dispatcher live in `logic/device.py`,
  `logic/utils.py` and the `ha_client` package. These are not part of this model.
