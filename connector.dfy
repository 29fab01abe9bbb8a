/** The Home Assistant REST connector: the connector's settings and callback
    registry as the fields of a class, and one method per operation. Each
    operation that talks to the hub takes the transport as a parameter
    `send`, a function from the request the connector builds to what the
    transport does with it; the methods state their result in terms of the
    request (built by the functions of `Endpoints`) and of the transfer. */
module Connector {
  import opened JsonValues
  import opened Http
  import opened Endpoints
  import opened DeviceFilters

  /** The constructor's defaults. */
  const DefaultAssistOnly: bool := true
  const DefaultVerifySsl: bool := true
  const DefaultTimeout: int := 3

  /** What a POST operation does: return a value (Python's `None` is `JNull`),
      or let out the exception that `requests.post` raised, which no handler
      sees because the call stands before the `try`. */
  datatype Outcome = Returned(value: Json) | Raised(kind: FailKind)

  /** `get_all_devices` after the transfer: the hub's answer, or `[]` on any
      failure. The empty list therefore means that the fetch failed or that
      the hub reported no entities, and nothing else. */
  function AllDevicesResult(t: Transfer): (r: Json)
    ensures GuardedGet(t).Fetched? ==> r == GuardedGet(t).json
    ensures r == JArr([]) <==> GuardedGet(t).Failed? || GuardedGet(t) == Fetched(JArr([]))
  {
    match GuardedGet(t)
    case Fetched(j) => j
    case Failed(_) => JArr([])
  }

  /** `get_device_state` after the transfer: the hub's answer, `[]` when the
      connection failed and `{}` on any other failure. */
  function DeviceStateResult(t: Transfer): (r: Json)
    ensures GuardedGet(t).Fetched? ==> r == GuardedGet(t).json
    ensures r == JArr([]) <==> GuardedGet(t) == Failed(ConnectionFailure) || GuardedGet(t) == Fetched(JArr([]))
    ensures r == JObj(map[]) <==> GuardedGet(t) == Failed(OtherRequestFailure) || GuardedGet(t) == Fetched(JObj(map[]))
  {
    match GuardedGet(t)
    case Fetched(j) => j
    case Failed(ConnectionFailure) => JArr([])
    case Failed(OtherRequestFailure) => JObj(map[])
  }

  /** A POST operation after the transfer: the exception of the call itself
      escapes; a failed status check or an undecodable body gives `None`. */
  function PostResult(t: Transfer): (r: Outcome)
    ensures r.Raised? <==> t.SendFailed?
    ensures r.Raised? ==> r.kind == t.kind
    ensures t.Sent? && Checked(t.response).Fetched? ==> r == Returned(Checked(t.response).json)
    ensures r == Returned(JNull) <==> t.Sent? && (Checked(t.response).Failed? || t.response.body == Some(JNull))
  {
    match t
    case SendFailed(k) => Raised(k)
    case Sent(resp) =>
      match Checked(resp)
      case Fetched(j) => Returned(j)
      case Failed(_) => Returned(JNull)
  }

  /** The failure sentinels, operation by operation: `[]` for the device list
      on any failure; `[]` or `{}` for one device's state depending on the
      failure; `None` for every POST whose status check fails. */
  lemma FailureSentinels(kind: FailKind, body: Option<Json>)
    ensures AllDevicesResult(SendFailed(kind)) == JArr([])
    ensures AllDevicesResult(Sent(Response(false, body))) == JArr([])
    ensures DeviceStateResult(SendFailed(ConnectionFailure)) == JArr([])
    ensures DeviceStateResult(SendFailed(OtherRequestFailure)) == JObj(map[])
    ensures DeviceStateResult(Sent(Response(false, body))) == JObj(map[])
    ensures PostResult(Sent(Response(false, body))) == Returned(JNull)
    ensures PostResult(Sent(Response(true, None))) == Returned(JNull)
    ensures PostResult(SendFailed(kind)) == Raised(kind)
  {
  }

  /** A connector for one hub. `eventListeners` maps a device id to the
      callback registered for it; `headers` is fixed by the API key. */
  class RestConnector<Callback> {
    var host: string
    var apiKey: string
    var assistOnly: bool
    var verifySsl: bool
    var timeout: int
    var eventListeners: map<string, Callback>
    var headers: map<string, string>

    /** The base initialiser stores the settings and starts an empty registry;
        the REST initialiser then derives the headers from the API key. */
    constructor (host: string, apiKey: string, assistOnly: bool := DefaultAssistOnly,
                 verifySsl: bool := DefaultVerifySsl, timeout: int := DefaultTimeout)
      ensures this.host == host && this.apiKey == apiKey
      ensures this.assistOnly == assistOnly && this.verifySsl == verifySsl && this.timeout == timeout
      ensures eventListeners == map[]
      ensures headers == AuthHeaders(apiKey)
    {
      this.host := host;
      this.apiKey := apiKey;
      this.assistOnly := assistOnly;
      this.eventListeners := map[];
      this.timeout := timeout;
      this.verifySsl := verifySsl;
      this.headers := map["Authorization" := "Bearer " + apiKey, "content-type" := "application/json"];
    }

    /** The GET request the connector sends to `url`. */
    function GetRequest(url: string): Request
      reads this
    {
      Request(Get, url, headers, None, timeout, verifySsl)
    }

    /** The POST request the connector sends to `url` with `payload`. */
    function PostRequest(url: string, payload: map<string, Json>): Request
      reads this
    {
      Request(Post, url, headers, Some(payload), timeout, verifySsl)
    }

    /** Registers `callback` for `deviceId`, replacing any earlier one; every
        other device keeps its callback. */
    method RegisterCallback(deviceId: string, callback: Callback)
      modifies this`eventListeners
      ensures deviceId in eventListeners && eventListeners[deviceId] == callback
      ensures eventListeners.Keys == old(eventListeners).Keys + {deviceId}
      ensures forall id :: id in old(eventListeners) && id != deviceId ==> eventListeners[id] == old(eventListeners)[id]
    {
      eventListeners := eventListeners[deviceId := callback];
    }

    method GetAllDevices(send: Request -> Transfer) returns (devices: Json)
      ensures devices == AllDevicesResult(send(GetRequest(AllStatesUrl(host))))
    {
      var url := host + "/api/states";
      var transfer := send(Request(Get, url, headers, None, timeout, verifySsl));
      devices := AllDevicesResult(transfer);
    }

    method GetDeviceState(send: Request -> Transfer, entityId: string) returns (state: Json)
      ensures state == DeviceStateResult(send(GetRequest(EntityStateUrl(host, entityId))))
    {
      var url := host + "/api/states/" + entityId;
      var transfer := send(Request(Get, url, headers, None, timeout, verifySsl));
      state := DeviceStateResult(transfer);
    }

    /** `attributes` is `JNull` when the caller passes none; it is sent as is. */
    method SetDeviceState(send: Request -> Transfer, entityId: string, state: string, attributes: Json := JNull)
      returns (outcome: Outcome)
      ensures outcome == PostResult(send(PostRequest(EntityStateUrl(host, entityId), StatePayload(state, attributes))))
    {
      var url := host + "/api/states/" + entityId;
      var payload := map["state" := JStr(state), "attributes" := attributes];
      var transfer := send(Request(Post, url, headers, Some(payload), timeout, verifySsl));
      outcome := PostResult(transfer);
    }

    method GetAllDevicesWithType(send: Request -> Transfer, deviceType: string)
      returns (devices: Result<seq<Json>>)
      ensures devices == FilterDevices(AllDevicesResult(send(GetRequest(AllStatesUrl(host)))), OfType(deviceType))
    {
      var all := GetAllDevices(send);
      devices := FilterDevices(all, OfType(deviceType));
    }

    method GetAllDevicesWithTypeAndAttribute(send: Request -> Transfer, deviceType: string,
                                              attribute: string, value: Json)
      returns (devices: Result<seq<Json>>)
      ensures devices == FilterDevices(AllDevicesResult(send(GetRequest(AllStatesUrl(host)))),
                                       AttributeEquals(deviceType, attribute, value))
    {
      var all := GetAllDevices(send);
      devices := FilterDevices(all, AttributeEquals(deviceType, attribute, value));
    }

    method GetAllDevicesWithTypeAndAttributeIn(send: Request -> Transfer, deviceType: string,
                                                attribute: string, value: Json)
      returns (devices: Result<seq<Json>>)
      ensures devices == FilterDevices(AllDevicesResult(send(GetRequest(AllStatesUrl(host)))),
                                       AttributeIn(deviceType, attribute, value))
    {
      var all := GetAllDevices(send);
      devices := FilterDevices(all, AttributeIn(deviceType, attribute, value));
    }

    method GetAllDevicesWithTypeAndAttributeNotIn(send: Request -> Transfer, deviceType: string,
                                                   attribute: string, value: Json)
      returns (devices: Result<seq<Json>>)
      ensures devices == FilterDevices(AllDevicesResult(send(GetRequest(AllStatesUrl(host)))),
                                       AttributeNotIn(deviceType, attribute, value))
    {
      var all := GetAllDevices(send);
      devices := FilterDevices(all, AttributeNotIn(deviceType, attribute, value));
    }

    /** `turn_on` is the `turn_on` service call with no arguments. */
    method TurnOn(send: Request -> Transfer, deviceId: string, deviceType: string) returns (outcome: Outcome)
      ensures outcome == PostResult(send(PostRequest(ServiceUrl(host, deviceType, "turn_on"), ServicePayload(deviceId, None))))
    {
      SwitchIsServiceCall(host, deviceId, deviceType);
      var url := host + "/api/services/" + deviceType + "/turn_on";
      var payload := map["entity_id" := JStr(deviceId)];
      var transfer := send(Request(Post, url, headers, Some(payload), timeout, verifySsl));
      outcome := PostResult(transfer);
    }

    /** `turn_off` is the `turn_off` service call with no arguments. */
    method TurnOff(send: Request -> Transfer, deviceId: string, deviceType: string) returns (outcome: Outcome)
      ensures outcome == PostResult(send(PostRequest(ServiceUrl(host, deviceType, "turn_off"), ServicePayload(deviceId, None))))
    {
      SwitchIsServiceCall(host, deviceId, deviceType);
      var url := host + "/api/services/" + deviceType + "/turn_off";
      var payload := map["entity_id" := JStr(deviceId)];
      var transfer := send(Request(Post, url, headers, Some(payload), timeout, verifySsl));
      outcome := PostResult(transfer);
    }

    /** Calls service `service` (the source's `function`) of domain `deviceType` on `deviceId`. The
        payload starts as `{"entity_id": deviceId}` and each argument is then
        written into it, one key at a time. */
    method CallFunction(send: Request -> Transfer, deviceId: string, deviceType: string,
                        service: string, arguments: Option<map<string, Json>> := None)
      returns (outcome: Outcome)
      ensures outcome == PostResult(send(PostRequest(ServiceUrl(host, deviceType, service), ServicePayload(deviceId, arguments))))
    {
      var url := host + "/api/services/" + deviceType + "/" + service;
      var payload := map["entity_id" := JStr(deviceId)];
      if arguments.Some? && arguments.value != map[] {
        var given := arguments.value;
        var pending := given.Keys;
        ghost var merged: set<string> := {};
        while pending != {}
          invariant merged + pending == given.Keys && merged !! pending
          invariant payload.Keys == {"entity_id"} + merged
          invariant forall k :: k in merged ==> payload[k] == given[k]
          invariant "entity_id" !in merged ==> payload["entity_id"] == JStr(deviceId)
          decreases pending
        {
          var key :| key in pending;
          payload := payload[key := given[key]];
          pending := pending - {key};
          merged := merged + {key};
        }
        assert merged == given.Keys;
      } else {
        assert ArgumentsOf(arguments).Keys == {};
      }
      SameServicePayload(payload, deviceId, arguments);
      assert payload == ServicePayload(deviceId, arguments);
      var transfer := send(Request(Post, url, headers, Some(payload), timeout, verifySsl));
      outcome := PostResult(transfer);
    }

    /** Sends a spoken command to the hub's conversation agent, in the
        `language` argument or in English. */
    method SendAssistCommand(send: Request -> Transfer, command: string, arguments: Option<map<string, Json>> := None)
      returns (outcome: Outcome)
      ensures outcome == PostResult(send(PostRequest(ConversationUrl(host), AssistPayload(command, arguments))))
    {
      var given := if arguments.Some? then arguments.value else map[];
      var url := host + "/api/conversation/process";
      var payload := map["text" := JStr(command),
                         "language" := if "language" in given then given["language"] else JStr("en")];
      var transfer := send(Request(Post, url, headers, Some(payload), timeout, verifySsl));
      outcome := PostResult(transfer);
    }
  }

  /** A payload with the keys and values that `ServicePayload` promises is
      that payload. */
  lemma SameServicePayload(payload: map<string, Json>, entityId: string, arguments: Option<map<string, Json>>)
    requires payload.Keys == {"entity_id"} + ArgumentsOf(arguments).Keys
    requires forall k :: k in ArgumentsOf(arguments) ==> payload[k] == ArgumentsOf(arguments)[k]
    requires "entity_id" !in ArgumentsOf(arguments) ==> payload["entity_id"] == JStr(entityId)
    ensures payload == ServicePayload(entityId, arguments)
  {
  }

  /** The connector of the tests: default settings, the headers they expect,
      and a registration that replaces nothing else. */
  method ConnectorExample()
  {
    var c := new RestConnector<int>("http://homeassistant.local", "test_api_key");
    assert c.assistOnly && c.verifySsl && c.timeout == 3;
    assert c.headers["Authorization"] == "Bearer test_api_key";
    assert c.headers["content-type"] == "application/json";
    var other := new RestConnector<int>("http://homeassistant.local", "test_api_key");
    c.RegisterCallback("light.living_room", 7);
    assert c.eventListeners["light.living_room"] == 7;
    assert other.eventListeners == map[];
  }
}
