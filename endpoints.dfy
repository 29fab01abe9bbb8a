/** What the connector puts on the wire: the URLs of the hub's REST endpoints,
    the request headers, and the JSON payloads of the POST requests.
    `ParseRoute` reads a URL path back into the endpoint it names and
    `BearerToken` reads the credentials back out of the Authorization header;
    the builders are proved against them. */
module Endpoints {
  import opened JsonValues

  /** The hub endpoints the connector calls. */
  datatype Route =
    | AllStates                               // GET /api/states
    | EntityState(entityId: string)           // GET or POST /api/states/<entity_id>
    | Service(domain: string, service: string) // POST /api/services/<domain>/<service>
    | Conversation                            // POST /api/conversation/process
    | Unknown

  /** The index of the first `c` in `s`. */
  function IndexOf(s: string, c: char): (r: Option<nat>)
    ensures r.Some? ==> r.value < |s| && s[r.value] == c && c !in s[..r.value]
    ensures r.None? ==> c !in s
  {
    if s == [] then None
    else if s[0] == c then Some(0)
    else
      match IndexOf(s[1..], c)
      case Some(i) =>
        assert s[1..][..i] == s[1..i + 1];
        Some(i + 1)
      case None => None
  }

  /** The endpoint a URL path names, as this model reads it: a service path
      is split at the first `/` after the domain. */
  function ParseRoute(path: string): Route
  {
    if path == "/api/states" then AllStates
    else if StartsWith(path, "/api/states/") then EntityState(path[12..])
    else if path == "/api/conversation/process" then Conversation
    else if StartsWith(path, "/api/services/") then
      var rest := path[14..];
      match IndexOf(rest, '/')
      case Some(i) => Service(rest[..i], rest[i + 1..])
      case None => Unknown
    else Unknown
  }

  /** The path of `url` below `host`, when `url` starts with `host`. */
  function PathBelow(host: string, url: string): Option<string>
  {
    if StartsWith(url, host) then Some(url[|host|..]) else None
  }

  /** `host + "/api/states"`: the list of all entity states. */
  function AllStatesUrl(host: string): (u: string)
    ensures PathBelow(host, u) == Some("/api/states")
    ensures ParseRoute(PathBelow(host, u).value) == AllStates
  {
    AllStatesRoute(host);
    host + "/api/states"
  }

  /** `host + "/api/states/" + entity_id`: one entity's state. */
  function EntityStateUrl(host: string, entityId: string): (u: string)
    ensures PathBelow(host, u) == Some("/api/states/" + entityId)
    ensures ParseRoute(PathBelow(host, u).value) == EntityState(entityId)
  {
    EntityStateRoute(host, entityId);
    host + "/api/states/" + entityId
  }

  /** `host + "/api/services/" + domain + "/" + service`: a service call.
      The route reads back to the same domain and service whenever the domain
      contains no `/` (the service name may). */
  function ServiceUrl(host: string, domain: string, service: string): (u: string)
    ensures PathBelow(host, u) == Some("/api/services/" + domain + "/" + service)
    ensures '/' !in domain ==> ParseRoute(PathBelow(host, u).value) == Service(domain, service)
  {
    ServiceRoute(host, domain, service);
    host + "/api/services/" + domain + "/" + service
  }

  /** `host + "/api/conversation/process"`: the Assist conversation agent. */
  function ConversationUrl(host: string): (u: string)
    ensures PathBelow(host, u) == Some("/api/conversation/process")
    ensures ParseRoute(PathBelow(host, u).value) == Conversation
  {
    ConversationRoute(host);
    host + "/api/conversation/process"
  }

  lemma AllStatesRoute(host: string)
    ensures PathBelow(host, host + "/api/states") == Some("/api/states")
    ensures ParseRoute("/api/states") == AllStates
  {
  }

  lemma EntityStateRoute(host: string, entityId: string)
    ensures PathBelow(host, host + "/api/states/" + entityId) == Some("/api/states/" + entityId)
    ensures ParseRoute("/api/states/" + entityId) == EntityState(entityId)
  {
    var u := host + "/api/states/" + entityId;
    assert u[..|host|] == host && u[|host|..] == "/api/states/" + entityId;
    var path := "/api/states/" + entityId;
    assert path != "/api/states" by { assert |path| != 11; }
    assert path[..12] == "/api/states/" && path[12..] == entityId;
  }

  lemma ServiceRoute(host: string, domain: string, service: string)
    ensures PathBelow(host, host + "/api/services/" + domain + "/" + service)
            == Some("/api/services/" + domain + "/" + service)
    ensures '/' !in domain ==> ParseRoute("/api/services/" + domain + "/" + service) == Service(domain, service)
  {
    var u := host + "/api/services/" + domain + "/" + service;
    var path := "/api/services/" + domain + "/" + service;
    assert u[..|host|] == host && u[|host|..] == path;
    assert path[..14] == "/api/services/";
    assert path != "/api/states" && !StartsWith(path, "/api/states/")
      && path != "/api/conversation/process" by {
      assert path[6] == 'e';
    }
    var rest := path[14..];
    assert rest == domain + "/" + service;
    assert rest[..|domain|] == domain && rest[|domain| + 1..] == service;
    FirstSlashAfterDomain(domain, service);
  }

  lemma ConversationRoute(host: string)
    ensures PathBelow(host, host + "/api/conversation/process") == Some("/api/conversation/process")
    ensures ParseRoute("/api/conversation/process") == Conversation
  {
    var u := host + "/api/conversation/process";
    assert u[..|host|] == host && u[|host|..] == "/api/conversation/process";
    var path := "/api/conversation/process";
    assert path != "/api/states" && !StartsWith(path, "/api/states/") by {
      assert path[5] == 'c';
    }
  }

  lemma FirstSlashAfterDomain(domain: string, service: string)
    ensures '/' !in domain ==> IndexOf(domain + "/" + service, '/') == Some(|domain|)
  {
    if '/' in domain { return; }
    var s := domain + "/" + service;
    assert s[|domain|] == '/';
    assert s[..|domain|] == domain;
    var r := IndexOf(s, '/');
    assert r.Some?;
  }

  /** The four endpoint families never share a URL below the same host. */
  lemma EndpointsDistinct(host: string, entityId: string, domain: string, service: string)
    ensures AllStatesUrl(host) != EntityStateUrl(host, entityId)
    ensures AllStatesUrl(host) != ServiceUrl(host, domain, service)
    ensures AllStatesUrl(host) != ConversationUrl(host)
    ensures EntityStateUrl(host, entityId) != ServiceUrl(host, domain, service)
    ensures EntityStateUrl(host, entityId) != ConversationUrl(host)
    ensures ServiceUrl(host, domain, service) != ConversationUrl(host)
  {
    var n := |host|;
    assert EntityStateUrl(host, entityId)[n + 6] == 't';
    assert ServiceUrl(host, domain, service)[n + 5] == 's' && ServiceUrl(host, domain, service)[n + 6] == 'e';
    assert ConversationUrl(host)[n + 5] == 'c';
  }

  /** The credentials of an Authorization header that uses the Bearer scheme
      of section 2.1 of RFC 6750 (`Bearer` and one space, then the token). */
  function BearerToken(credentials: string): Option<string>
  {
    if StartsWith(credentials, "Bearer ") then Some(credentials[7..]) else None
  }

  /** The headers of every request: the API key as a bearer token, and a JSON
      content type. */
  function AuthHeaders(apiKey: string): (h: map<string, string>)
    ensures h.Keys == {"Authorization", "content-type"}
    ensures h["Authorization"] == "Bearer " + apiKey
    ensures BearerToken(h["Authorization"]) == Some(apiKey)
    ensures h["content-type"] == "application/json"
  {
    var credentials := "Bearer " + apiKey;
    assert credentials[..7] == "Bearer " && credentials[7..] == apiKey;
    map["Authorization" := credentials, "content-type" := "application/json"]
  }

  /** The arguments a service call merges into its payload: `None` and an
      empty dict both contribute nothing (`if arguments:`). */
  function ArgumentsOf(arguments: Option<map<string, Json>>): map<string, Json>
  {
    if arguments.Some? then arguments.value else map[]
  }

  /** The payload of a service call: `{"entity_id": entity_id}` with every
      argument written over it, so an `entity_id` argument overrides the
      device id. */
  function ServicePayload(entityId: string, arguments: Option<map<string, Json>>): (p: map<string, Json>)
    ensures p.Keys == {"entity_id"} + ArgumentsOf(arguments).Keys
    ensures forall k :: k in ArgumentsOf(arguments) ==> p[k] == ArgumentsOf(arguments)[k]
    ensures "entity_id" !in ArgumentsOf(arguments) ==> p["entity_id"] == JStr(entityId)
  {
    map["entity_id" := JStr(entityId)] + ArgumentsOf(arguments)
  }

  /** The payload of a state write: the state and the attributes, which are
      sent as `null` when the caller passes none. */
  function StatePayload(state: string, attributes: Json): (p: map<string, Json>)
    ensures p.Keys == {"state", "attributes"}
    ensures p["state"] == JStr(state) && p["attributes"] == attributes
  {
    map["state" := JStr(state), "attributes" := attributes]
  }

  /** The payload of an Assist command: the text, and the `language` argument
      or `"en"` when it is absent (missing arguments read as `{}`). */
  function AssistPayload(command: string, arguments: Option<map<string, Json>>): (p: map<string, Json>)
    ensures p.Keys == {"text", "language"}
    ensures p["text"] == JStr(command)
    ensures "language" in ArgumentsOf(arguments) ==> p["language"] == ArgumentsOf(arguments)["language"]
    ensures "language" !in ArgumentsOf(arguments) ==> p["language"] == JStr("en")
  {
    var given := if arguments.Some? then arguments.value else map[];
    map["text" := JStr(command),
        "language" := if "language" in given then given["language"] else JStr("en")]
  }

  /** Only the `language` argument reaches an Assist payload: any two argument
      sets that agree on it give the same payload. */
  lemma AssistIgnoresOtherArguments(command: string, a: Option<map<string, Json>>, b: Option<map<string, Json>>)
    requires ("language" in ArgumentsOf(a)) == ("language" in ArgumentsOf(b))
    requires "language" in ArgumentsOf(a) ==> ArgumentsOf(a)["language"] == ArgumentsOf(b)["language"]
    ensures AssistPayload(command, a) == AssistPayload(command, b)
  {
  }

  /** Turning a device on or off is the service call of that name with no
      arguments: same URL, same payload. */
  lemma SwitchIsServiceCall(host: string, entityId: string, domain: string)
    ensures ServiceUrl(host, domain, "turn_on") == host + "/api/services/" + domain + "/turn_on"
    ensures ServiceUrl(host, domain, "turn_off") == host + "/api/services/" + domain + "/turn_off"
    ensures ServicePayload(entityId, None) == map["entity_id" := JStr(entityId)]
    ensures ServicePayload(entityId, Some(map[])) == ServicePayload(entityId, None)
  {
    var prefix := host + "/api/services/" + domain;
    assert prefix + "/" + "turn_on" == prefix + "/turn_on";
    assert prefix + "/" + "turn_off" == prefix + "/turn_off";
    assert ServicePayload(entityId, None).Keys == {"entity_id"};
  }
}
