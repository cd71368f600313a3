/**
 The session registry and the factory entry point. The registry maps a session id to
 the client built for it; the first call for an id builds the client, later calls
 reuse it and may only change its proxy and its redirect policy.
 */
module Sessions {
  import opened FactoryTypes
  import opened Profiles
  import opened Clients

  /** The session id of a call: the caller's when non-empty, the generated one otherwise. */
  function SessionIdFor(requested: Option<string>, generated: string): (id: string)
    ensures requested.Some? && requested.value != "" ==> id == requested.value
    ensures requested.None? || requested.value == "" ==> id == generated
  {
    if requested.Some? && requested.value != "" then requested.value else generated
  }

  /**
   The validation of the client choice: exactly one of a TLS identifier and a custom
   definition must be given.
   */
  function ClientChoiceError(input: RequestInput): (e: Option<FactoryError>)
    ensures e.None? <==> (input.tlsClientIdentifier != "") != input.customTlsClient.Some?
    ensures e == Some(BothClientChoices) <==> input.tlsClientIdentifier != "" && input.customTlsClient.Some?
    ensures e == Some(NoClientChoice) <==> input.tlsClientIdentifier == "" && input.customTlsClient.None?
  {
    if input.tlsClientIdentifier != "" && input.customTlsClient.Some? then Some(BothClientChoices)
    else if input.tlsClientIdentifier == "" && input.customTlsClient.None? then Some(NoClientChoice)
    else None
  }

  /**
   handleModification: a supplied proxy that differs from the current one is installed
   (and its rejection ends the call with nothing changed); the redirect flag is set to
   the requested value; `changed` reports whether either happened.
   */
  method HandleModification(lib: Library, client: Handle, proxyUrl: Option<string>, followRedirects: bool)
    returns (modified: Handle?, changed: bool, err: Option<FactoryError>)
    modifies client
    ensures var proxyChange := proxyUrl.Some? && old(client.proxyUrl) != proxyUrl.value;
      if proxyChange && !lib.acceptsProxy(proxyUrl.value) then
        && modified == null && !changed && err == Some(ProxyChangeRejected)
        && client.proxyUrl == old(client.proxyUrl) && client.followRedirect == old(client.followRedirect)
      else
        && modified == client && err == None
        && client.proxyUrl == (if proxyChange then proxyUrl.value else old(client.proxyUrl))
        && client.followRedirect == followRedirects
        && changed == (proxyChange || old(client.followRedirect) != followRedirects)
  {
    changed := false;

    if proxyUrl.Some? && client.proxyUrl != proxyUrl.value {
      var ok := client.SetProxy(lib, proxyUrl.value);
      if !ok {
        return null, false, Some(ProxyChangeRejected);
      }
      changed := true;
    }

    if client.followRedirect != followRedirects {
      client.SetFollowRedirect(followRedirects);
      changed := true;
    }

    return client, changed, None;
  }

  /**
   getTlsClient's profile step for a new id: a custom definition is converted first and
   its failure ends the call; a named identifier, when given, then replaces the result.
   */
  method ResolveClientProfile(lib: Library, input: RequestInput) returns (r: Result<ClientProfile>)
    ensures r == ResolveProfile(lib, input)
  {
    var clientProfile := ZeroProfile;
    if input.customTlsClient.Some? {
      var custom := GetCustomTlsClientProfile(lib, input.customTlsClient.value);
      if custom.Err? {
        return Err(custom.error);
      }
      clientProfile := custom.value;
    }
    if input.tlsClientIdentifier != "" {
      clientProfile := GetTlsClientProfile(lib, input.tlsClientIdentifier);
    }
    return Ok(clientProfile);
  }

  /** The process-wide map from session id to client. */
  class Registry {
    /** A null entry is the nil client stored after a failed construction. */
    var clients: map<string, Handle?>

    /** One client object per session: two ids never share a live handle. */
    ghost predicate Valid()
      reads this
    {
      forall a, b :: a in clients && b in clients && a != b && clients[a] != null ==> clients[a] != clients[b]
    }

    /** The live handle stored under an id, as a frame. */
    function Existing(id: string): set<Handle>
      reads this
    {
      if id in clients && clients[id] != null then {clients[id]} else {}
    }

    constructor ()
      ensures Valid() && clients == map[]
    {
      clients := map[];
    }

    /**
     getTlsClient's branch for a known id with a live client: the client is modified in
     place and is the one returned; the map entry is rewritten with that same handle.
     */
    method ReuseClient(lib: Library, input: RequestInput, sessionId: string)
      returns (client: Handle?, err: Option<FactoryError>)
      requires Valid() && sessionId in clients && clients[sessionId] != null
      modifies this, clients[sessionId]
      ensures Valid() && clients == old(clients)
      ensures var h := old(clients[sessionId]);
        var proxyChange := input.proxyUrl.Some? && old(h.proxyUrl) != input.proxyUrl.value;
        if proxyChange && !lib.acceptsProxy(input.proxyUrl.value) then
          && client == null && err == Some(ProxyChangeRejected)
          && h.proxyUrl == old(h.proxyUrl) && h.followRedirect == old(h.followRedirect)
        else
          && client == h && err == None
          && h.proxyUrl == (if proxyChange then input.proxyUrl.value else old(h.proxyUrl))
          && h.followRedirect == input.followRedirects
      ensures forall a :: a in old(clients) && a != sessionId && old(clients[a]) != null ==>
        old(clients[a]).proxyUrl == old(clients[a].proxyUrl) && old(clients[a]).followRedirect == old(clients[a].followRedirect)
    {
      var existing := clients[sessionId];
      var modified, changed, modErr := HandleModification(lib, existing, input.proxyUrl, input.followRedirects);
      if modErr.Some? {
        return null, modErr;
      }
      if changed {
        clients := clients[sessionId := modified];
      }
      return modified, None;
    }

    /**
     getTlsClient's branch for a new id: resolve the profile, build the options and the
     client, and store the client under the id before its error is looked at.
     */
    method CreateClient(lib: Library, input: RequestInput, sessionId: string)
      returns (client: Handle?, err: Option<FactoryError>)
      requires Valid() && sessionId !in clients
      modifies this
      ensures Valid()
      ensures match ResolveProfile(lib, input)
        case Err(e) => client == null && err == Some(e) && clients == old(clients)
        case Ok(profile) =>
          var config := RequestedConfig(lib, input, profile);
          && clients == old(clients)[sessionId := client]
          && (err.None? <==> lib.acceptsConfig(config))
          && (err.None? ==> client != null && fresh(client) && client.Config() == config)
          && (err.Some? ==> client == null && err == Some(ConstructionFailed))
    {
      var resolved := ResolveClientProfile(lib, input);
      if resolved.Err? {
        return null, Some(resolved.error);
      }
      var clientProfile := resolved.value;

      var options := ClientOptions(lib, input, clientProfile);
      var tlsClient, ok := NewHttpClient(lib, options);
      assert forall a :: a in clients && clients[a] != null ==> clients[a] != tlsClient;

      clients := clients[sessionId := tlsClient];

      client := tlsClient;
      err := if ok then None else Some(ConstructionFailed);
    }

    /**
     getTlsClient: reuse and modify the client of a known id, or resolve a profile,
     build a client and store it under the id. The new client is stored before the
     construction error is looked at, so a failed construction leaves a nil entry.
     */
    method GetTlsClient(lib: Library, input: RequestInput, sessionId: string)
      returns (client: Handle?, err: Option<FactoryError>)
      requires Valid()
      modifies this, Existing(sessionId)
      ensures Valid()
      ensures old(sessionId in clients && clients[sessionId] != null) ==>
        var h := old(clients[sessionId]);
        var proxyChange := input.proxyUrl.Some? && old(h.proxyUrl) != input.proxyUrl.value;
        && clients == old(clients)
        && if proxyChange && !lib.acceptsProxy(input.proxyUrl.value) then
             && client == null && err == Some(ProxyChangeRejected)
             && h.proxyUrl == old(h.proxyUrl) && h.followRedirect == old(h.followRedirect)
           else
             && client == h && err == None
             && h.proxyUrl == (if proxyChange then input.proxyUrl.value else old(h.proxyUrl))
             && h.followRedirect == input.followRedirects
      ensures old(sessionId in clients && clients[sessionId] == null) ==>
        client == null && err == Some(NilClientPanic) && clients == old(clients)
      ensures sessionId !in old(clients) ==>
        match ResolveProfile(lib, input)
        case Err(e) => client == null && err == Some(e) && clients == old(clients)
        case Ok(profile) =>
          var config := RequestedConfig(lib, input, profile);
          && clients == old(clients)[sessionId := client]
          && (err.None? <==> lib.acceptsConfig(config))
          && (err.None? ==> client != null && fresh(client) && client.Config() == config)
          && (err.Some? ==> client == null && err == Some(ConstructionFailed))
      ensures forall a :: a in old(clients) && a != sessionId && old(clients[a]) != null ==>
        old(clients[a]).proxyUrl == old(clients[a].proxyUrl) && old(clients[a]).followRedirect == old(clients[a].followRedirect)
    {
      if sessionId in clients {
        if clients[sessionId] == null {
          return null, Some(NilClientPanic);
        }
        client, err := ReuseClient(lib, input, sessionId);
      } else {
        client, err := CreateClient(lib, input, sessionId);
      }
    }

    /**
     GetTlsClientFromInput: pick the session id, reject a conflicting or missing client
     choice before the registry is consulted, then get or create the session's client.
     */
    method GetTlsClientFromInput(lib: Library, input: RequestInput, generatedId: string)
      returns (client: Handle?, sessionId: string, err: Option<FactoryError>)
      requires Valid()
      modifies this, Existing(SessionIdFor(input.sessionId, generatedId))
      ensures Valid()
      ensures sessionId == SessionIdFor(input.sessionId, generatedId)
      ensures ClientChoiceError(input).Some? ==>
        && client == null && err == ClientChoiceError(input)
        && clients == old(clients) && unchanged(Existing(sessionId))
      ensures ClientChoiceError(input).None? && old(sessionId in clients && clients[sessionId] != null) ==>
        var h := old(clients[sessionId]);
        var proxyChange := input.proxyUrl.Some? && old(h.proxyUrl) != input.proxyUrl.value;
        && clients == old(clients)
        && if proxyChange && !lib.acceptsProxy(input.proxyUrl.value) then
             && client == null && err == Some(ProxyChangeRejected)
             && h.proxyUrl == old(h.proxyUrl) && h.followRedirect == old(h.followRedirect)
           else
             && client == h && err == None
             && h.proxyUrl == (if proxyChange then input.proxyUrl.value else old(h.proxyUrl))
             && h.followRedirect == input.followRedirects
      ensures ClientChoiceError(input).None? && old(sessionId in clients && clients[sessionId] == null) ==>
        client == null && err == Some(NilClientPanic) && clients == old(clients)
      ensures ClientChoiceError(input).None? && sessionId !in old(clients) ==>
        match ResolveProfile(lib, input)
        case Err(e) => client == null && err == Some(e) && clients == old(clients)
        case Ok(profile) =>
          var config := RequestedConfig(lib, input, profile);
          && clients == old(clients)[sessionId := client]
          && (err.None? <==> lib.acceptsConfig(config))
          && (err.None? ==> client != null && fresh(client) && client.Config() == config)
          && (err.Some? ==> client == null && err == Some(ConstructionFailed))
      ensures forall a :: a in old(clients) && a != sessionId && old(clients[a]) != null ==>
        old(clients[a]).proxyUrl == old(clients[a].proxyUrl) && old(clients[a]).followRedirect == old(clients[a].followRedirect)
    {
      sessionId := generatedId;
      if input.sessionId.Some? && input.sessionId.value != "" {
        sessionId := input.sessionId.value;
      }

      if input.tlsClientIdentifier != "" && input.customTlsClient.Some? {
        return null, sessionId, Some(BothClientChoices);
      }
      if input.tlsClientIdentifier == "" && input.customTlsClient.None? {
        return null, sessionId, Some(NoClientChoice);
      }

      client, err := GetTlsClient(lib, input, sessionId);
    }
  }

  /**
   Two calls with the same non-empty session id: once the first has built a client,
   the second gets that very client back whatever profile it names, unless it asks
   for a proxy the client rejects.
   */
  method SameSessionReusesClient(registry: Registry, lib: Library, first: RequestInput, second: RequestInput,
                                 id: string, generated1: string, generated2: string)
    returns (client1: Handle?, client2: Handle?)
    requires registry.Valid()
    requires id != "" && first.sessionId == Some(id) && second.sessionId == Some(id)
    modifies registry, registry.Existing(id)
    ensures client1 != null && ClientChoiceError(second).None? && second.proxyUrl.None? ==> client2 == client1
    ensures client1 != null && client2 != null ==> client2 == client1
  {
    var sid1, sid2, err1, err2;
    client1, sid1, err1 := registry.GetTlsClientFromInput(lib, first, generated1);
    client2, sid2, err2 := registry.GetTlsClientFromInput(lib, second, generated2);
  }

  /**
   Two calls with the same session id where the first finds the id new: when the
   first call's construction fails, the nil client it stored makes the second call
   reach the nil-client path, whatever that call asks for.
   */
  method FailedConstructionPoisonsSession(registry: Registry, lib: Library, first: RequestInput, second: RequestInput,
                                          id: string, generated1: string, generated2: string)
    returns (err1: Option<FactoryError>, err2: Option<FactoryError>)
    requires registry.Valid() && id !in registry.clients
    requires id != "" && first.sessionId == Some(id) && second.sessionId == Some(id)
    modifies registry
    ensures ClientChoiceError(second).None? && err1 == Some(ConstructionFailed) ==> err2 == Some(NilClientPanic)
    ensures ClientChoiceError(first).None? && ResolveProfile(lib, first).Ok? &&
            !lib.acceptsConfig(RequestedConfig(lib, first, ResolveProfile(lib, first).value)) ==>
              err1 == Some(ConstructionFailed) && id in registry.clients && registry.clients[id] == null
  {
    var client1, client2, sid1, sid2;
    client1, sid1, err1 := registry.GetTlsClientFromInput(lib, first, generated1);
    client2, sid2, err2 := registry.GetTlsClientFromInput(lib, second, generated2);
  }
}
