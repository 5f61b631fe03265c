/** The decision logic of the Paean AI provider
    (crates/a8e-core/src/providers/paean_ai.rs): its static metadata, the
    construction from configuration lookups, the interpretation of the
    model-listing response, and the session-id injection into a completion
    request. HTTP transport, retries and stream decoding are outside. */
module PaeanAi {
  import opened Wrappers
  import opened JsonValue
  import opened StringOrder

  const ProviderName: string := "paean_ai"
  const DefaultModel: string := "opensota/os-v1"
  const DefaultFastModel: string := "opensota/os-v1-flash"
  const KnownModels: seq<string> := [
    "opensota/os-v1",
    "opensota/os-v1-pro",
    "opensota/os-v1-mini",
    "opensota/os-v1-flash",
    "opensota/claude-sonnet",
    "anthropic/claude-3-5-sonnet",
    "openai/gpt-4o",
    "openai/gpt-4o-mini",
    "google/gemini-pro",
    "deepseek/deepseek-v3.2-exp",
    "moonshotai/kimi-k2",
    "x-ai/grok-4"
  ]
  const DocUrl: string := "https://api.paean.ai"

  /** The host `from_env` falls back to. */
  const DefaultHost: string := "https://api.paean.ai"
  const ApiKeyName: string := "PAEAN_AI_API_KEY"
  const HostKeyName: string := "PAEAN_AI_HOST"

  /** The kinds of `ProviderError` this provider produces. */
  datatype ProviderError = RequestFailed(message: string) | UsageError(message: string)

  // ---------------------------------------------------------------------
  // Metadata

  /** `ConfigKey::new(name, required, secret, default, last)`; the meaning of
      the last flag is defined with `ConfigKey`, outside this model. */
  datatype ConfigKey = ConfigKey(name: string, required: bool, secret: bool, default: Option<string>, last: bool)

  datatype ProviderMetadata = ProviderMetadata(
    name: string,
    displayName: string,
    description: string,
    defaultModel: string,
    knownModels: seq<string>,
    modelDocLink: string,
    configKeys: seq<ConfigKey>,
    allowsUnlistedModels: bool)

  /** The first declared key with the given name. */
  function FindKey(keys: seq<ConfigKey>, name: string): (r: Option<ConfigKey>)
    ensures r.Some? ==> r.value in keys && r.value.name == name
    ensures r.None? ==> forall k :: k in keys ==> k.name != name
  {
    if keys == [] then None
    else if keys[0].name == name then Some(keys[0])
    else FindKey(keys[1..], name)
  }

  /** `metadata()`: the API key is declared required and secret, the host
      optional and plain with the same default that `from_env` falls back
      to, and both default models are among the known models. */
  function Metadata(): (m: ProviderMetadata)
    ensures m.name == ProviderName
    ensures m.defaultModel == DefaultModel && m.defaultModel in m.knownModels && DefaultFastModel in m.knownModels
    ensures FindKey(m.configKeys, ApiKeyName).Some?
    ensures var k := FindKey(m.configKeys, ApiKeyName).value; k.required && k.secret && k.default.None?
    ensures FindKey(m.configKeys, HostKeyName).Some?
    ensures var k := FindKey(m.configKeys, HostKeyName).value; !k.required && !k.secret && k.default == Some(DefaultHost)
    ensures m.allowsUnlistedModels
  {
    ProviderMetadata(
      ProviderName,
      "Paean AI",
      "AI gateway with multi-provider model routing",
      DefaultModel,
      KnownModels,
      DocUrl,
      [ ConfigKey(ApiKeyName, true, true, None, true),
        ConfigKey(HostKeyName, false, false, Some("https://api.paean.ai"), false) ],
      true)
  }

  // ---------------------------------------------------------------------
  // Construction

  datatype AuthMethod = BearerToken(token: string)

  /** The constructed provider; `C` is the `ApiClient`, `M` the `ModelConfig`. */
  datatype Provider<M, C> = Provider(client: C, model: M, supportsStreaming: bool, name: string)

  /** The host parameter, or the default when its lookup fails; that default
      is the one `metadata()` declares for `PAEAN_AI_HOST`. */
  function ResolvedHost(hostParam: Result<string, string>): (host: string)
    ensures hostParam.Success? ==> host == hostParam.value
    ensures hostParam.Failure? ==> Some(host) == FindKey(Metadata().configKeys, HostKeyName).value.default
  {
    match hostParam
    case Success(h) => h
    case Failure(_) => DefaultHost
  }

  /** `from_env`. Its collaborators are inputs: `withFast` is the outcome of
      `model.with_fast(DEFAULT_FAST_MODEL, "paean_ai")`, `apiKey` and
      `hostParam` those of the secret and parameter lookups, and `newClient`
      is `ApiClient::new`. */
  function FromEnv<M, C>(withFast: Result<M, string>, apiKey: Result<string, string>,
                         hostParam: Result<string, string>,
                         newClient: (string, AuthMethod) -> Result<C, string>): (r: Result<Provider<M, C>, string>)
    ensures withFast.Failure? ==> r == Failure(withFast.error)
    ensures withFast.Success? && apiKey.Failure? ==> r == Failure(apiKey.error)
    ensures r.Success? ==> withFast.Success? && apiKey.Success?
    ensures withFast.Success? && apiKey.Success? ==>
      var host := if hostParam.Success? then hostParam.value else DefaultHost;
      var client := newClient(host, BearerToken(apiKey.value));
      && (client.Failure? ==> r == Failure(client.error))
      && (client.Success? ==> r == Success(Provider(client.value, withFast.value, true, ProviderName)))
    ensures hostParam.Failure? ==> Some(ResolvedHost(hostParam)) == FindKey(Metadata().configKeys, HostKeyName).value.default
  {
    match withFast
    case Failure(e) => Failure(e)
    case Success(model) =>
      match apiKey
      case Failure(e) => Failure(e)
      case Success(key) =>
        match newClient(ResolvedHost(hostParam), BearerToken(key))
        case Failure(e) => Failure(e)
        case Success(client) => Success(Provider(client, model, true, ProviderName))
  }

  // ---------------------------------------------------------------------
  // Model listing

  /** What the listing request yields: a transport error, a body that is
      not JSON (each with the underlying error's text), or a JSON document. */
  datatype ModelsResponse = TransportFailed(detail: string) | NotJson(detail: string) | Parsed(json: Json)

  /** The `"message"` of an error object, when it is a string. */
  function ErrorMessage(err: Json): (msg: string)
    ensures err.Object? && "message" in err.fields && err.fields["message"].String? ==> msg == err.fields["message"].s
    ensures !(err.Object? && "message" in err.fields && err.fields["message"].String?) ==> msg == "unknown error"
  {
    match Get(err, "message")
    case Some(String(s)) => s
    case _ => "unknown error"
  }

  /** The string `"id"` of one listed model. */
  function IdOf(entry: Json): (id: Option<string>)
    ensures id.Some? <==> entry.Object? && "id" in entry.fields && entry.fields["id"].String?
    ensures id.Some? ==> id.value == entry.fields["id"].s
  {
    match Get(entry, "id")
    case Some(v) => AsStr(v)
    case None => None
  }

  /** The `filter_map` over the `data` entries: their string ids, in order. */
  function ModelIds(data: seq<Json>): (ids: seq<string>)
    ensures |ids| <= |data|
    ensures forall x :: x in ids <==> exists i :: 0 <= i < |data| && IdOf(data[i]) == Some(x)
  {
    if data == [] then []
    else
      var rest := ModelIds(data[1..]);
      assert forall i :: 0 < i < |data| ==> data[i] == data[1..][i - 1];
      assert forall x :: (exists i :: 0 <= i < |data[1..]| && IdOf(data[1..][i]) == Some(x))
                      ==> (exists i :: 0 <= i < |data| && IdOf(data[i]) == Some(x)) by {
        forall x, i | 0 <= i < |data[1..]| && IdOf(data[1..][i]) == Some(x)
          ensures exists i' :: 0 <= i' < |data| && IdOf(data[i']) == Some(x)
        {
          assert data[i + 1] == data[1..][i];
        }
      }
      match IdOf(data[0])
      case Some(id) => [id] + rest
      case None => rest
  }

  /** `fetch_supported_models` from the response on. An error envelope
      takes precedence over everything else; a missing or non-array `data`
      is a usage error; otherwise the result is the string ids of the
      entries, sorted, with entries lacking one skipped and duplicates
      kept. */
  function FetchSupportedModels(response: ModelsResponse): (r: Result<seq<string>, ProviderError>)
    ensures response.TransportFailed? ==>
      r == Failure(RequestFailed("Failed to fetch models from Paean AI: " + response.detail))
    ensures response.NotJson? ==>
      r == Failure(RequestFailed("Failed to parse Paean AI response as JSON: " + response.detail))
    ensures response.Parsed? && Get(response.json, "error").Some? ==>
      r == Failure(RequestFailed("Paean AI returned an error: " + ErrorMessage(Get(response.json, "error").value)))
    ensures (r.Failure? && r.error.UsageError?) <==>
      response.Parsed? && Get(response.json, "error").None? && !(Get(response.json, "data").Some? && Get(response.json, "data").value.Array?)
    ensures r.Failure? && r.error.UsageError? ==> r.error.message == "Missing data field in JSON response"
    ensures r.Success? <==>
      response.Parsed? && Get(response.json, "error").None?
      && Get(response.json, "data").Some? && Get(response.json, "data").value.Array?
    ensures r.Success? ==>
      && response.Parsed? && Get(response.json, "error").None?
      && Get(response.json, "data").Some? && Get(response.json, "data").value.Array?
      && var data := Get(response.json, "data").value.items;
         Sorted(r.value) && multiset(r.value) == multiset(ModelIds(data)) && |r.value| <= |data|
  {
    match response
    case TransportFailed(e) => Failure(RequestFailed("Failed to fetch models from Paean AI: " + e))
    case NotJson(e) => Failure(RequestFailed("Failed to parse Paean AI response as JSON: " + e))
    case Parsed(json) =>
      match Get(json, "error")
      case Some(errObj) => Failure(RequestFailed("Paean AI returned an error: " + ErrorMessage(errObj)))
      case None =>
        match Get(json, "data")
        case Some(Array(data)) =>
          var models := Sort(ModelIds(data));
          assert |models| == |multiset(models)| == |ModelIds(data)|;
          Success(models)
        case _ => Failure(UsageError("Missing data field in JSON response"))
  }

  /** An error object without a string `message` is reported as
      `"unknown error"`; this includes `"error": null`. */
  lemma UnknownErrorMessage(json: Json)
    requires Get(json, "error").Some?
    requires var m := Get(Get(json, "error").value, "message"); m.None? || !m.value.String?
    ensures FetchSupportedModels(Parsed(json)) == Failure(RequestFailed("Paean AI returned an error: " + "unknown error"))
  {
    assert ErrorMessage(Get(json, "error").value) == "unknown error";
  }

  /** When every entry has a string id, nothing is dropped: the models are
      exactly the ids, one per entry, duplicates included. */
  lemma {:induction false} ModelIdsKeepsAll(data: seq<Json>)
    requires forall i :: 0 <= i < |data| ==> IdOf(data[i]).Some?
    ensures |ModelIds(data)| == |data|
    ensures forall i :: 0 <= i < |data| ==> ModelIds(data)[i] == IdOf(data[i]).value
  {
    if data != [] {
      assert forall i :: 0 <= i < |data[1..]| ==> data[1..][i] == data[i + 1];
      ModelIdsKeepsAll(data[1..]);
    }
  }

  /** The ids of concatenated entries are the concatenation of their ids:
      together with `ModelIdsOfOne`, every entry contributes its own id, in
      order, whatever the other entries hold, so duplicates are kept. */
  lemma {:induction false} ModelIdsAppend(a: seq<Json>, b: seq<Json>)
    ensures ModelIds(a + b) == ModelIds(a) + ModelIds(b)
  {
    if a != [] {
      assert (a + b)[1..] == a[1..] + b;
      assert (a + b)[0] == a[0];
      ModelIdsAppend(a[1..], b);
    } else {
      assert a + b == b;
    }
  }

  /** One entry yields its string id, or nothing when it has none. */
  lemma ModelIdsOfOne(entry: Json)
    ensures IdOf(entry).Some? ==> ModelIds([entry]) == [IdOf(entry).value]
    ensures IdOf(entry).None? ==> ModelIds([entry]) == []
  {
    assert [entry][1..] == [];
  }

  /** A successful listing is the one sorted arrangement of the entries'
      string ids: any sorted permutation of them equals it. */
  lemma FetchedModelsDetermined(json: Json, models: seq<string>)
    requires FetchSupportedModels(Parsed(json)).Success?
    requires Get(json, "data").Some? && Get(json, "data").value.Array?
    requires Sorted(models) && multiset(models) == multiset(ModelIds(Get(json, "data").value.items))
    ensures FetchSupportedModels(Parsed(json)).value == models
  {
    SortedPermutationUnique(FetchSupportedModels(Parsed(json)).value, models);
  }

  // ---------------------------------------------------------------------
  // The request payload of `stream`

  /** The payload with the session id as `"user"`: set exactly when the id
      is non-empty and the payload is an object; every other field is kept. */
  function WithSessionUser(request: Json, sessionId: string): (p: Json)
    ensures sessionId != [] && request.Object? ==>
      p.Object? && Get(p, "user") == Some(String(sessionId))
      && forall k :: k != "user" ==> Get(p, k) == Get(request, k)
    ensures !(sessionId != [] && request.Object?) ==> p == request
  {
    if sessionId != [] && request.Object? then Object(request.fields["user" := String(sessionId)]) else request
  }

  /** The first step of `stream`: `payload` is the request built for the
      conversation, and the session id is inserted into it in place. */
  method PrepareStreamPayload(request: Json, sessionId: string) returns (payload: Json)
    ensures payload == WithSessionUser(request, sessionId)
  {
    payload := request;
    if sessionId != [] {
      if payload.Object? {
        payload := Object(payload.fields["user" := String(sessionId)]);
      }
    }
  }

  /** Two calls that differ only in the session id send payloads that agree
      on every field except `"user"`. */
  lemma PayloadsDifferOnlyInUser(request: Json, s1: string, s2: string, k: string)
    requires k != "user"
    ensures Get(WithSessionUser(request, s1), k) == Get(WithSessionUser(request, s2), k)
  {
  }
}
