/** ai_client.py: the text-generation facade. It holds the current (provider, model)
    selection, switches it only after checking the request against the configured
    registry `ai_models.providers.<provider>.models.model[]`, and routes a generation
    request to the adapter of the selected provider. The provider SDKs are abstract
    functions from the request they receive to their (possibly failing) answer. */
module AiClient {
  import opened Wrappers
  import opened Python

  /** The closed set of provider adapters. */
  datatype Provider = Anthropic | OpenAI

  /** The configuration tag of a provider. */
  function Tag(p: Provider): string
  {
    match p
    case Anthropic => "anthropic"
    case OpenAI => "openai"
  }

  /** The limit an adapter uses when the first configured model gives none. */
  function FallbackMaxTokens(p: Provider): int
  {
    match p
    case Anthropic => 100000
    case OpenAI => 2000
  }

  /** The branch of `generate_text` taken for the current provider value. */
  function Dispatch(provider: Value): (r: Option<Provider>)
    ensures r == Some(Anthropic) <==> provider == Str("anthropic")
    ensures r == Some(OpenAI) <==> provider == Str("openai")
    ensures r.Some? ==> provider == Str(Tag(r.value))
  {
    if provider == Str("anthropic") then Some(Anthropic)
    else if provider == Str("openai") then Some(OpenAI)
    else None
  }

  /** What an adapter sends to its SDK. */
  datatype Request = Request(provider: Provider, model: Value, prompt: string, maxTokens: Value)

  /** `...providers.<p>.models.model[0].capabilities.text_generation.@max_tokens`, the
      limit of the FIRST model listed under the provider, whichever model is selected. */
  function DefaultMaxTokens(config: Value, p: Provider): (r: Result<Value, PyError>)
    ensures var models := GetChain(config, ["ai_models", "providers", Tag(p), "models"]);
            models.Err? ==> r == Err(models.error)
    // an empty or missing model list fails with an IndexError
    ensures var models := GetChain(config, ["ai_models", "providers", Tag(p), "models"]);
            models.Ok? && models.value.Dict? &&
            ("model" !in models.value.entries || models.value.entries["model"] == List([])) ==>
              r == Err(IndexError)
  {
    match GetChain(config, ["ai_models", "providers", Tag(p), "models"])
    case Err(e) => Err(e)
    case Ok(models) =>
      match Get(models, "model", EmptyList)
      case Err(e) => Err(e)
      case Ok(modelList) =>
        match First(modelList)
        case Err(e) => Err(e)
        case Ok(first) =>
          match GetChain(first, ["capabilities", "text_generation"])
          case Err(e) => Err(e)
          case Ok(generation) => Get(generation, "@max_tokens", Int(FallbackMaxTokens(p)))
  }

  /** The default limit is the first listed model's `@max_tokens`, or the provider's
      fallback when that model declares none. */
  lemma DefaultFromFirstModel(config: Value, p: Provider, models: map<string, Value>,
                              entries: seq<Value>, generation: map<string, Value>)
    requires GetChain(config, ["ai_models", "providers", Tag(p), "models"]) == Ok(Dict(models))
    requires "model" in models && models["model"] == List(entries) && |entries| > 0
    requires GetChain(entries[0], ["capabilities", "text_generation"]) == Ok(Dict(generation))
    ensures "@max_tokens" in generation ==> DefaultMaxTokens(config, p) == Ok(generation["@max_tokens"])
    ensures "@max_tokens" !in generation ==> DefaultMaxTokens(config, p) == Ok(Int(FallbackMaxTokens(p)))
  {
  }

  /** The request an adapter builds: the selected model, the prompt, and the explicit
      limit unchanged, or else the configured default. */
  function BuildRequest(config: Value, p: Provider, model: Value, prompt: string, maxTokens: Option<int>)
    : (r: Result<Request, PyError>)
    ensures maxTokens.Some? ==> r == Ok(Request(p, model, prompt, Int(maxTokens.value)))
    ensures maxTokens.None? ==> (r.Ok? <==> DefaultMaxTokens(config, p).Ok?)
    ensures maxTokens.None? && r.Err? ==> r.error == DefaultMaxTokens(config, p).error
    ensures maxTokens.None? && r.Ok? ==> r.value == Request(p, model, prompt, DefaultMaxTokens(config, p).value)
  {
    match maxTokens
    case Some(n) => Ok(Request(p, model, prompt, Int(n)))
    case None =>
      match DefaultMaxTokens(config, p)
      case Err(e) => Err(e)
      case Ok(limit) => Ok(Request(p, model, prompt, limit))
  }

  /** `response.choices[0].message.content` */
  function FirstChoice(response: Result<seq<string>, PyError>): (r: Result<string, PyError>)
    ensures response.Err? ==> r == Err(response.error)
    ensures response == Ok([]) ==> r == Err(IndexError)
    ensures r.Ok? <==> response.Ok? && |response.value| > 0
    ensures r.Ok? ==> r.value == response.value[0]
  {
    match response
    case Err(e) => Err(e)
    case Ok(choices) => if |choices| == 0 then Err(IndexError) else Ok(choices[0])
  }

  /** `_generate_anthropic` / `_generate_openai`: one SDK call with the built request;
      its failure propagates unchanged. `anthropicApi` gives `response.content`;
      `openaiApi` gives the message contents of the response's choices. */
  function Adapter(config: Value, p: Provider, model: Value, prompt: string, maxTokens: Option<int>,
                   anthropicApi: Request -> Result<string, PyError>,
                   openaiApi: Request -> Result<seq<string>, PyError>): (r: Result<string, PyError>)
    ensures BuildRequest(config, p, model, prompt, maxTokens).Err? ==>
              r == Err(BuildRequest(config, p, model, prompt, maxTokens).error)
    ensures maxTokens.Some? && p == Anthropic ==>
              r == anthropicApi(Request(Anthropic, model, prompt, Int(maxTokens.value)))
    ensures maxTokens.Some? && p == OpenAI ==>
              r == FirstChoice(openaiApi(Request(OpenAI, model, prompt, Int(maxTokens.value))))
    ensures maxTokens.None? && DefaultMaxTokens(config, p).Ok? && p == Anthropic ==>
              r == anthropicApi(Request(Anthropic, model, prompt, DefaultMaxTokens(config, p).value))
    ensures maxTokens.None? && DefaultMaxTokens(config, p).Ok? && p == OpenAI ==>
              r == FirstChoice(openaiApi(Request(OpenAI, model, prompt, DefaultMaxTokens(config, p).value)))
  {
    match BuildRequest(config, p, model, prompt, maxTokens)
    case Err(e) => Err(e)
    case Ok(request) =>
      match p
      case Anthropic => anthropicApi(request)
      case OpenAI => FirstChoice(openaiApi(request))
  }

  /** The initial selection: `ai_models.default.{provider,model}`, else ("anthropic", "Sonnet 3.5"). */
  function DefaultSelection(config: Value): (r: Result<(Value, Value), PyError>)
    ensures GetChain(config, ["ai_models", "default"]) == Ok(EmptyDict) ==>
              r == Ok((Str("anthropic"), Str("Sonnet 3.5")))
    ensures GetChain(config, ["ai_models", "default"]).Err? ==> r.Err?
    ensures var d := GetChain(config, ["ai_models", "default"]);
            d.Ok? && d.value.Dict? ==>
              r == Ok((if "provider" in d.value.entries then d.value.entries["provider"] else Str("anthropic"),
                       if "model" in d.value.entries then d.value.entries["model"] else Str("Sonnet 3.5")))
    ensures var d := GetChain(config, ["ai_models", "default"]);
            d.Ok? && !d.value.Dict? ==> r == Err(AttributeError)
  {
    match GetChain(config, ["ai_models", "default"])
    case Err(e) => Err(e)
    case Ok(default) =>
      match Get(default, "provider", Str("anthropic"))
      case Err(e) => Err(e)
      case Ok(provider) =>
        match Get(default, "model", Str("Sonnet 3.5"))
        case Err(e) => Err(e)
        case Ok(model) => Ok((provider, model))
  }

  /** `any(m.get('@name') == model for m in entries)`, stopping at the first match. */
  function AnyNamedItem(entries: seq<Value>, model: string): (r: Result<bool, PyError>)
    ensures r == Ok(true) ==> exists i :: 0 <= i < |entries| && entries[i].Dict? &&
                                         GetIn(entries[i], "@name", Null) == Str(model)
    ensures (forall i :: 0 <= i < |entries| ==> entries[i].Dict?) ==>
              r == Ok(exists i :: 0 <= i < |entries| && GetIn(entries[i], "@name", Null) == Str(model))
  {
    if entries == [] then Ok(false)
    else match Get(entries[0], "@name", Null)
      case Err(e) => Err(e)
      case Ok(name) =>
        if name == Str(model) then Ok(true)
        else
          var rest := AnyNamedItem(entries[1..], model);
          assert forall i :: 1 <= i < |entries| ==> entries[i] == entries[1..][i - 1];
          rest
  }

  /** `any(...)` over the value of `models.model`; iterating a dict or a string yields
      strings, which have no `.get`. */
  function AnyNamed(modelList: Value, model: string): (r: Result<bool, PyError>)
    ensures r == Ok(true) ==>
              modelList.List? && exists i :: 0 <= i < |modelList.items| && modelList.items[i].Dict? &&
                                             GetIn(modelList.items[i], "@name", Null) == Str(model)
    ensures modelList.List? && (forall i :: 0 <= i < |modelList.items| ==> modelList.items[i].Dict?) ==>
              r == Ok(exists i :: 0 <= i < |modelList.items| && GetIn(modelList.items[i], "@name", Null) == Str(model))
    ensures !(modelList.List? || modelList.Dict? || modelList.Str?) ==> r == Err(TypeError)
  {
    match modelList
    case List(entries) => AnyNamedItem(entries, model)
    case Dict(entries) => if |entries| == 0 then Ok(false) else Err(AttributeError)
    case Str(s) => if |s| == 0 then Ok(false) else Err(AttributeError)
    case _ => Err(TypeError)
  }

  /** The checks of `switch_model`: Ok(true) to switch, Ok(false) to refuse, or the
      exception a malformed configuration raises. */
  function ValidateSwitch(config: Value, provider: string, model: string): (r: Result<bool, PyError>)
    ensures var ps := GetChain(config, ["ai_models", "providers"]);
            ps.Err? ==> r == Err(ps.error)
    // an unknown provider is refused without looking further
    ensures var ps := GetChain(config, ["ai_models", "providers"]);
            ps.Ok? && ps.value.Dict? && provider !in ps.value.entries ==> r == Ok(false)
    // a switch is allowed only to a model named under a provider the registry maps
    ensures r == Ok(true) ==>
              var ps := GetChain(config, ["ai_models", "providers"]);
              ps.Ok? && ps.value.Dict? && provider in ps.value.entries &&
              var entry := ps.value.entries[provider];
              entry.Dict? &&
              var models := GetIn(entry, "models", EmptyDict);
              models.Dict? &&
              var modelList := GetIn(models, "model", EmptyList);
              modelList.List? &&
              exists i :: 0 <= i < |modelList.items| && modelList.items[i].Dict? &&
                          GetIn(modelList.items[i], "@name", Null) == Str(model)
  {
    match GetChain(config, ["ai_models", "providers"])
    case Err(e) => Err(e)
    case Ok(providers) =>
      match Contains(providers, provider)
      case Err(e) => Err(e)
      case Ok(known) =>
        if !known then Ok(false)
        else match Subscript(providers, provider)
          case Err(e) => Err(e)
          case Ok(entry) =>
            match Get(entry, "models", EmptyDict)
            case Err(e) => Err(e)
            case Ok(models) =>
              match Get(models, "model", EmptyList)
              case Err(e) => Err(e)
              case Ok(modelList) => AnyNamed(modelList, model)
  }

  /** A provider entry shaped as the registry expects: a dict whose optional `models`
      is a dict whose optional `model` is a list of dicts. */
  predicate WellFormedProvider(entry: Value)
  {
    entry.Dict? &&
    ("models" in entry.entries ==>
      var models := entry.entries["models"];
      models.Dict? &&
      ("model" in models.entries ==>
        models.entries["model"].List? &&
        forall i :: 0 <= i < |models.entries["model"].items| ==> models.entries["model"].items[i].Dict?))
  }

  /** The model entries listed under a well-formed provider entry. */
  function ModelEntries(entry: Value): (entries: seq<Value>)
    requires WellFormedProvider(entry)
    ensures forall i :: 0 <= i < |entries| ==> entries[i].Dict?
  {
    if "models" in entry.entries && "model" in entry.entries["models"].entries
    then entry.entries["models"].entries["model"].items
    else []
  }

  /** The registry knows `model` under `provider`. */
  predicate Registered(providers: map<string, Value>, provider: string, model: string)
    requires forall p :: p in providers ==> WellFormedProvider(providers[p])
  {
    provider in providers &&
    exists i :: 0 <= i < |ModelEntries(providers[provider])| &&
                GetIn(ModelEntries(providers[provider])[i], "@name", Null) == Str(model)
  }

  /** On a well-formed registry the checks never raise, and they accept exactly the
      registered (provider, model) pairs. */
  lemma ValidateSwitchIffRegistered(config: Value, providers: map<string, Value>, provider: string, model: string)
    requires GetChain(config, ["ai_models", "providers"]) == Ok(Dict(providers))
    requires forall p :: p in providers ==> WellFormedProvider(providers[p])
    ensures ValidateSwitch(config, provider, model) == Ok(Registered(providers, provider, model))
  {
    if provider in providers {
      var entries := ModelEntries(providers[provider]);
      assert AnyNamedItem(entries, model) ==
               Ok(exists i :: 0 <= i < |entries| && GetIn(entries[i], "@name", Null) == Str(model));
    }
  }

  class AIClient {
    const config: Value
    var currentProvider: Value
    var currentModel: Value

    constructor (config: Value)
      requires DefaultSelection(config).Ok?
      ensures this.config == config
      ensures (currentProvider, currentModel) == DefaultSelection(config).value
    {
      this.config := config;
      var selection := DefaultSelection(config).value;
      currentProvider := selection.0;
      currentModel := selection.1;
    }

    /** `switch_model(provider, model)`: the selection changes, as a whole, only on a
        request the registry validates. */
    method SwitchModel(provider: string, model: string) returns (r: Result<bool, PyError>)
      modifies this
      ensures r == ValidateSwitch(config, provider, model)
      ensures r == Ok(true) ==> currentProvider == Str(provider) && currentModel == Str(model)
      ensures r != Ok(true) ==> currentProvider == old(currentProvider) && currentModel == old(currentModel)
    {
      r := ValidateSwitch(config, provider, model);
      if r == Ok(true) {
        currentProvider := Str(provider);
        currentModel := Str(model);
      }
    }

    /** `generate_text(prompt, max_tokens)`: the adapter of the current provider with the
        current model, or an "Unsupported provider" error; errors are passed on unchanged. */
    function GenerateText(prompt: string, maxTokens: Option<int>,
                          anthropicApi: Request -> Result<string, PyError>,
                          openaiApi: Request -> Result<seq<string>, PyError>): (r: Result<string, PyError>)
      reads this
      ensures Dispatch(currentProvider).None? ==> r == Err(UnsupportedProvider(currentProvider))
      ensures Dispatch(currentProvider).Some? ==>
                r == Adapter(config, Dispatch(currentProvider).value, currentModel, prompt, maxTokens,
                             anthropicApi, openaiApi)
    {
      match Dispatch(currentProvider)
      case None => Err(UnsupportedProvider(currentProvider))
      case Some(p) => Adapter(config, p, currentModel, prompt, maxTokens, anthropicApi, openaiApi)
    }
  }

  /** A registry with "anthropic" listing "model-a" (no limit) and "openai" listing
      "model-b" (limit 2000), and ("anthropic", "model-a") as the default selection. */
  function ScenarioConfig(): Value
  {
    Dict(map["ai_models" := Dict(map["default" := ScenarioDefault(), "providers" := Dict(ScenarioProviders())])])
  }

  function ScenarioDefault(): Value
  {
    Dict(map["provider" := Str("anthropic"), "model" := Str("model-a")])
  }

  function ScenarioOpenAIModels(): Value
  {
    Dict(map["model" := List([Dict(map["@name" := Str("model-b"), "capabilities" := ScenarioCapabilities()])])])
  }

  function ScenarioCapabilities(): Value
  {
    Dict(map["text_generation" := Dict(map["@max_tokens" := Int(2000)])])
  }

  function ScenarioProviders(): map<string, Value>
  {
    map["anthropic" := Dict(map["models" := Dict(map["model" := List([Dict(map["@name" := Str("model-a")])])])]),
        "openai" := Dict(map["models" := ScenarioOpenAIModels()])]
  }

  /** The registry facts the scenario relies on. */
  lemma ScenarioRegistry()
    ensures DefaultSelection(ScenarioConfig()) == Ok((Str("anthropic"), Str("model-a")))
    ensures ValidateSwitch(ScenarioConfig(), "openai", "model-x") == Ok(false)
    ensures ValidateSwitch(ScenarioConfig(), "openai", "model-b") == Ok(true)
    ensures DefaultMaxTokens(ScenarioConfig(), OpenAI) == Ok(Int(2000))
  {
    var config := ScenarioConfig();
    var providers := ScenarioProviders();
    assert GetChain(config, ["ai_models", "default"]) == Ok(ScenarioDefault()) by {
      assert ["ai_models", "default"][1..] == ["default"];
    }
    assert GetChain(config, ["ai_models", "providers"]) == Ok(Dict(providers)) by {
      assert ["ai_models", "providers"][1..] == ["providers"];
    }
    assert forall p :: p in providers ==> WellFormedProvider(providers[p]);
    var openaiEntries := ModelEntries(providers["openai"]);
    assert |openaiEntries| == 1 && GetIn(openaiEntries[0], "@name", Null) == Str("model-b");
    ValidateSwitchIffRegistered(config, providers, "openai", "model-x");
    ValidateSwitchIffRegistered(config, providers, "openai", "model-b");
    var path := ["ai_models", "providers", Tag(OpenAI), "models"];
    assert GetChain(config, path) == Ok(ScenarioOpenAIModels()) by {
      assert path[1..] == ["providers", "openai", "models"];
      assert path[1..][1..] == ["openai", "models"];
      assert path[1..][1..][1..] == ["models"];
    }
    var first := Dict(map["@name" := Str("model-b"), "capabilities" := ScenarioCapabilities()]);
    assert GetChain(first, ["capabilities", "text_generation"]) == Ok(Dict(map["@max_tokens" := Int(2000)])) by {
      assert ["capabilities", "text_generation"][1..] == ["text_generation"];
    }
    DefaultFromFirstModel(config, OpenAI, ScenarioOpenAIModels().entries, [first], map["@max_tokens" := Int(2000)]);
  }

  /** The worked scenario on the two-provider registry, run through the client:
      switching to an unknown model is refused and keeps the selection; switching to a
      known one takes effect, and generation then asks OpenAI for model-b with the
      first OpenAI model's limit of 2000 tokens. */
  method SwitchScenario(anthropicApi: Request -> Result<string, PyError>,
                        openaiApi: Request -> Result<seq<string>, PyError>)
    returns (refused: Result<bool, PyError>, accepted: Result<bool, PyError>, text: Result<string, PyError>)
    ensures refused == Ok(false) && accepted == Ok(true)
    ensures text == FirstChoice(openaiApi(Request(OpenAI, Str("model-b"), "hi", Int(2000))))
  {
    ScenarioRegistry();
    var client := new AIClient(ScenarioConfig());
    assert client.currentProvider == Str("anthropic") && client.currentModel == Str("model-a");
    refused := client.SwitchModel("openai", "model-x");
    assert client.currentProvider == Str("anthropic") && client.currentModel == Str("model-a");
    accepted := client.SwitchModel("openai", "model-b");
    text := client.GenerateText("hi", None, anthropicApi, openaiApi);
  }
}
