/** Provider and model selection from the process environment
    (`lib/ai/provider.ts`). The environment is a map from variable name to
    value; an absent key is an unset variable. The LangChain classes the
    source constructs are represented by tagged values carrying the settings
    passed to their constructors. */
module Provider {
  import opened Wrappers
  import opened JsStrings

  datatype LLMProvider = OpenAI | Anthropic | Google

  /** The lower-case name the source uses for each provider. */
  function ProviderName(p: LLMProvider): string {
    match p
    case OpenAI => "openai"
    case Anthropic => "anthropic"
    case Google => "google"
  }

  /** The two configuration errors the module throws. */
  datatype ConfigError = ProviderRequired | ModelRequired

  const ProviderRequiredMessage: string :=
    "LLM_PROVIDER" + " environment variable is required. Set to 'openai', 'anthropic', or 'google'."
  const ModelRequiredMessage: string :=
    "LLM_MODEL" + " environment variable is required. Example: 'gpt-4o', 'claude-sonnet-4-5-20250514', 'gemini-2.5-flash'"

  /** The text of the thrown `Error`: each message starts with the name of
      the variable it asks for, so the two are told apart. */
  function ErrorMessage(e: ConfigError): (msg: string)
    ensures e == ProviderRequired ==> "LLM_PROVIDER" < msg
    ensures e == ModelRequired ==> "LLM_MODEL" < msg
  {
    match e
    case ProviderRequired => ProviderRequiredMessage
    case ModelRequired => ModelRequiredMessage
  }

  /** The provider whose name is exactly `name`, if any. */
  function ProviderNamed(name: string): (r: Option<LLMProvider>)
    ensures r.Some? ==> ProviderName(r.value) == name
    ensures r.None? <==> name != "openai" && name != "anthropic" && name != "google"
  {
    if name == "anthropic" then Some(Anthropic)
    else if name == "google" then Some(Google)
    else if name == "openai" then Some(OpenAI)
    else None
  }

  /** `getLLMProvider()`: `LLM_PROVIDER` lower-cased, accepted only when it
      names one of the three providers; otherwise the configuration error. */
  function GetLLMProvider(env: map<string, string>): (r: Result<LLMProvider, ConfigError>)
    ensures r.Ok? <==> "LLM_PROVIDER" in env && ToLowerCase(env["LLM_PROVIDER"]) in ["openai", "anthropic", "google"]
    ensures r.Ok? ==> ProviderName(r.value) == ToLowerCase(env["LLM_PROVIDER"])
    ensures r.Err? ==> r.error == ProviderRequired
  {
    if "LLM_PROVIDER" !in env then Err(ProviderRequired)
    else
      match ProviderNamed(ToLowerCase(env["LLM_PROVIDER"]))
      case Some(p) => Ok(p)
      case None => Err(ProviderRequired)
  }

  /** `getLLMModel()`: `LLM_MODEL` unchanged; unset or empty is an error. */
  function GetLLMModel(env: map<string, string>): (r: Result<string, ConfigError>)
    ensures r.Ok? <==> "LLM_MODEL" in env && env["LLM_MODEL"] != ""
    ensures r.Ok? ==> r.value == env["LLM_MODEL"]
    ensures r.Err? ==> r.error == ModelRequired
  {
    if "LLM_MODEL" !in env || env["LLM_MODEL"] == "" then Err(ModelRequired)
    else Ok(env["LLM_MODEL"])
  }

  /** The chat model classes, with the options passed to their constructors. */
  datatype ChatModel =
    | ChatAnthropic(model: string, temperature: real)
    | ChatGoogleGenerativeAI(model: string, temperature: real)
    | ChatOpenAI(model: string, temperature: real)

  /** The provider whose class a chat model is. */
  function ChatModelProvider(m: ChatModel): LLMProvider {
    match m
    case ChatAnthropic(_, _) => Anthropic
    case ChatGoogleGenerativeAI(_, _) => Google
    case ChatOpenAI(_, _) => OpenAI
  }

  /** `getChatModel(options)`: `temperature` is `options?.temperature`, and
      `None` stands for `undefined` there. The provider is checked before
      the model; the temperature defaults to 0 only when it is not given. */
  function GetChatModel(env: map<string, string>, temperature: Option<real>): (r: Result<ChatModel, ConfigError>)
    ensures GetLLMProvider(env).Err? ==> r == Err(ProviderRequired)
    ensures GetLLMProvider(env).Ok? && GetLLMModel(env).Err? ==> r == Err(ModelRequired)
    ensures r.Ok? <==> GetLLMProvider(env).Ok? && GetLLMModel(env).Ok?
    ensures r.Ok? ==>
      && ChatModelProvider(r.value) == GetLLMProvider(env).value
      && r.value.model == env["LLM_MODEL"]
      && r.value.temperature == (if temperature.Some? then temperature.value else 0.0)
  {
    var provider :- GetLLMProvider(env);
    var modelId :- GetLLMModel(env);
    var t := temperature.GetOr(0.0);
    match provider
    case Anthropic => Ok(ChatAnthropic(modelId, t))
    case Google => Ok(ChatGoogleGenerativeAI(modelId, t))
    case OpenAI => Ok(ChatOpenAI(modelId, t))
  }

  /** The embedding classes: Google's with its fixed model, or OpenAI's
      default. */
  datatype Embeddings = GoogleGenerativeAIEmbeddings(model: string) | OpenAIEmbeddings

  const GoogleEmbeddingModel: string := "text-embedding-004"

  /** `getEmbeddings()`: Google's embedder for Google, OpenAI's for both
      OpenAI and Anthropic (which has no embeddings of its own). */
  function GetEmbeddings(env: map<string, string>): (r: Result<Embeddings, ConfigError>)
    ensures r.Err? <==> GetLLMProvider(env).Err?
    ensures r.Err? ==> r.error == ProviderRequired
    ensures r.Ok? ==> (r.value.GoogleGenerativeAIEmbeddings? <==> GetLLMProvider(env).value == Google)
    ensures r.Ok? && r.value.GoogleGenerativeAIEmbeddings? ==> r.value.model == GoogleEmbeddingModel
  {
    var provider :- GetLLMProvider(env);
    match provider
    case Google => Ok(GoogleGenerativeAIEmbeddings(GoogleEmbeddingModel))
    case Anthropic => Ok(OpenAIEmbeddings)
    case OpenAI => Ok(OpenAIEmbeddings)
  }

  // ---------------------------------------------------------------------
  // Properties
  // ---------------------------------------------------------------------

  lemma LowerCaseIdempotent(s: string)
    ensures ToLowerCase(ToLowerCase(s)) == ToLowerCase(s)
  {
  }

  /** A provider name is accepted however its ASCII letters are cased, and
      the accepted provider is the one named. */
  lemma ProviderCaseInsensitive(env: map<string, string>, p: LLMProvider, spelled: string)
    requires ToLowerCase(spelled) == ProviderName(p)
    ensures GetLLMProvider(env["LLM_PROVIDER" := spelled]) == Ok(p)
  {
    var e := env["LLM_PROVIDER" := spelled];
    assert e["LLM_PROVIDER"] == spelled;
  }

  /** The accepted value is always the lower-case name: writing it back into
      the environment selects the same provider. */
  lemma ProviderNameRoundTrip(env: map<string, string>)
    requires GetLLMProvider(env).Ok?
    ensures var p := GetLLMProvider(env).value;
      && ToLowerCase(ProviderName(p)) == ProviderName(p)
      && GetLLMProvider(env["LLM_PROVIDER" := ProviderName(p)]) == Ok(p)
  {
    var p := GetLLMProvider(env).value;
    LowerCaseIdempotent(env["LLM_PROVIDER"]);
    ProviderCaseInsensitive(env, p, ProviderName(p));
  }

  /** Upper-case spellings are accepted too. */
  lemma UpperCaseAccepted(env: map<string, string>, p: LLMProvider)
    ensures GetLLMProvider(env["LLM_PROVIDER" := ToUpperCase(ProviderName(p))]) == Ok(p)
  {
    var u := ToUpperCase(ProviderName(p));
    assert ToLowerCase(u) == ProviderName(p);
    ProviderCaseInsensitive(env, p, u);
  }

  /** An explicit temperature of 0 is kept, not replaced by the default
      (the default happens to be 0 too); any other explicit value is kept. */
  lemma TemperatureKept(env: map<string, string>, t: real)
    requires GetLLMProvider(env).Ok? && GetLLMModel(env).Ok?
    ensures GetChatModel(env, Some(t)).value.temperature == t
    ensures GetChatModel(env, None).value.temperature == 0.0
  {
  }

  /** The embedder depends on `LLM_PROVIDER` only: `LLM_MODEL` may be unset,
      empty or anything else. */
  lemma EmbeddingsIgnoreModel(env: map<string, string>, model: string)
    ensures GetEmbeddings(env["LLM_MODEL" := model]) == GetEmbeddings(env)
    ensures GetEmbeddings(env - {"LLM_MODEL"}) == GetEmbeddings(env)
  {
    var e1 := env["LLM_MODEL" := model];
    var e2 := env - {"LLM_MODEL"};
    assert ("LLM_PROVIDER" in e1 <==> "LLM_PROVIDER" in env) && ("LLM_PROVIDER" in env ==> e1["LLM_PROVIDER"] == env["LLM_PROVIDER"]);
    assert ("LLM_PROVIDER" in e2 <==> "LLM_PROVIDER" in env) && ("LLM_PROVIDER" in env ==> e2["LLM_PROVIDER"] == env["LLM_PROVIDER"]);
  }

  /** Every provider has exactly one chat class and a usable embedder. */
  lemma ChatModelMatchesProvider(env: map<string, string>, p: LLMProvider, model: string, t: Option<real>)
    requires model != ""
    ensures var e := env["LLM_PROVIDER" := ProviderName(p)]["LLM_MODEL" := model];
      && GetChatModel(e, t).Ok?
      && ChatModelProvider(GetChatModel(e, t).value) == p
      && GetChatModel(e, t).value.model == model
      && GetEmbeddings(e) == Ok(if p == Google then GoogleGenerativeAIEmbeddings("text-embedding-004") else OpenAIEmbeddings)
  {
    var e1 := env["LLM_PROVIDER" := ProviderName(p)];
    var e := e1["LLM_MODEL" := model];
    ProviderNameRoundTrip(e1);
    ProviderCaseInsensitive(env, p, ProviderName(p));
    assert e["LLM_PROVIDER"] == ProviderName(p);
    assert e["LLM_MODEL"] == model;
    LowerCaseIdempotent(ProviderName(p));
  }
}
