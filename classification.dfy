/** The classification service: one provider at a time, one result per
    active category group. */
module Classification {
  import opened Wrappers
  import opened Text
  import opened Settings
  import opened Providers

  /** An active category group with the names of its categories, in load
      order. */
  datatype Group = Group(id: int, name: string, categories: seq<string>)

  /** One element of the list `classify_content` returns. The entry for a
      failed group load has no group id, provider or model. */
  datatype Entry = Entry(
    groupId: Option<int>,
    groupName: string,
    classification: string,
    confidence: real,
    explanation: string,
    llmProvider: Option<string>,
    llmModel: Option<ConfigValue>
  )

  /** The service's fields: `provider_name`, `config` and `llm_provider`,
      with the fixed wording of the prompts `classify_content` fills in. */
  datatype ServiceState = ServiceState(providerName: string, config: Config, provider: Provider, wording: Wording)

  /** How much of the content is sent to a provider. */
  const ContentLimit: nat := 1000

  // ---------------------------------------------------------------- construction

  /** The provider name the constructor starts from: the caller's, unless it
      is absent or empty, then DEFAULT_LLM_PROVIDER, then `deepseek`. */
  function RequestedName(providerName: Option<string>, s: AppSettings): string {
    if providerName.Some? && providerName.value != "" then providerName.value
    else s.defaultLlmProvider.GetOr("deepseek")
  }

  /** The configuration the constructor starts from, before the caller's
      overrides. A missing or empty settings entry counts as
      `{default_model: deepseek-chat}`. */
  function BaseConfig(name: string, s: AppSettings): Config {
    var entry := if name in s.llmProviders && s.llmProviders[name] != map[] then s.llmProviders[name]
                 else map["default_model" := "deepseek-chat"];
    map["model_name" := if "default_model" in entry then StrValue(entry["default_model"]) else NullValue,
        "temperature" := RealValue(0.7),
        "max_tokens" := IntValue(1000)]
  }

  /** The state `ContentClassificationService(provider_name, provider_config)`
      constructs, or the error its constructor raises. */
  function InitState(providerName: Option<string>, providerConfig: Config, s: AppSettings, rt: Runtime): (r: Result<ServiceState, FactoryError>)
    ensures r.Ok? ==> r.value.providerName == RequestedName(providerName, s) || r.value.providerName == "deepseek"
    ensures r.Ok? ==> r.value.config == BaseConfig(RequestedName(providerName, s), s) + providerConfig
    ensures r.Err? ==>
      var config := BaseConfig(RequestedName(providerName, s), s) + providerConfig;
      var first := Create(RequestedName(providerName, s), config, s, rt);
      first.Err? && (!first.error.IsValueError() || Create("deepseek", config, s, rt).Err?)
    ensures var config := BaseConfig(RequestedName(providerName, s), s) + providerConfig;
      var first := Create(RequestedName(providerName, s), config, s, rt);
      first.Ok? ==> r == Ok(ServiceState(RequestedName(providerName, s), config, first.value, SourceWording()))
    ensures r.Ok? && r.value.providerName != RequestedName(providerName, s) ==>
      var first := Create(RequestedName(providerName, s), BaseConfig(RequestedName(providerName, s), s) + providerConfig, s, rt);
      first.Err? && first.error.IsValueError()
    ensures var config := BaseConfig(RequestedName(providerName, s), s) + providerConfig;
      var first := Create(RequestedName(providerName, s), config, s, rt);
      var retry := Create("deepseek", config, s, rt);
      && (first.Err? && first.error.IsValueError() && retry.Ok? ==>
            r == Ok(ServiceState("deepseek", config, retry.value, SourceWording())))
      && (first.Err? && first.error.IsValueError() && retry.Err? ==> r == Err(retry.error))
      && (first.Err? && !first.error.IsValueError() ==> r == Err(first.error))
  {
    var config := BaseConfig(RequestedName(providerName, s), s) + providerConfig;
    var (name, created) := CreateWithFallback(RequestedName(providerName, s), config, s, rt);
    if created.Ok? then Ok(ServiceState(name, config, created.value, SourceWording())) else Err(created.error)
  }

  /** The provider the constructor ends up with and its name: the requested
      one, or `deepseek` when creating the requested one raised a
      `ValueError`. */
  function CreateWithFallback(name: string, config: Config, s: AppSettings, rt: Runtime): (string, Result<Provider, FactoryError>) {
    var created := Create(name, config, s, rt);
    if created.Err? && created.error.IsValueError() then ("deepseek", Create("deepseek", config, s, rt))
    else (name, created)
  }

  /** The constructor's configuration: `model_name`, `temperature` 0.7 and
      `max_tokens` 1000, each replaced by the caller's value when given. */
  lemma InitConfigDefaults(providerName: Option<string>, providerConfig: Config, s: AppSettings, rt: Runtime)
    requires InitState(providerName, providerConfig, s, rt).Ok?
    ensures var c := InitState(providerName, providerConfig, s, rt).value.config;
      && c["temperature"] == Get(providerConfig, "temperature", RealValue(0.7))
      && c["max_tokens"] == Get(providerConfig, "max_tokens", IntValue(1000))
      && ("model_name" !in providerConfig && RequestedName(providerName, s) !in s.llmProviders ==> c["model_name"] == StrValue("deepseek-chat"))
      && (forall k :: k in providerConfig ==> c[k] == providerConfig[k])
  {
    var name := RequestedName(providerName, s);
    MergedConfigDefaults(name, providerConfig, s);
    assert InitState(providerName, providerConfig, s, rt).value.config == BaseConfig(name, s) + providerConfig;
  }

  /** The defaults of `BaseConfig` after the caller's `update`. */
  lemma MergedConfigDefaults(name: string, providerConfig: Config, s: AppSettings)
    ensures var c := BaseConfig(name, s) + providerConfig;
      && "temperature" in c && c["temperature"] == Get(providerConfig, "temperature", RealValue(0.7))
      && "max_tokens" in c && c["max_tokens"] == Get(providerConfig, "max_tokens", IntValue(1000))
      && ("model_name" !in providerConfig && name !in s.llmProviders ==> "model_name" in c && c["model_name"] == StrValue("deepseek-chat"))
      && (forall k :: k in providerConfig ==> k in c && c[k] == providerConfig[k])
  {
  }

  /** A provider name the factory rejects with a ValueError falls back to
      `deepseek`. */
  lemma InitFallsBackToDeepseek(providerName: Option<string>, providerConfig: Config, s: AppSettings, rt: Runtime)
    requires var name := RequestedName(providerName, s);
      var e := Create(name, BaseConfig(name, s) + providerConfig, s, rt);
      e.Err? && e.error.IsValueError()
    requires Create("deepseek", BaseConfig(RequestedName(providerName, s), s) + providerConfig, s, rt).Ok?
    ensures var config := BaseConfig(RequestedName(providerName, s), s) + providerConfig;
      InitState(providerName, providerConfig, s, rt)
        == Ok(ServiceState("deepseek", config, Create("deepseek", config, s, rt).value, SourceWording()))
  {
  }

  /** A FastText model file that `fasttext.load_model` cannot open raises a
      `ValueError`, so the constructor switches to `deepseek` instead of
      failing. */
  lemma FastTextLoadFailureFallsBack(providerName: Option<string>, providerConfig: Config, s: AppSettings, rt: Runtime, message: string)
    requires RequestedName(providerName, s) == "fasttext"
    requires "fasttext" in s.llmProviders && s.llmProviders["fasttext"] != map[]
    requires var config := BaseConfig("fasttext", s) + providerConfig;
      rt.loadError(FastText, Get(config, "model_path", StrValue(s.fasttextModelPath))) == Some(Raised(message, true))
    requires Create("deepseek", BaseConfig("fasttext", s) + providerConfig, s, rt).Ok?
    ensures InitState(providerName, providerConfig, s, rt).Ok?
    ensures InitState(providerName, providerConfig, s, rt).value.providerName == "deepseek"
    ensures InitState(providerName, providerConfig, s, rt).value.provider.Hosted?
  {
    var config := BaseConfig("fasttext", s) + providerConfig;
    FastTextCreateRaises(config, s, rt, Raised(message, true));
    InitFallsBackToDeepseek(providerName, providerConfig, s, rt);
    assert CreateWithFallback("fasttext", config, s, rt) == ("deepseek", Create("deepseek", config, s, rt));
    DeepseekIsHosted(config, s, rt);
  }

  /** Creating `fasttext` with a settings entry re-raises what loading
      its model file raises. */
  lemma FastTextCreateRaises(config: Config, s: AppSettings, rt: Runtime, e: Raised)
    requires "fasttext" in s.llmProviders && s.llmProviders["fasttext"] != map[]
    requires rt.loadError(FastText, Get(config, "model_path", StrValue(s.fasttextModelPath))) == Some(e)
    ensures Create("fasttext", config, s, rt) == Err(ConstructorFailed(e))
  {
    LowerKeepsLowercase("fasttext");
    assert Registry["fasttext"] == FastText;
  }

  lemma DeepseekIsHosted(config: Config, s: AppSettings, rt: Runtime)
    ensures Create("deepseek", config, s, rt).Ok? ==> Create("deepseek", config, s, rt).value.Hosted?
  {
    LowerKeepsLowercase("deepseek");
    assert Registry["deepseek"] == Deepseek;
  }

  // ---------------------------------------------------------------- update_provider

  /** `update_provider`: the name is set and the overrides merged first;
      the provider is rebuilt last, so a factory error leaves the new name and
      configuration beside the old provider. */
  function UpdateSpec(st: ServiceState, name: string, providerConfig: Config, s: AppSettings, rt: Runtime): (ServiceState, Option<FactoryError>) {
    var config := st.config + providerConfig;
    match Create(name, config, s, rt)
    case Ok(p) => (ServiceState(name, config, p, st.wording), None)
    case Err(e) => (ServiceState(name, config, st.provider, st.wording), Some(e))
  }

  /** Overrides win, untouched keys persist, and the name is taken even when
      the provider cannot be built. */
  lemma UpdateMergesConfig(st: ServiceState, name: string, providerConfig: Config, s: AppSettings, rt: Runtime)
    ensures var (st', err) := UpdateSpec(st, name, providerConfig, s, rt);
      && st'.providerName == name
      && st'.config.Keys == st.config.Keys + providerConfig.Keys
      && (forall k :: k in providerConfig ==> st'.config[k] == providerConfig[k])
      && (forall k :: k in st.config && k !in providerConfig ==> st'.config[k] == st.config[k])
      && (err.None? <==> Create(name, st'.config, s, rt).Ok?)
      && (err.Some? ==> st'.provider == st.provider)
  {
  }

  // ---------------------------------------------------------------- prompts

  datatype Prompt = Prompt(system: string, user: string)

  /** The fixed text around the parts of the LLM prompt that vary: the
      system message's introduction, the text between the category list
      and the format instructions, and its end; the user message's text
      before the content type, between it and the content, and after the
      content. */
  datatype Wording = Wording(systemIntro: string, formatLead: string, systemEnd: string,
                             userLead: string, contentLead: string, userEnd: string)

  /** The wording of the source's templates. Each continuation line of the
      triple-quoted strings keeps its 24 spaces of indentation, and the
      comment "# Limit content length" sits inside the user message, so it
      is sent too. The text is spelt out word by word, which keeps every
      literal short for the verifier. */
  function SourceWording(): Wording {
    var indent := Spaces(24);
    Wording(
      "You " + "are " + "a " + "content " + "classification " + "system. " + "Your " + "task " + "is " + "to " + "classify " + "the " + "given " + "content " + "into " + "appropriate " + "categories." +
      "\n" + indent +
      "Available " + "classification " + "categories:" +
      "\n" + indent,
      "\n" + indent +
      "\n" + indent +
      "Provide " + "your " + "response " + "in " + "the " + "following " + "format:" +
      "\n" + indent,
      "\n" + indent,
      "Content " + "Type: ",
      "\n" + indent +
      "Content: ",
      "  " + "# " + "Limit " + "content " + "length" +
      "\n" + indent +
      "\n" + indent +
      "Classify " + "this " + "content " + "and " + "provide:" +
      "\n" + indent +
      "1. " + "The " + "most " + "appropriate " + "classification " + "category " + "from " + "the " + "available " + "categories" +
      "\n" + indent +
      "2. " + "A " + "confidence " + "score " + "between " + "0 " + "and " + "1" +
      "\n" + indent +
      "3. " + "A " + "brief " + "explanation " + "for " + "your " + "classification")
  }

  function Bullets(categories: seq<string>): (r: seq<string>)
    ensures |r| == |categories|
    ensures forall i :: 0 <= i < |r| ==> r[i] == "- " + categories[i]
  {
    seq(|categories|, i requires 0 <= i < |categories| => "- " + categories[i])
  }

  /** The system message for LLM-class providers: the instructions, the
      group's categories as a list and the parser's format instructions. */
  function SystemMessage(w: Wording, categories: seq<string>, formatInstructions: string): string {
    w.systemIntro + Join(Bullets(categories), ", ") + SystemTail(w, formatInstructions)
  }

  function SystemTail(w: Wording, formatInstructions: string): string {
    w.formatLead + formatInstructions + w.systemEnd
  }

  /** The user message for LLM-class providers. */
  function UserMessage(w: Wording, content: string, contentType: string): string {
    UserHead(w, contentType) + Take(content, ContentLimit) + w.userEnd
  }

  function UserHead(w: Wording, contentType: string): string {
    w.userLead + contentType + w.contentLead
  }

  /** The prompt for one group: an engineered prompt when the provider's
      `model_type` is `llm`, the bare truncated content otherwise. */
  function BuildPrompt(w: Wording, modelType: string, categories: seq<string>, content: string, contentType: string,
                       formatInstructions: string): Prompt {
    if modelType == "llm" then Prompt(SystemMessage(w, categories, formatInstructions), UserMessage(w, content, contentType))
    else Prompt("", Take(content, ContentLimit))
  }

  /** The user message carries the truncated content. */
  lemma UserMessageHoldsContent(w: Wording, content: string, contentType: string)
    ensures Contains(UserMessage(w, content, contentType), Take(content, ContentLimit))
  {
    ContainsInMiddle(UserHead(w, contentType), Take(content, ContentLimit), w.userEnd);
  }

  /** A bulleted category stays in the list whatever surrounds it. */
  lemma BulletWithin(head: string, categories: seq<string>, tail: string, i: nat)
    requires i < |categories|
    ensures Contains(head + Join(Bullets(categories), ", ") + tail, "- " + categories[i])
  {
    JoinContainsPart(Bullets(categories), ", ", i);
    ContainsWithin(head, Join(Bullets(categories), ", "), tail, "- " + categories[i]);
  }

  /** The system message lists the group's `i`-th category as a bullet. */
  lemma SystemListsCategory(w: Wording, categories: seq<string>, formatInstructions: string, i: nat)
    requires i < |categories|
    ensures Contains(SystemMessage(w, categories, formatInstructions), "- " + categories[i])
  {
    BulletWithin(w.systemIntro, categories, SystemTail(w, formatInstructions), i);
  }

  /** A provider whose `model_type` is not `llm` gets no system message and
      only the first 1000 characters of the content. */
  lemma PlainPromptShape(w: Wording, modelType: string, categories: seq<string>, content: string, contentType: string,
                         formatInstructions: string)
    requires modelType != "llm"
    ensures BuildPrompt(w, modelType, categories, content, contentType, formatInstructions) == Prompt("", Take(content, ContentLimit))
    ensures |Take(content, ContentLimit)| <= ContentLimit
  {
  }

  /** An LLM-class provider gets the first 1000 characters of the content
      inside the user message, and every category of the group in the
      system message, whatever the wording around them. */
  lemma LlmPromptShape(w: Wording, categories: seq<string>, content: string, contentType: string, formatInstructions: string)
    ensures var p := BuildPrompt(w, "llm", categories, content, contentType, formatInstructions);
      && Contains(p.user, Take(content, ContentLimit))
      && forall i :: 0 <= i < |categories| ==> Contains(p.system, "- " + categories[i])
  {
    UserMessageHoldsContent(w, content, contentType);
    forall i | 0 <= i < |categories|
      ensures Contains(SystemMessage(w, categories, formatInstructions), "- " + categories[i])
    {
      SystemListsCategory(w, categories, formatInstructions, i);
    }
  }

  // ---------------------------------------------------------------- classify_content

  /** The `model_type` of the current provider's settings entry, looked up
      by the provider name as stored (not lower-cased), `llm` by default. */
  function ModelType(providerName: string, s: AppSettings): string {
    var info := if providerName in s.llmProviders then s.llmProviders[providerName] else map[];
    EntryGet(info, "model_type", "llm")
  }

  /** The entry recorded when one group fails: same group and provenance,
      classification `error`, confidence 0. */
  function ErrorEntry(st: ServiceState, g: Group, message: string): Entry {
    Entry(Some(g.id), g.name, "error", 0.0, "Error during classification: " + message,
          Some(st.providerName), Some(Get(st.config, "model_name", StrValue("unknown"))))
  }

  /** The body of the per-group `try`: prompt, completion, parse, stamp. */
  function GroupEntry(st: ServiceState, g: Group, content: string, contentType: string, s: AppSettings, rt: Runtime): Entry {
    var info := if st.providerName in s.llmProviders then s.llmProviders[st.providerName] else map[];
    var prompt := BuildPrompt(st.wording, ModelType(st.providerName, s), g.categories, content, contentType, rt.formatInstructions);
    match GenerateCompletion(st.provider, prompt.system, prompt.user, s, rt)
    case Err(message) => ErrorEntry(st, g, message)
    case Ok(reply) =>
      match rt.parse(reply)
      case Err(message) => ErrorEntry(st, g, message)
      case Ok(p) =>
        Entry(Some(g.id), g.name, p.classification, p.confidence, p.explanation,
              Some(st.providerName),
              Some(Get(st.config, "model_name", StrValue(EntryGet(info, "default_model", "unknown")))))
  }

  /** The single entry returned when the active groups cannot be loaded. */
  function LoadFailureEntry(message: string): Entry {
    Entry(None, "Error", "unclassified", 0.0, "Error during classification process: " + message, None, None)
  }

  /** What `classify_content` returns, given the outcome of loading the
      active groups. */
  function Classified(st: ServiceState, groups: Result<seq<Group>, string>, content: string, contentType: string,
                      s: AppSettings, rt: Runtime): seq<Entry>
  {
    match groups
    case Err(message) => [LoadFailureEntry(message)]
    case Ok(gs) => seq(|gs|, i requires 0 <= i < |gs| => GroupEntry(st, gs[i], content, contentType, s, rt))
  }

  /** One entry per active group, in load order, each stamped with its
      group and the service's provider and model; no groups, no entries. */
  lemma ClassifiedOnePerGroup(st: ServiceState, gs: seq<Group>, content: string, contentType: string, s: AppSettings, rt: Runtime)
    ensures var r := Classified(st, Ok(gs), content, contentType, s, rt);
      && |r| == |gs|
      && (forall i :: 0 <= i < |gs| ==>
            r[i].groupId == Some(gs[i].id) && r[i].groupName == gs[i].name
            && r[i].llmProvider == Some(st.providerName)
            && r[i].llmModel.Some?
            && ("model_name" in st.config ==> r[i].llmModel == Some(st.config["model_name"])))
      && (gs == [] ==> r == [])
  {
  }

  /** A group whose completion succeeds and parses carries the parsed
      classification, confidence and explanation, and the configured model
      name, else the settings' `default_model`, else `unknown`. */
  lemma GroupSuccessCarriesParse(st: ServiceState, gs: seq<Group>, i: nat, content: string, contentType: string, s: AppSettings, rt: Runtime)
    requires i < |gs|
    ensures var prompt := BuildPrompt(st.wording, ModelType(st.providerName, s), gs[i].categories, content, contentType, rt.formatInstructions);
      var reply := GenerateCompletion(st.provider, prompt.system, prompt.user, s, rt);
      reply.Ok? && rt.parse(reply.value).Ok? ==>
        var p := rt.parse(reply.value).value;
        var info := if st.providerName in s.llmProviders then s.llmProviders[st.providerName] else map[];
        var e := Classified(st, Ok(gs), content, contentType, s, rt)[i];
        && e.classification == p.classification && e.confidence == p.confidence && e.explanation == p.explanation
        && e.llmModel == Some(Get(st.config, "model_name", StrValue(EntryGet(info, "default_model", "unknown"))))
  {
    assert Classified(st, Ok(gs), content, contentType, s, rt)[i] == GroupEntry(st, gs[i], content, contentType, s, rt);
  }

  /** A failure in one group yields an `error` entry for that group with
      confidence 0, and the entries of the other groups do not depend on
      that group at all. */
  lemma GroupFailureIsolated(st: ServiceState, gs: seq<Group>, i: nat, other: Group, content: string, contentType: string, s: AppSettings, rt: Runtime)
    requires i < |gs|
    ensures var r := Classified(st, Ok(gs), content, contentType, s, rt);
      var r' := Classified(st, Ok(gs[i := other]), content, contentType, s, rt);
      forall j :: 0 <= j < |gs| && j != i ==> r'[j] == r[j]
    ensures var prompt := BuildPrompt(st.wording, ModelType(st.providerName, s), gs[i].categories, content, contentType, rt.formatInstructions);
      var reply := GenerateCompletion(st.provider, prompt.system, prompt.user, s, rt);
      (reply.Err? || rt.parse(reply.value).Err?) ==>
        var e := Classified(st, Ok(gs), content, contentType, s, rt)[i];
        e.classification == "error" && e.confidence == 0.0 && e.groupId == Some(gs[i].id)
  {
  }

  /** A failure to load the groups gives exactly one `unclassified` entry. */
  lemma LoadFailureSingleEntry(st: ServiceState, message: string, content: string, contentType: string, s: AppSettings, rt: Runtime)
    ensures var r := Classified(st, Err(message), content, contentType, s, rt);
      |r| == 1 && r[0].classification == "unclassified" && r[0].groupName == "Error"
      && r[0].confidence == 0.0 && r[0].groupId.None?
  {
  }

  // ---------------------------------------------------------------- the service object

  class ClassificationService {
    var providerName: string
    var config: Config
    var provider: Provider
    var wording: Wording

    function State(): ServiceState
      reads this
    {
      ServiceState(providerName, config, provider, wording)
    }

    constructor FromState(st: ServiceState)
      ensures State() == st
    {
      providerName := st.providerName;
      config := st.config;
      provider := st.provider;
      wording := st.wording;
    }

    /** `ContentClassificationService(provider_name, provider_config)`. */
    static method New(providerName: Option<string>, providerConfig: Config, s: AppSettings, rt: Runtime)
      returns (r: Result<ClassificationService, FactoryError>)
      ensures r.Ok? <==> InitState(providerName, providerConfig, s, rt).Ok?
      ensures r.Ok? ==> fresh(r.value) && r.value.State() == InitState(providerName, providerConfig, s, rt).value
      ensures r.Err? ==> r.error == InitState(providerName, providerConfig, s, rt).error
    {
      var name := RequestedName(providerName, s);
      var config := BaseConfig(name, s);
      if providerConfig != map[] {
        config := config + providerConfig;
      }
      assert config == BaseConfig(name, s) + providerConfig;
      var created := Create(name, config, s, rt);
      if created.Err? && created.error.IsValueError() {
        name := "deepseek";
        created := Create(name, config, s, rt);
      }
      assert (name, created) == CreateWithFallback(RequestedName(providerName, s), config, s, rt);
      assert InitState(providerName, providerConfig, s, rt)
          == if created.Ok? then Ok(ServiceState(name, config, created.value, SourceWording())) else Err(created.error);
      if created.Err? {
        return Err(created.error);
      }
      var svc := new ClassificationService.FromState(ServiceState(name, config, created.value, SourceWording()));
      r := Ok(svc);
    }

    /** `update_provider(provider_name, provider_config)`; a factory error is
        returned instead of raised. */
    method UpdateProvider(name: string, providerConfig: Config, s: AppSettings, rt: Runtime)
      returns (err: Option<FactoryError>)
      modifies this
      ensures (State(), err) == UpdateSpec(old(State()), name, providerConfig, s, rt)
    {
      providerName := name;
      if providerConfig != map[] {
        config := config + providerConfig;
      }
      assert config == old(config) + providerConfig;
      var created := Create(name, config, s, rt);
      if created.Err? {
        return Some(created.error);
      }
      provider := created.value;
      err := None;
    }

    /** `classify_content(content, content_type)`, given the outcome of
        loading the active groups. */
    method ClassifyContent(content: string, contentType: string, groups: Result<seq<Group>, string>, s: AppSettings, rt: Runtime)
      returns (results: seq<Entry>)
      ensures results == Classified(State(), groups, content, contentType, s, rt)
    {
      if groups.Err? {
        return [LoadFailureEntry(groups.error)];
      }
      var gs := groups.value;
      results := [];
      var i := 0;
      while i < |gs|
        invariant 0 <= i <= |gs|
        invariant |results| == i
        invariant forall j :: 0 <= j < i ==> results[j] == GroupEntry(State(), gs[j], content, contentType, s, rt)
      {
        var entry := GroupEntry(State(), gs[i], content, contentType, s, rt);
        results := results + [entry];
        i := i + 1;
      }
    }
  }
}
