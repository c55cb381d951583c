/** The provider abstraction: the registry that turns a provider name and a
    configuration into a provider, the local models' label tables and input
    clean-up, and the replies the local models synthesise. */
module Providers {
  import opened Wrappers
  import opened Text
  import opened Settings

  datatype ProviderKind = OpenAI | Claude | Qwen | Doubao | Deepseek | Bert | FastText

  /** The provider registry. `claude` is not registered: its entry is
      commented out in the source. */
  const Registry: map<string, ProviderKind> :=
    map["openai" := OpenAI, "qwen" := Qwen, "doubao" := Doubao,
        "deepseek" := Deepseek, "bert" := Bert, "fasttext" := FastText]

  predicate IsHosted(kind: ProviderKind) {
    kind !in {Bert, FastText}
  }

  /** A constructed provider and the configuration-derived fields it keeps. */
  datatype Provider =
    | Hosted(kind: ProviderKind, modelName: ConfigValue, temperature: ConfigValue, maxTokens: ConfigValue)
    | BertModel(modelPath: ConfigValue)
    | FastTextModel(modelPath: ConfigValue)

  /** An exception a provider class's constructor raised: its message, and
      whether it is a `ValueError` (the class the service constructor's
      fallback catches). */
  datatype Raised = Raised(message: string, valueError: bool)

  /** Why `LLMProviderFactory.create` raised. The first two are `ValueError`s;
      a constructor that fails re-raises what the loader or the client
      library raised, of whatever class. */
  datatype FactoryError =
    | Unsupported(name: string)
    | NoConfiguration(name: string)
    | ConstructorFailed(raised: Raised)
  {
    predicate IsValueError() {
      !ConstructorFailed? || raised.valueError
    }

    /** `str(e)`. */
    function Message(): string {
      match this
      case Unsupported(n) => "Unsupported provider: " + n
      case NoConfiguration(n) => "No configuration found for provider: " + n
      case ConstructorFailed(e) => e.message
    }
  }

  datatype BertPrediction = BertPrediction(labelId: int, confidenceText: string, percentText: string)
  datatype FastTextPrediction = FastTextPrediction(predictedLabel: string, confidenceText: string, percentText: string)

  /** What the structured output parser extracts from a reply. */
  datatype Parsed = Parsed(classification: string, confidence: real, explanation: string)

  /** Everything outside the model: loading local model files, the hosted
      chat services, local inference, the structured output parser and the
      format instructions it publishes. `None` from a predictor stands for an
      inference error. `loadError` is what loading a local model file from a
      path raises (`fasttext.load_model` raises a `ValueError` for a file it
      cannot open); `clientError` is what a hosted provider's constructor
      raises from a configuration: reading an undefined settings default, or
      the client library refusing a missing API key. */
  datatype Runtime = Runtime(
    loadError: (ProviderKind, ConfigValue) -> Option<Raised>,
    clientError: (ProviderKind, Config) -> Option<Raised>,
    chat: (Provider, string, string) -> Result<string, string>,
    bertPredict: (ConfigValue, string) -> Option<BertPrediction>,
    fasttextPredict: (ConfigValue, string) -> Option<FastTextPrediction>,
    parse: string -> Result<Parsed, string>,
    formatInstructions: string
  )

  // ---------------------------------------------------------------- construction

  /** The model each hosted provider class uses when the configuration has
      no `model_name`. */
  function DefaultModelName(kind: ProviderKind, s: AppSettings): ConfigValue {
    match kind
    case OpenAI => StrValue("gpt-4o")
    case Claude => StrValue("claude-3-sonnet-20240229")
    case Qwen => StrValue("qwen-max")
    case Doubao => StrValue(s.arkModelName)
    case Deepseek => StrValue(s.deepseekModelName)
    case Bert => NullValue
    case FastText => NullValue
  }

  /** Running a provider class's constructor on a configuration. */
  function Construct(kind: ProviderKind, config: Config, s: AppSettings, rt: Runtime): (r: Result<Provider, FactoryError>)
    ensures r.Ok? ==> (r.value.Hosted? <==> IsHosted(kind))
    ensures r.Ok? && r.value.Hosted? ==> r.value.kind == kind
  {
    match kind
    case Bert =>
      var path := Get(config, "model_path", StrValue(s.bertModelPath));
      if rt.loadError(Bert, path).Some? then Err(ConstructorFailed(rt.loadError(Bert, path).value))
      else Ok(BertModel(path))
    case FastText =>
      var path := Get(config, "model_path", StrValue(s.fasttextModelPath));
      if rt.loadError(FastText, path).Some? then Err(ConstructorFailed(rt.loadError(FastText, path).value))
      else Ok(FastTextModel(path))
    case _ =>
      if rt.clientError(kind, config).Some? then Err(ConstructorFailed(rt.clientError(kind, config).value))
      else Ok(Hosted(kind,
                Get(config, "model_name", DefaultModelName(kind, s)),
                Get(config, "temperature", RealValue(0.7)),
                Get(config, "max_tokens", IntValue(1000))))
  }

  /** `LLMProviderFactory.create`: look the lower-cased name up in the
      registry, then check that the settings hold a non-empty entry for it,
      then build the provider from the caller's configuration. */
  function Create(name: string, config: Config, s: AppSettings, rt: Runtime): (r: Result<Provider, FactoryError>)
    ensures r.Ok? ==> Lower(name) in Registry && r == Construct(Registry[Lower(name)], config, s, rt)
  {
    var key := Lower(name);
    if key !in Registry then Err(Unsupported(name))
    else if key !in s.llmProviders || s.llmProviders[key] == map[] then Err(NoConfiguration(name))
    else Construct(Registry[key], config, s, rt)
  }

  /** Provider names are case-insensitive. */
  lemma CreateIgnoresCase(a: string, b: string, config: Config, s: AppSettings, rt: Runtime)
    requires Lower(a) == Lower(b)
    ensures Create(a, config, s, rt).Ok? == Create(b, config, s, rt).Ok?
    ensures Create(a, config, s, rt).Ok? ==> Create(a, config, s, rt) == Create(b, config, s, rt)
  {
  }

  /** An unregistered name fails the same way whatever the settings and the
      runtime hold: the registry is consulted before anything else. */
  lemma UnsupportedBeforeSettings(name: string, config: Config, s1: AppSettings, s2: AppSettings, rt1: Runtime, rt2: Runtime)
    requires Lower(name) !in Registry
    ensures Create(name, config, s1, rt1) == Create(name, config, s2, rt2) == Err(Unsupported(name))
  {
  }

  /** A registered name without a (non-empty) settings entry fails with
      "No configuration found". */
  lemma MissingSettingsEntry(name: string, config: Config, s: AppSettings, rt: Runtime)
    requires Lower(name) in Registry
    requires Lower(name) !in s.llmProviders || s.llmProviders[Lower(name)] == map[]
    ensures Create(name, config, s, rt) == Err(NoConfiguration(name))
    ensures Create(name, config, s, rt).error.IsValueError()
  {
  }

  /** The settings entry is only checked for presence: any two non-empty
      entries build the same provider. */
  lemma SettingsEntryOnlyChecked(name: string, config: Config, s: AppSettings, e1: ProviderEntry, e2: ProviderEntry, rt: Runtime)
    requires e1 != map[] && e2 != map[]
    ensures Create(name, config, s.(llmProviders := s.llmProviders[Lower(name) := e1]), rt)
         == Create(name, config, s.(llmProviders := s.llmProviders[Lower(name) := e2]), rt)
  {
  }

  /** `claude` cannot be created, whatever the settings say. */
  lemma ClaudeNotRegistered(config: Config, s: AppSettings, rt: Runtime)
    ensures Create("claude", config, s, rt) == Err(Unsupported("claude"))
  {
    LowerKeepsLowercase("claude");
  }

  /** A hosted provider builds exactly when its client construction raises
      nothing, and then takes `model_name`, `temperature` and `max_tokens`
      from the configuration, defaulting to the class's model, 0.7 and 1000;
      otherwise the factory re-raises the client's exception. */
  lemma HostedProviderDefaults(kind: ProviderKind, config: Config, s: AppSettings, rt: Runtime)
    requires IsHosted(kind)
    ensures Construct(kind, config, s, rt).Ok? <==> rt.clientError(kind, config).None?
    ensures rt.clientError(kind, config).Some? ==>
      Construct(kind, config, s, rt) == Err(ConstructorFailed(rt.clientError(kind, config).value))
    ensures Construct(kind, config, s, rt).Ok? ==>
      var p := Construct(kind, config, s, rt).value;
      && p.modelName == (if "model_name" in config then config["model_name"] else DefaultModelName(kind, s))
      && p.temperature == (if "temperature" in config then config["temperature"] else RealValue(0.7))
      && p.maxTokens == (if "max_tokens" in config then config["max_tokens"] else IntValue(1000))
  {
  }

  // ---------------------------------------------------------------- label maps

  const LabelPrefix: string := "__label__"

  /** `FastTextProvider.get_category_name`. */
  function FastTextCategory(tag: string, labels: map<string, string>): (r: string)
    ensures r == "none" || r in labels.Values
  {
    var key := ReplaceAll(tag, LabelPrefix, "");
    if key in labels then labels[key] else "none"
  }

  /** `BertProvider.get_category_name`. */
  function BertCategory(labelId: int, labels: map<int, string>): (r: string)
    ensures r == "none" || r in labels.Values
    ensures labelId in labels ==> r == labels[labelId]
  {
    if labelId in labels then labels[labelId] else "none"
  }

  /** A FastText label `__label__k` is looked up as `k`. */
  lemma {:induction false} FastTextLabelStripped(k: string, labels: map<string, string>)
    requires !Contains(k, LabelPrefix)
    ensures FastTextCategory(LabelPrefix + k, labels) == if k in labels then labels[k] else "none"
  {
    var s := LabelPrefix + k;
    assert s[..|LabelPrefix|] == LabelPrefix;
    assert s[|LabelPrefix|..] == k;
    ReplaceAbsent(k, LabelPrefix, "");
    assert |s| >= |LabelPrefix|;
    assert ReplaceAll(s, LabelPrefix, "") == "" + ReplaceAll(s[|LabelPrefix|..], LabelPrefix, "");
    assert ReplaceAll(s, LabelPrefix, "") == k;
  }

  // ---------------------------------------------------------------- FastText input

  /** The FastText provider's clean-up of its input: strip, turn line breaks
      into spaces, keep the first 100 characters. */
  function FastTextInput(message: string): string {
    Take(ReplaceAll(ReplaceAll(Strip(message), "\n", " "), "\r", " "), 100)
  }

  /** The cleaned-up input is one line of at most 100 characters. */
  lemma FastTextInputIsOneLine(message: string)
    ensures '\n' !in FastTextInput(message) && '\r' !in FastTextInput(message)
    ensures |FastTextInput(message)| <= 100
  {
    var a := ReplaceAll(Strip(message), "\n", " ");
    ReplaceCharRemoves(Strip(message), '\n', ' ', '\r');
    var b := ReplaceAll(a, "\r", " ");
    ReplaceCharRemoves(a, '\r', ' ', '\n');
    var r := Take(b, 100);
    assert r == b[..|r|];
    forall c | c in r ensures c in b {
      var i :| 0 <= i < |r| && r[i] == c;
      assert b[i] == c;
    }
  }

  // ---------------------------------------------------------------- synthesised replies

  function Spaces(n: nat): (r: string)
    ensures |r| == n
  {
    seq(n, _ => ' ')
  }

  /** The reply the local models write so that the structured output parser
      can read it like an LLM's: five fields between `open` and `close`. */
  function Reply(open: string, close: string, indent: nat, closeIndent: nat,
                 classification: string, confidence: string, explanation: string): string
  {
    open + "\n" + Fields(indent, classification, confidence, explanation) + (Spaces(closeIndent) + close)
  }

  /** The five fields of a reply, one per line. */
  function Fields(indent: nat, classification: string, confidence: string, explanation: string): string {
    Spaces(indent) + ClassificationField(classification) + OtherFields(indent, confidence, explanation)
  }

  function OtherFields(indent: nat, confidence: string, explanation: string): string {
    ",\n" + Spaces(indent) + ConfidenceField(confidence) + LaterFields(indent, explanation)
  }

  function ConfidenceField(confidence: string): string {
    "\"confidence\": " + confidence
  }

  function LaterFields(indent: nat, explanation: string): string {
    ",\n"
    + Spaces(indent) + "\"explanation\": \"" + explanation + "\",\n"
    + Spaces(indent) + "\"category_group_id\": null,\n"
    + Spaces(indent) + "\"category_group_name\": \"\"\n"
  }

  function ClassificationField(classification: string): string {
    "\"classification\": \"" + classification + "\""
  }

  function BertReply(category: string, p: BertPrediction): string {
    Reply("{", "}", 20, 16, category, p.confidenceText,
          "BERT model predicted " + category + " with " + p.percentText + " confidence")
  }

  /** The BERT fallback reply. It is a plain (not formatted) literal, so its
      doubled braces stay doubled. */
  function BertErrorReply(): string {
    Reply("{{", "}}", 16, 12, "unknown", "0.0", "Error in BERT prediction")
  }

  function FastTextReply(category: string, p: FastTextPrediction): string {
    Reply("{", "}", 16, 12, category, p.confidenceText,
          "FastText model predicted " + category + " with " + p.percentText + " confidence")
  }

  /** The FastText fallback reply, doubled braces included. */
  function FastTextErrorReply(): string {
    Reply("{{", "}}", 16, 12, "unknown", "0.0", "Error in FastText prediction")
  }

  /** Every reply, whatever the template arguments, names the classification
      in a `"classification": "..."` field. */
  lemma ReplyNamesClassification(open: string, close: string, indent: nat, closeIndent: nat,
                                 classification: string, confidence: string, explanation: string)
    ensures Contains(Reply(open, close, indent, closeIndent, classification, confidence, explanation),
                     ClassificationField(classification))
  {
    var field := ClassificationField(classification);
    ContainsInMiddle(Spaces(indent), field, OtherFields(indent, confidence, explanation));
    ContainsWithin(open + "\n", Fields(indent, classification, confidence, explanation), Spaces(closeIndent) + close, field);
  }

  /** A reply starts with its opening text and a line break and ends with
      its closing text. */
  lemma ReplyBracketed(open: string, close: string, indent: nat, closeIndent: nat,
                       classification: string, confidence: string, explanation: string)
    ensures var r := Reply(open, close, indent, closeIndent, classification, confidence, explanation);
      && |open| + 1 + |close| <= |r| && r[..|open| + 1] == open + "\n" && r[|r| - |close|..] == close
  {
    var head := open + "\n";
    var body := head + Fields(indent, classification, confidence, explanation);
    var tail := Spaces(closeIndent) + close;
    var r := Reply(open, close, indent, closeIndent, classification, confidence, explanation);
    assert r == body + tail;
    assert r[..|head|] == body[..|head|] == head;
    assert r[|r| - |close|..] == tail[|Spaces(closeIndent)|..] == close;
  }

  /** The local models' fallback replies open with `{{` and close with `}}`:
      they are plain literals, so their doubled braces stay doubled. This is
      the text `Classification.GroupEntry` hands to the structured output
      parser after an inference error; with doubled braces it is not a JSON
      object, so the parser (`Runtime.parse`), not the provider, decides
      whether that group gets an entry or an `error` entry. */
  lemma FallbackRepliesKeepDoubledBraces()
    ensures BertErrorReply()[..2] == "{{" && FastTextErrorReply()[..2] == "{{"
    ensures var b := BertErrorReply(); b[|b| - 2..] == "}}"
    ensures var f := FastTextErrorReply(); f[|f| - 2..] == "}}"
  {
    ReplyBracketed("{{", "}}", 16, 12, "unknown", "0.0", "Error in BERT prediction");
    ReplyBracketed("{{", "}}", 16, 12, "unknown", "0.0", "Error in FastText prediction");
  }

  /** The local models' normal replies open with a single `{` and a line
      break and close with a single `}`: the text `Classification.GroupEntry`
      hands to the structured output parser after a prediction is a JSON
      object, unlike the fallback replies above. */
  lemma RepliesUseSingleBraces(category: string, bp: BertPrediction, fp: FastTextPrediction)
    ensures BertReply(category, bp)[..2] == "{\n" && FastTextReply(category, fp)[..2] == "{\n"
    ensures var b := BertReply(category, bp); b[|b| - 1..] == "}"
    ensures var f := FastTextReply(category, fp); f[|f| - 1..] == "}"
  {
    ReplyBracketed("{", "}", 20, 16, category, bp.confidenceText,
                   "BERT model predicted " + category + " with " + bp.percentText + " confidence");
    ReplyBracketed("{", "}", 16, 12, category, fp.confidenceText,
                   "FastText model predicted " + category + " with " + fp.percentText + " confidence");
  }

  /** Both fallback replies classify as `unknown` with confidence 0.0. */
  lemma FallbackRepliesAreUnknown()
    ensures Contains(BertErrorReply(), ClassificationField("unknown"))
    ensures Contains(FastTextErrorReply(), ClassificationField("unknown"))
    ensures Contains(BertErrorReply(), ConfidenceField("0.0"))
    ensures Contains(FastTextErrorReply(), ConfidenceField("0.0"))
  {
    ReplyNamesClassification("{{", "}}", 16, 12, "unknown", "0.0", "Error in BERT prediction");
    ReplyNamesClassification("{{", "}}", 16, 12, "unknown", "0.0", "Error in FastText prediction");
    ReplyHasConfidence("{{", "}}", 16, 12, "unknown", "0.0", "Error in BERT prediction");
    ReplyHasConfidence("{{", "}}", 16, 12, "unknown", "0.0", "Error in FastText prediction");
  }

  /** Every reply holds its `"confidence": <text>` field. */
  lemma ReplyHasConfidence(open: string, close: string, indent: nat, closeIndent: nat,
                           classification: string, confidence: string, explanation: string)
    ensures Contains(Reply(open, close, indent, closeIndent, classification, confidence, explanation),
                     ConfidenceField(confidence))
  {
    var field := ConfidenceField(confidence);
    var before := ",\n" + Spaces(indent);
    var after := LaterFields(indent, explanation);
    ContainsInMiddle(before, field, after);
    var pre := open + "\n" + Spaces(indent) + ClassificationField(classification);
    var post := Spaces(closeIndent) + close;
    assert Reply(open, close, indent, closeIndent, classification, confidence, explanation)
        == pre + OtherFields(indent, confidence, explanation) + post;
    ContainsWithin(pre, OtherFields(indent, confidence, explanation), post, field);
  }

  // ---------------------------------------------------------------- completion

  /** `generate_completion`: hosted providers call their service, which may
      fail; local models answer with a synthesised reply, or with their
      fallback reply when inference fails. */
  function GenerateCompletion(p: Provider, system: string, user: string, s: AppSettings, rt: Runtime): (r: Result<string, string>)
    ensures !p.Hosted? ==> r.Ok?
    ensures p.Hosted? ==> r == rt.chat(p, system, user)
    ensures p.BertModel? && rt.bertPredict(p.modelPath, user).None? ==> r == Ok(BertErrorReply())
    ensures p.FastTextModel? && rt.fasttextPredict(p.modelPath, FastTextInput(user)).None? ==> r == Ok(FastTextErrorReply())
  {
    match p
    case Hosted(_, _, _, _) => rt.chat(p, system, user)
    case BertModel(path) =>
      (match rt.bertPredict(path, user)
       case None => Ok(BertErrorReply())
       case Some(pred) => Ok(BertReply(BertCategory(pred.labelId, s.bertLabelMap), pred)))
    case FastTextModel(path) =>
      match rt.fasttextPredict(path, FastTextInput(user))
      case None => Ok(FastTextErrorReply())
      case Some(pred) => Ok(FastTextReply(FastTextCategory(pred.predictedLabel, s.fasttextLabelMap), pred))
  }

  /** A BERT prediction gives a reply naming the category the label map
      assigns to the predicted id. */
  lemma BertCompletionNamesCategory(path: ConfigValue, system: string, user: string, s: AppSettings, rt: Runtime)
    requires rt.bertPredict(path, user).Some?
    ensures var pred := rt.bertPredict(path, user).value;
      Contains(GenerateCompletion(BertModel(path), system, user, s, rt).value,
               ClassificationField(BertCategory(pred.labelId, s.bertLabelMap)))
  {
    var pred := rt.bertPredict(path, user).value;
    var c := BertCategory(pred.labelId, s.bertLabelMap);
    ReplyNamesClassification("{", "}", 20, 16, c, pred.confidenceText,
                             "BERT model predicted " + c + " with " + pred.percentText + " confidence");
  }

  /** A FastText prediction on the cleaned-up input gives a reply naming
      the category the label map assigns to the predicted label. */
  lemma FastTextCompletionNamesCategory(path: ConfigValue, system: string, user: string, s: AppSettings, rt: Runtime)
    requires rt.fasttextPredict(path, FastTextInput(user)).Some?
    ensures var pred := rt.fasttextPredict(path, FastTextInput(user)).value;
      Contains(GenerateCompletion(FastTextModel(path), system, user, s, rt).value,
               ClassificationField(FastTextCategory(pred.predictedLabel, s.fasttextLabelMap)))
  {
    var pred := rt.fasttextPredict(path, FastTextInput(user)).value;
    var c := FastTextCategory(pred.predictedLabel, s.fasttextLabelMap);
    ReplyNamesClassification("{", "}", 16, 12, c, pred.confidenceText,
                             "FastText model predicted " + c + " with " + pred.percentText + " confidence");
  }
}
