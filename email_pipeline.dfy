/** The email cascade: the rule engine first, then the FastText and BERT
    models gated by their confidence thresholds, then the LLM. Each model
    stage borrows the shared classification service, switching it to the
    stage's provider and back. */
module EmailPipeline {
  import opened Wrappers
  import opened Settings
  import opened Providers
  import opened Classification
  import opened EmailRules

  // ---------------------------------------------------------------- records

  /** `EmailFile.CLASSIFICATION_LEVEL_CHOICES`. */
  datatype Level = RuleLevel | FastTextLevel | BertLevel | LlmLevel | UnknownLevel

  /** What `_classify_with_provider` returns. */
  datatype StageResult = StageResult(classification: string, confidence: real, methodName: string, explanation: string)

  /** The result `_classify_email` returns: a rule match or a model stage's
      result. */
  datatype Verdict = ByRule(rule: RuleMatch) | ByModel(stage: StageResult)
  {
    function Confidence(): real {
      match this
      case ByRule(m) => m.confidence
      case ByModel(r) => r.confidence
    }
  }

  /** The dictionary returned when processing raises. */
  datatype ProcessError = ProcessError(classification: string, confidence: real, methodName: string, error: string)

  function ErrorShape(message: string): ProcessError {
    ProcessError("Error", 0.0, "error", message)
  }

  /** The stored email file. The extracted-header attributes are the ones
      `_update_email_metadata` assigns on the instance. */
  class EmailFile {
    var emailContent: Option<EmailContent>
    var classificationResult: Option<Verdict>
    var classificationLevel: Level
    var confidenceScore: real
    var processed: bool
    var subject: string
    var sender: string
    var recipient: string
    var bodyText: string
    var attachmentCount: int
    var totalAttachmentSize: int

    /** A new record with the model's defaults. */
    constructor ()
      ensures emailContent.None? && classificationResult.None?
      ensures classificationLevel == UnknownLevel && confidenceScore == 0.0 && !processed
    {
      emailContent := None;
      classificationResult := None;
      classificationLevel := UnknownLevel;
      confidenceScore := 0.0;
      processed := false;
      subject, sender, recipient, bodyText := "", "", "", "";
      attachmentCount, totalAttachmentSize := 0, 0;
    }
  }

  // ---------------------------------------------------------------- one model stage

  /** The text a model stage classifies, from the stored content or from
      an empty record when there is none. */
  function ModelInput(content: Option<EmailContent>): string {
    match content
    case None => FormatContent("", "")
    case Some(c) => FormatContent(c.subject, c.body)
  }

  /** The stage result read off the service's entries: the first entry
      only, or `Uncategorized` when there is none. */
  function StageOutcome(results: seq<Entry>, stage: string): (r: StageResult)
    ensures r.methodName == stage
    ensures results == [] ==> r == StageResult("Uncategorized", 0.0, stage, stage + " classification failed")
    ensures results != [] ==>
      r.classification == results[0].classification && r.confidence == results[0].confidence
      && r.explanation == results[0].explanation
  {
    if results == [] then StageResult("Uncategorized", 0.0, stage, stage + " classification failed")
    else StageResult(results[0].classification, results[0].confidence, stage, results[0].explanation)
  }

  function StageError(stage: string, message: string): StageResult {
    StageResult("Error", 0.0, stage, "Error during classification: " + message)
  }

  /** `_classify_with_provider(content, stage)`: the result, and the service
      state it leaves behind. */
  function Stage(st: ServiceState, content: string, stage: string, groups: Result<seq<Group>, string>,
                 s: AppSettings, rt: Runtime): (StageResult, ServiceState)
  {
    var original := st.providerName;
    var (switched, err) := UpdateSpec(st, stage, map[], s, rt);
    if err.Some? then (StageError(stage, err.value.Message()), switched)
    else
      var results := Classified(switched, groups, content, "email", s, rt);
      var (restored, err') := UpdateSpec(switched, original, map[], s, rt);
      if err'.Some? then (StageError(stage, err'.value.Message()), restored)
      else (StageOutcome(results, stage), restored)
  }

  /** Every stage result names the stage as its method, a stage never
      changes the configuration, and once the switch to the stage's
      provider succeeds the original provider name is back afterwards. */
  lemma StageRestoresProvider(st: ServiceState, content: string, stage: string, groups: Result<seq<Group>, string>,
                              s: AppSettings, rt: Runtime)
    ensures var (r, st') := Stage(st, content, stage, groups, s, rt);
      && r.methodName == stage
      && st'.config == st.config
      && (Create(stage, st.config, s, rt).Ok? ==> st'.providerName == st.providerName)
  {
    assert st.config + map[] == st.config;
  }

  /** When the stage's provider cannot be built the result is an `Error`
      with confidence 0, and the service keeps the stage's name: the
      restoring switch never runs. */
  lemma FailedSwitchIsNotRestored(st: ServiceState, content: string, stage: string, groups: Result<seq<Group>, string>,
                                  s: AppSettings, rt: Runtime)
    requires Create(stage, st.config, s, rt).Err?
    ensures var (r, st') := Stage(st, content, stage, groups, s, rt);
      && r == StageError(stage, Create(stage, st.config, s, rt).error.Message())
      && r.classification == "Error" && r.confidence == 0.0
      && st'.providerName == stage && st'.provider == st.provider
  {
    assert st.config + map[] == st.config;
  }

  /** On the normal path the result is read off the first group's entry of
      the stage's classification. */
  lemma StageUsesFirstGroup(st: ServiceState, content: string, stage: string, gs: seq<Group>,
                            s: AppSettings, rt: Runtime)
    requires Create(stage, st.config, s, rt).Ok? && Create(st.providerName, st.config, s, rt).Ok?
    ensures var (r, _) := Stage(st, content, stage, Ok(gs), s, rt);
      var switched := ServiceState(stage, st.config, Create(stage, st.config, s, rt).value, st.wording);
      && (gs == [] ==> r.classification == "Uncategorized" && r.confidence == 0.0)
      && (gs != [] ==> var e := GroupEntry(switched, gs[0], content, "email", s, rt);
            r.classification == e.classification && r.confidence == e.confidence && r.explanation == e.explanation)
  {
    assert st.config + map[] == st.config;
    var switched := ServiceState(stage, st.config, Create(stage, st.config, s, rt).value, st.wording);
    ClassifiedOnePerGroup(switched, gs, content, "email", s, rt);
  }

  // ---------------------------------------------------------------- the cascade

  /** What `_classify_email` settles on: the verdict, the level and
      confidence it records, and the service state it leaves behind. */
  datatype Outcome = Outcome(verdict: Verdict, level: Level, confidence: real, service: ServiceState)

  /** A model stage: the provider it switches to, the level it records and
      the threshold its confidence must reach; the last stage has none. */
  datatype ModelStage = ModelStage(provider: string, level: Level, threshold: Option<real>)

  /** FastText, BERT and the LLM, in the order the cascade tries them. */
  function ModelStages(s: AppSettings): (stages: seq<ModelStage>)
    ensures |stages| == 3
  {
    [ModelStage("fasttext", FastTextLevel, Some(s.fasttextThreshold)),
     ModelStage("bert", BertLevel, Some(s.bertThreshold)),
     ModelStage("deepseek", LlmLevel, None)]
  }

  /** What a model stage does to the shared service, given the provider it
      switches to: its result and the service state it leaves behind. */
  type StageRun = (ServiceState, string) -> (StageResult, ServiceState)

  /** `_classify_with_provider` on the email's text, the active groups,
      the settings and the runtime. */
  function StageOf(text: string, groups: Result<seq<Group>, string>, s: AppSettings, rt: Runtime): StageRun {
    (st: ServiceState, stage: string) => Stage(st, text, stage, groups, s, rt)
  }

  /** The model stages from the first one on: a stage's result is accepted
      when it has no threshold, is the last, or reaches its threshold;
      otherwise the next stage runs on the service the stage left behind. */
  function RunStages(stages: seq<ModelStage>, st: ServiceState, run: StageRun): (o: Outcome)
    requires stages != []
    ensures o.confidence == o.verdict.Confidence()
    ensures exists i :: 0 <= i < |stages| && o.level == stages[i].level
    decreases |stages|
  {
    var (r, st') := run(st, stages[0].provider);
    if |stages| == 1 || stages[0].threshold.None? || r.confidence >= stages[0].threshold.value then
      Outcome(ByModel(r), stages[0].level, r.confidence, st')
    else
      var o := RunStages(stages[1..], st', run);
      var i :| 0 <= i < |stages[1..]| && o.level == stages[1..][i].level;
      assert stages[i + 1].level == o.level;
      o
  }

  /** `_classify_email` from the stored content and the service state, for
      a given behaviour of the model stages. */
  function Cascade(rules: seq<Rule>, content: Option<EmailContent>, st: ServiceState, s: AppSettings, run: StageRun): Outcome {
    match MatchRules(rules, content)
    case Some(m) => Outcome(ByRule(m), RuleLevel, 1.0, st)
    case None => RunStages(ModelStages(s), st, run)
  }

  /** The recorded confidence is the verdict's, and the level is never
      left at `unknown`. */
  lemma CascadeRecordsVerdict(rules: seq<Rule>, content: Option<EmailContent>, st: ServiceState, s: AppSettings, run: StageRun)
    ensures var o := Cascade(rules, content, st, s, run);
      o.confidence == o.verdict.Confidence() && o.level != UnknownLevel
  {
    if MatchRules(rules, content).None? {
      var o := RunStages(ModelStages(s), st, run);
      var i :| 0 <= i < 3 && o.level == ModelStages(s)[i].level;
    }
  }

  /** A rule hit settles the email at level `rule` with confidence 1.0;
      no model runs, so the service and whatever the models would answer
      are irrelevant. */
  lemma RuleHitShortCircuits(rules: seq<Rule>, c: EmailContent, st: ServiceState, st': ServiceState,
                             s: AppSettings, run: StageRun, run': StageRun)
    requires MatchRules(rules, Some(c)).Some?
    ensures var o := Cascade(rules, Some(c), st, s, run);
      && o == Outcome(ByRule(MatchRules(rules, Some(c)).value), RuleLevel, 1.0, st)
      && Cascade(rules, Some(c), st', s, run').verdict == o.verdict
  {
  }

  /** Without a rule hit the FastText result is accepted exactly when its
      confidence reaches the FastText threshold. */
  lemma FastTextGate(rules: seq<Rule>, content: Option<EmailContent>, st: ServiceState, s: AppSettings, run: StageRun)
    requires MatchRules(rules, content).None?
    ensures var (r, _) := run(st, "fasttext");
      var o := Cascade(rules, content, st, s, run);
      && (o.level == FastTextLevel <==> r.confidence >= s.fasttextThreshold)
      && (o.level == FastTextLevel ==> o.verdict == ByModel(r) && o.confidence == r.confidence)
  {
    var stages := ModelStages(s);
    var (r, st1) := run(st, "fasttext");
    if r.confidence < s.fasttextThreshold {
      var o := RunStages(stages[1..], st1, run);
      var i :| 0 <= i < 2 && o.level == stages[1..][i].level;
    }
  }

  /** Past FastText, the BERT result is accepted exactly when its
      confidence reaches the BERT threshold. */
  lemma BertGate(rules: seq<Rule>, content: Option<EmailContent>, st: ServiceState, s: AppSettings, run: StageRun)
    requires MatchRules(rules, content).None?
    requires run(st, "fasttext").0.confidence < s.fasttextThreshold
    ensures var (r, _) := run(run(st, "fasttext").1, "bert");
      var o := Cascade(rules, content, st, s, run);
      && (o.level == BertLevel <==> r.confidence >= s.bertThreshold)
      && (o.level == BertLevel ==> o.verdict == ByModel(r) && o.confidence == r.confidence)
  {
    var stages := ModelStages(s);
    var st1 := run(st, "fasttext").1;
    assert Cascade(rules, content, st, s, run) == RunStages(stages[1..], st1, run);
    var (r, st2) := run(st1, "bert");
    if r.confidence < s.bertThreshold {
      assert stages[1..][1..] == [ModelStage("deepseek", LlmLevel, None)];
      assert RunStages(stages[1..], st1, run) == RunStages(stages[1..][1..], st2, run);
    }
  }

  /** When both models stay below their thresholds the LLM result is taken
      whatever its confidence, and that confidence is recorded. */
  lemma LlmTakesTheRest(rules: seq<Rule>, content: Option<EmailContent>, st: ServiceState, s: AppSettings, run: StageRun)
    requires MatchRules(rules, content).None?
    requires run(st, "fasttext").0.confidence < s.fasttextThreshold
    requires run(run(st, "fasttext").1, "bert").0.confidence < s.bertThreshold
    ensures var (r, st3) := run(run(run(st, "fasttext").1, "bert").1, "deepseek");
      Cascade(rules, content, st, s, run) == Outcome(ByModel(r), LlmLevel, r.confidence, st3)
  {
    var stages := ModelStages(s);
    var st1 := run(st, "fasttext").1;
    assert Cascade(rules, content, st, s, run) == RunStages(stages[1..], st1, run);
    var st2 := run(st1, "bert").1;
    assert stages[1..][1..] == [ModelStage("deepseek", LlmLevel, None)];
    assert RunStages(stages[1..], st1, run) == RunStages(stages[1..][1..], st2, run);
  }

  /** A stage that keeps the service's configuration and hands it back
      under the name it had, from any state with that name and
      configuration. */
  ghost predicate Restores(run: StageRun, stage: string, name: string, config: Config) {
    forall st: ServiceState {:trigger run(st, stage)} :: st.providerName == name && st.config == config ==>
      run(st, stage).1.providerName == name && run(st, stage).1.config == config
  }

  /** Stages that each restore the service leave it with its original name
      and configuration. */
  lemma {:induction false} RunStagesKeepsService(stages: seq<ModelStage>, st: ServiceState, run: StageRun)
    requires stages != []
    requires forall i :: 0 <= i < |stages| ==> Restores(run, stages[i].provider, st.providerName, st.config)
    ensures var o := RunStages(stages, st, run);
      o.service.config == st.config && o.service.providerName == st.providerName
    decreases |stages|
  {
    assert Restores(run, stages[0].provider, st.providerName, st.config);
    var st' := run(st, stages[0].provider).1;
    if |stages| > 1 {
      assert forall i :: 0 <= i < |stages[1..]| ==> stages[1..][i] == stages[i + 1];
      RunStagesKeepsService(stages[1..], st', run);
    }
  }

  /** A stage whose provider can be built restores the service. */
  lemma StageOfRestores(text: string, groups: Result<seq<Group>, string>, s: AppSettings, rt: Runtime,
                        stage: string, name: string, config: Config)
    requires Create(stage, config, s, rt).Ok?
    ensures Restores(StageOf(text, groups, s, rt), stage, name, config)
  {
    forall st: ServiceState | st.providerName == name && st.config == config
      ensures StageOf(text, groups, s, rt)(st, stage).1.providerName == name
      ensures StageOf(text, groups, s, rt)(st, stage).1.config == config
    {
      StageRestoresProvider(st, text, stage, groups, s, rt);
    }
  }

  /** The email cascade never changes the service's configuration or, when
      its three stages restore the service (as `StageOfRestores` shows they
      do when their providers can be built), its provider name. */
  lemma CascadeKeepsService(rules: seq<Rule>, content: Option<EmailContent>, st: ServiceState, s: AppSettings, run: StageRun)
    requires Restores(run, "fasttext", st.providerName, st.config)
    requires Restores(run, "bert", st.providerName, st.config)
    requires Restores(run, "deepseek", st.providerName, st.config)
    ensures var o := Cascade(rules, content, st, s, run);
      o.service.config == st.config && o.service.providerName == st.providerName
  {
    if MatchRules(rules, content).None? {
      var stages := ModelStages(s);
      assert stages[0].provider == "fasttext" && stages[1].provider == "bert" && stages[2].provider == "deepseek";
      forall i | 0 <= i < |stages|
        ensures Restores(run, stages[i].provider, st.providerName, st.config)
      {
        if i == 0 {
        } else if i == 1 {
        } else {
        }
      }
      RunStagesKeepsService(stages, st, run);
    }
  }

  // ---------------------------------------------------------------- metadata

  /** `sum(a['size'] for a in attachments)`: None when an attachment has
      no size, which raises `KeyError`. */
  function StrictTotal(atts: seq<Attachment>): (r: Option<int>)
    ensures r.Some? <==> forall k :: 0 <= k < |atts| ==> atts[k].size.Some?
  {
    if atts == [] then Some(0)
    else if atts[0].size.None? then None
    else
      match StrictTotal(atts[1..])
      case None => None
      case Some(t) => Some(atts[0].size.value + t)
  }

  /** Where every size is present the strict sum is the lenient one. */
  lemma {:induction false} StrictTotalIsTotal(atts: seq<Attachment>)
    requires StrictTotal(atts).Some?
    ensures StrictTotal(atts) == Some(TotalSize(atts))
  {
    if atts != [] {
      StrictTotalIsTotal(atts[1..]);
    }
  }

  lemma {:induction false} TotalSizeAppend(atts: seq<Attachment>, a: Attachment)
    ensures TotalSize(atts + [a]) == TotalSize(atts) + a.size.GetOr(0)
  {
    if atts != [] {
      assert (atts + [a])[1..] == atts[1..] + [a];
      TotalSizeAppend(atts[1..], a);
    }
  }

  // ---------------------------------------------------------------- the service

  class EmailProcessingService {
    const service: ClassificationService

    constructor (service: ClassificationService)
      ensures this.service == service
    {
      this.service := service;
    }

    /** `_classify_with_provider`. */
    method ClassifyWithProvider(content: string, stage: string, groups: Result<seq<Group>, string>,
                                s: AppSettings, rt: Runtime) returns (r: StageResult)
      modifies service
      ensures (r, service.State()) == Stage(old(service.State()), content, stage, groups, s, rt)
    {
      var original := service.providerName;
      var err := service.UpdateProvider(stage, map[], s, rt);
      if err.Some? {
        return StageError(stage, err.value.Message());
      }
      var results := service.ClassifyContent(content, "email", groups, s, rt);
      err := service.UpdateProvider(original, map[], s, rt);
      if err.Some? {
        return StageError(stage, err.value.Message());
      }
      r := StageOutcome(results, stage);
    }

    /** `_classify_email`: the first stage that settles the email records
        its level and confidence on the file. */
    method ClassifyEmail(file: EmailFile, rules: seq<Rule>, groups: Result<seq<Group>, string>,
                         s: AppSettings, rt: Runtime) returns (v: Verdict)
      modifies file, service
      ensures Outcome(v, file.classificationLevel, file.confidenceScore, service.State())
        == Cascade(rules, old(file.emailContent), old(service.State()), s,
                   StageOf(ModelInput(old(file.emailContent)), groups, s, rt))
      ensures file.emailContent == old(file.emailContent) && file.classificationResult == old(file.classificationResult)
        && file.processed == old(file.processed)
      ensures file.subject == old(file.subject) && file.sender == old(file.sender)
        && file.recipient == old(file.recipient) && file.bodyText == old(file.bodyText)
      ensures file.attachmentCount == old(file.attachmentCount)
        && file.totalAttachmentSize == old(file.totalAttachmentSize)
    {
      var ruleResult := ApplyRules(rules, file.emailContent);
      if ruleResult.Some? {
        file.classificationLevel := RuleLevel;
        file.confidenceScore := 1.0;
        return ByRule(ruleResult.value);
      }
      var text := ModelInput(file.emailContent);
      ghost var run := StageOf(text, groups, s, rt);
      ghost var st0 := service.State();
      assert Cascade(rules, file.emailContent, st0, s, run) == RunStages(ModelStages(s), st0, run);
      var fast := ApplyFastText(text, groups, s, rt);
      if fast.Some? && fast.value.confidence >= s.fasttextThreshold {
        file.classificationLevel := FastTextLevel;
        file.confidenceScore := fast.value.confidence;
        return ByModel(fast.value);
      }
      assert RunStages(ModelStages(s), st0, run) == RunStages(ModelStages(s)[1..], service.State(), run);
      var level;
      v, level := ClassifyPastFastText(text, groups, s, rt);
      file.classificationLevel := level;
      file.confidenceScore := v.Confidence();
    }

    /** The BERT and LLM stages of `_classify_email`. */
    method ClassifyPastFastText(text: string, groups: Result<seq<Group>, string>, s: AppSettings, rt: Runtime)
      returns (v: Verdict, level: Level)
      modifies service
      ensures Outcome(v, level, v.Confidence(), service.State())
        == RunStages(ModelStages(s)[1..], old(service.State()), StageOf(text, groups, s, rt))
    {
      ghost var run := StageOf(text, groups, s, rt);
      ghost var stages := ModelStages(s)[1..];
      assert stages == [ModelStage("bert", BertLevel, Some(s.bertThreshold)), ModelStage("deepseek", LlmLevel, None)];
      var bert := ClassifyWithProvider(text, "bert", groups, s, rt);
      assert run(old(service.State()), "bert") == (bert, service.State());
      if bert.confidence >= s.bertThreshold {
        return ByModel(bert), BertLevel;
      }
      assert RunStages(stages, old(service.State()), run) == RunStages(stages[1..], service.State(), run);
      ghost var st1 := service.State();
      var llm := ClassifyWithProvider(text, "deepseek", groups, s, rt);
      assert run(st1, "deepseek") == (llm, service.State());
      return ByModel(llm), LlmLevel;
    }

    /** `_apply_fasttext`: the FastText stage's result when it reaches the
        threshold. */
    method ApplyFastText(content: string, groups: Result<seq<Group>, string>, s: AppSettings, rt: Runtime)
      returns (r: Option<StageResult>)
      modifies service
      ensures var (result, st') := Stage(old(service.State()), content, "fasttext", groups, s, rt);
        && service.State() == st'
        && r == if result.confidence >= s.fasttextThreshold then Some(result) else None
    {
      var result := ClassifyWithProvider(content, "fasttext", groups, s, rt);
      if result.confidence >= s.fasttextThreshold {
        return Some(result);
      }
      r := None;
    }

    /** `process_email_file`, given what extracting the content gave: the
        content, or the message of the exception raised before extraction's
        own `try` (`file.path` of a record without a file). Extraction
        reports its later failures inside the content, and no cascade step
        raises, so an exception leaves the record as it was and gives the
        error shape. */
    method ProcessEmailFile(file: EmailFile, extracted: Result<EmailContent, string>, rules: seq<Rule>,
                            groups: Result<seq<Group>, string>, s: AppSettings, rt: Runtime)
      returns (r: Result<Verdict, ProcessError>)
      modifies file, service
      ensures extracted.Err? ==>
        r == Err(ErrorShape(extracted.error)) && unchanged(file) && service.State() == old(service.State())
      ensures extracted.Ok? ==>
        var o := Cascade(rules, Some(extracted.value), old(service.State()), s,
                         StageOf(ModelInput(Some(extracted.value)), groups, s, rt));
        && r == Ok(o.verdict) && file.classificationLevel == o.level && file.confidenceScore == o.confidence
        && service.State() == o.service
        && file.emailContent == Some(extracted.value) && file.classificationResult == Some(o.verdict) && file.processed
      ensures file.subject == old(file.subject) && file.sender == old(file.sender)
        && file.recipient == old(file.recipient) && file.bodyText == old(file.bodyText)
        && file.attachmentCount == old(file.attachmentCount)
        && file.totalAttachmentSize == old(file.totalAttachmentSize)
    {
      if extracted.Err? {
        return Err(ErrorShape(extracted.error));
      }
      file.emailContent := Some(extracted.value);
      var v := ClassifyEmail(file, rules, groups, s, rt);
      file.classificationResult := Some(v);
      file.processed := true;
      r := Ok(v);
    }

    /** `_update_email_metadata`: the header attributes and the attachment
        count are assigned, then the strict size sum; an attachment without
        a size raises `KeyError('size')` before the total is assigned. */
    method UpdateEmailMetadata(file: EmailFile, content: EmailContent) returns (err: Option<string>)
      modifies file
      ensures file.subject == content.subject && file.sender == content.sender
        && file.recipient == content.recipient && file.bodyText == content.body
        && file.attachmentCount == |content.attachments|
      ensures err.None? <==> StrictTotal(content.attachments).Some?
      ensures err.None? ==> file.totalAttachmentSize == TotalSize(content.attachments)
      ensures err.Some? ==> err.value == "'size'" && file.totalAttachmentSize == old(file.totalAttachmentSize)
      ensures file.emailContent == old(file.emailContent) && file.classificationResult == old(file.classificationResult)
        && file.classificationLevel == old(file.classificationLevel) && file.confidenceScore == old(file.confidenceScore)
        && file.processed == old(file.processed)
    {
      file.subject := content.subject;
      file.sender := content.sender;
      file.recipient := content.recipient;
      file.bodyText := content.body;
      file.attachmentCount := |content.attachments|;
      var total := SumSizes(content.attachments);
      if total.None? {
        return Some("'size'");
      }
      file.totalAttachmentSize := total.value;
      err := None;
    }
  }

  /** `sum(a['size'] for a in attachments)`, stopping at the first
      attachment without a size. */
  method SumSizes(atts: seq<Attachment>) returns (total: Option<int>)
    ensures total == StrictTotal(atts)
    ensures total.Some? ==> total.value == TotalSize(atts)
  {
    var sum := 0;
    var i := 0;
    while i < |atts|
      invariant 0 <= i <= |atts|
      invariant forall k :: 0 <= k < i ==> atts[k].size.Some?
      invariant sum == TotalSize(atts[..i])
    {
      if atts[i].size.None? {
        return None;
      }
      assert atts[..i + 1] == atts[..i] + [atts[i]];
      TotalSizeAppend(atts[..i], atts[i]);
      sum := sum + atts[i].size.value;
      i := i + 1;
    }
    assert atts[..i] == atts;
    StrictTotalIsTotal(atts);
    total := Some(sum);
  }

  // ---------------------------------------------------------------- content posted directly

  /** `process_email_content`: a fresh default service classifies the
      content as `text`; a service that cannot be built gives the error
      shape. */
  function ContentOutcome(content: string, groups: Result<seq<Group>, string>, s: AppSettings, rt: Runtime)
    : Result<seq<Entry>, ProcessError>
  {
    match InitState(None, map[], s, rt)
    case Err(e) => Err(ErrorShape(e.Message()))
    case Ok(st) => Ok(Classified(st, groups, content, "text", s, rt))
  }

  /** Posted content gets one entry per active group from the default
      provider, or the `Error` shape with confidence 0 when the service
      cannot be built. */
  lemma ContentOutcomeShape(content: string, gs: seq<Group>, s: AppSettings, rt: Runtime)
    ensures var r := ContentOutcome(content, Ok(gs), s, rt);
      && (r.Err? <==> InitState(None, map[], s, rt).Err?)
      && (r.Err? ==> r.error.classification == "Error" && r.error.confidence == 0.0 && r.error.methodName == "error")
      && (r.Ok? ==> |r.value| == |gs|)
      && (r.Ok? ==> forall i :: 0 <= i < |gs| ==>
            r.value[i].groupId == Some(gs[i].id)
            && r.value[i].llmProvider == Some(InitState(None, map[], s, rt).value.providerName))
  {
    if InitState(None, map[], s, rt).Ok? {
      ClassifiedOnePerGroup(InitState(None, map[], s, rt).value, gs, content, "text", s, rt);
    }
  }

  method ProcessEmailContent(content: string, groups: Result<seq<Group>, string>, s: AppSettings, rt: Runtime)
    returns (r: Result<seq<Entry>, ProcessError>)
    ensures r == ContentOutcome(content, groups, s, rt)
  {
    var created := ClassificationService.New(None, map[], s, rt);
    if created.Err? {
      return Err(ErrorShape(created.error.Message()));
    }
    var results := created.value.ClassifyContent(content, "text", groups, s, rt);
    r := Ok(results);
  }
}
