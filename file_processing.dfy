/** The file and text side of the application: uploaded files are typed,
    their text extracted and classified, and every classification result
    is stored as a record; typed-in text and raw content go through the
    same classification. */
module FileProcessing {
  import opened Wrappers
  import opened Text
  import opened Settings
  import opened Providers
  import opened Classification

  // ---------------------------------------------------------------- file types

  /** `ProcessedFile.FILE_TYPE_CHOICES`. */
  const FileTypeChoices: set<string> := {"text", "pdf", "doc", "xls", "ppt", "image", "video", "audio", "other"}

  /** The extension table used when `mimetypes` has no guess. */
  const ExtensionTypes: map<string, string> :=
    map[".txt" := "text", ".pdf" := "pdf",
        ".doc" := "doc", ".docx" := "doc",
        ".xls" := "xls", ".xlsx" := "xls",
        ".ppt" := "ppt", ".pptx" := "ppt",
        ".jpg" := "image", ".jpeg" := "image", ".png" := "image", ".gif" := "image"]

  /** The MIME table, in its insertion order: prefix of a MIME type and the
      file type it stands for. The long OOXML prefixes are spelt in pieces. */
  function MimeTable(): seq<(string, string)> {
    var ooxml := "application/" + "vnd.openxmlformats-" + "officedocument.";
    [("text/", "text"),
     ("application/" + "pdf", "pdf"),
     ("application/" + "msword", "doc"),
     (ooxml + "wordprocessingml", "doc"),
     ("application/" + "vnd.ms-excel", "xls"),
     (ooxml + "spreadsheetml", "xls"),
     ("application/" + "vnd.ms-powerpoint", "ppt"),
     (ooxml + "presentationml", "ppt"),
     ("image/", "image")]
  }

  /** A MIME guess counts only when it is a non-empty string. */
  predicate Guessed(guess: Option<string>) {
    guess.Some? && guess.value != ""
  }

  /** The type the extension table gives to a file name: the lower-cased
      extension, looked up with default `other`. */
  function ExtensionType(fileName: string): string {
    var ext := Lower(Extension(fileName));
    if ext in ExtensionTypes then ExtensionTypes[ext] else "other"
  }

  /** The loop over the MIME table as written: the loop variable takes the
      table's value, and the value is tested against its own key. */
  function MimeScan(table: seq<(string, string)>): string {
    if table == [] then "other"
    else if StartsWith(table[0].1, table[0].0) then table[0].1
    else MimeScan(table[1..])
  }

  /** `_detect_file_type(filename)`, given what `mimetypes` guesses for it. */
  function FileTypeOf(fileName: string, guess: Option<string>): string {
    if !Guessed(guess) then ExtensionType(fileName) else MimeScan(MimeTable())
  }

  /** No value of the MIME table starts with its own key: every value is
      shorter than its key. */
  lemma MimeScanFindsNothing()
    ensures MimeScan(MimeTable()) == "other"
  {
    var t := MimeTable();
    assert forall j :: 0 <= j < |t| ==> |t[j].1| < |t[j].0|;
    MimeScanShorterValues(t);
  }

  lemma {:induction false} MimeScanShorterValues(table: seq<(string, string)>)
    requires forall j :: 0 <= j < |table| ==> |table[j].1| < |table[j].0|
    ensures MimeScan(table) == "other"
  {
    if table != [] {
      MimeScanShorterValues(table[1..]);
    }
  }

  /** Whatever `mimetypes` guesses, a guessed file is typed `other`; only
      names without a guess are typed by their extension. */
  lemma GuessedFilesAreOther(fileName: string, guess: Option<string>)
    ensures Guessed(guess) ==> FileTypeOf(fileName, guess) == "other"
    ensures !Guessed(guess) ==> FileTypeOf(fileName, guess) == ExtensionType(fileName)
  {
    MimeScanFindsNothing();
  }

  /** The detected type is always one of the model's choices. */
  lemma DetectedTypeIsChoice(fileName: string, guess: Option<string>)
    ensures FileTypeOf(fileName, guess) in FileTypeChoices
  {
    GuessedFilesAreOther(fileName, guess);
  }

  // ---------------------------------------------------------------- records

  /** A stored `ClassificationResult`. */
  datatype Record = Record(
    contentType: string,
    contentHash: string,
    classification: string,
    confidence: real,
    metadata: map<string, string>,
    groupId: Option<int>,
    llmProvider: string,
    llmModel: ConfigValue
  )

  /** The record created for one entry of `classify_content`. */
  function RecordOf(e: Entry, contentHash: string, contentType: string): Record {
    Record(contentType, contentHash, e.classification, e.confidence,
           map["explanation" := e.explanation, "category_group_name" := e.groupName],
           e.groupId, e.llmProvider.GetOr("unknown"), e.llmModel.GetOr(StrValue("unknown")))
  }

  function Records(entries: seq<Entry>, contentHash: string, contentType: string): (rs: seq<Record>)
    ensures |rs| == |entries|
  {
    seq(|entries|, i requires 0 <= i < |entries| => RecordOf(entries[i], contentHash, contentType))
  }

  /** One record per entry, in order, all with the same hash and content
      type; an entry without provider or model is stored as `unknown`. */
  lemma RecordsMirrorEntries(entries: seq<Entry>, contentHash: string, contentType: string, i: nat)
    requires i < |entries|
    ensures var r := Records(entries, contentHash, contentType)[i];
      && r.contentHash == contentHash && r.contentType == contentType
      && r.classification == entries[i].classification && r.confidence == entries[i].confidence
      && r.groupId == entries[i].groupId
      && r.metadata.Keys == {"explanation", "category_group_name"}
      && r.metadata["explanation"] == entries[i].explanation
      && r.metadata["category_group_name"] == entries[i].groupName
      && (entries[i].llmProvider.None? ==> r.llmProvider == "unknown")
      && (entries[i].llmProvider.Some? ==> r.llmProvider == entries[i].llmProvider.value)
      && (entries[i].llmModel.None? ==> r.llmModel == StrValue("unknown"))
      && (entries[i].llmModel.Some? ==> r.llmModel == entries[i].llmModel.value)
  {
  }

  /** `metadata.get(key, default)` on a record's metadata. */
  function MetaGet(metadata: map<string, string>, key: string, default: string): string {
    if key in metadata then metadata[key] else default
  }

  /** The records after `process_text` deletes the LLM information from
      their metadata. */
  function WithoutLlmInfo(rs: seq<Record>): (out: seq<Record>)
    ensures |out| == |rs|
  {
    seq(|rs|, i requires 0 <= i < |rs| => rs[i].(metadata := rs[i].metadata - {"llm_provider", "llm_model"}))
  }

  /** After the deletion no metadata holds LLM information, and nothing
      else of a record changes. */
  lemma WithoutLlmInfoClears(rs: seq<Record>)
    ensures forall i :: 0 <= i < |rs| ==>
      && "llm_provider" !in WithoutLlmInfo(rs)[i].metadata
      && "llm_model" !in WithoutLlmInfo(rs)[i].metadata
      && WithoutLlmInfo(rs)[i] == rs[i].(metadata := WithoutLlmInfo(rs)[i].metadata)
      && forall k :: k in rs[i].metadata && k != "llm_provider" && k != "llm_model" ==>
           k in WithoutLlmInfo(rs)[i].metadata && WithoutLlmInfo(rs)[i].metadata[k] == rs[i].metadata[k]
  {
  }

  /** The records `_classify_content` creates never carry the LLM
      information in their metadata: the text input is always stamped
      `unknown`, and the deletion changes nothing. */
  lemma TextInfoAlwaysUnknown(entries: seq<Entry>, contentHash: string, contentType: string)
    ensures var rs := Records(entries, contentHash, contentType);
      && (forall i :: 0 <= i < |rs| ==>
            MetaGet(rs[i].metadata, "llm_provider", "unknown") == "unknown"
            && MetaGet(rs[i].metadata, "llm_model", "unknown") == "unknown")
      && WithoutLlmInfo(rs) == rs
  {
    var rs := Records(entries, contentHash, contentType);
    forall i | 0 <= i < |rs|
      ensures WithoutLlmInfo(rs)[i] == rs[i]
    {
      assert rs[i].metadata - {"llm_provider", "llm_model"} == rs[i].metadata;
    }
  }

  // ---------------------------------------------------------------- process_content configuration

  /** The configuration `process_content` builds for a requested provider,
      or the error it raises: the provider must have a non-empty settings
      entry, whose `default_model` is read with `[]`, as are the default
      temperature and token limit. */
  function ContentProviderConfig(p: string, s: AppSettings): (r: Result<Config, string>)
  {
    if p !in s.llmProviders || s.llmProviders[p] == map[] then Err("Unsupported LLM provider: " + p)
    else
      var entry := s.llmProviders[p];
      var prefix := EntryGet(entry, "config_prefix", Upper(p));
      if "default_model" !in entry then Err("'default_model'")
      else if "temperature" !in s.defaultLlmConfig then Err("'temperature'")
      else if "max_tokens" !in s.defaultLlmConfig then Err("'max_tokens'")
      else Ok(map["api_key" := StrValue(EntryGet(s.named, prefix + "_API_KEY", "")),
                  "base_url" := StrValue(EntryGet(s.named, prefix + "_API_URL", "")),
                  "model_name" := StrValue(entry["default_model"]),
                  "temperature" := s.defaultLlmConfig["temperature"],
                  "max_tokens" := s.defaultLlmConfig["max_tokens"]])
  }

  /** An unknown provider is refused with its name; a known one gets its
      default model, the default temperature and token limit, and the key
      and URL settings under its prefix, the upper-cased name unless the
      entry says otherwise. */
  lemma ContentProviderConfigShape(p: string, s: AppSettings)
    ensures (p !in s.llmProviders || s.llmProviders[p] == map[])
      ==> ContentProviderConfig(p, s) == Err("Unsupported LLM provider: " + p)
    ensures ContentProviderConfig(p, s).Ok? <==>
      && p in s.llmProviders && s.llmProviders[p] != map[]
      && "default_model" in s.llmProviders[p]
      && "temperature" in s.defaultLlmConfig && "max_tokens" in s.defaultLlmConfig
    ensures ContentProviderConfig(p, s).Ok? ==>
      var config := ContentProviderConfig(p, s).value;
      var entry := s.llmProviders[p];
      var prefix := if "config_prefix" in entry then entry["config_prefix"] else Upper(p);
      && config.Keys == {"api_key", "base_url", "model_name", "temperature", "max_tokens"}
      && config["model_name"] == StrValue(entry["default_model"])
      && config["temperature"] == s.defaultLlmConfig["temperature"]
      && config["max_tokens"] == s.defaultLlmConfig["max_tokens"]
      && config["api_key"] == StrValue(if prefix + "_API_KEY" in s.named then s.named[prefix + "_API_KEY"] else "")
  {
  }

  /** What `process_content` returns and the service state it leaves: the
      service is switched to a requested provider (and stays switched),
      then the content is classified and stored. */
  function ContentResult(st: ServiceState, content: string, contentType: string, llmProvider: Option<string>,
                         hash: string -> string, groups: Result<seq<Group>, string>, s: AppSettings, rt: Runtime)
    : (Result<seq<Record>, string>, ServiceState)
  {
    if llmProvider.Some? && llmProvider.value != "" then
      match ContentProviderConfig(llmProvider.value, s)
      case Err(message) => (Err(message), st)
      case Ok(config) =>
        var (st', err) := UpdateSpec(st, llmProvider.value, config, s, rt);
        if err.Some? then (Err(err.value.Message()), st')
        else (Ok(Records(Classified(st', groups, content, contentType, s, rt), hash(content), contentType)), st')
    else (Ok(Records(Classified(st, groups, content, contentType, s, rt), hash(content), contentType)), st)
  }

  /** An unsupported provider is refused before the service is touched and
      before anything is classified. */
  lemma UnsupportedProviderLeavesService(st: ServiceState, content: string, contentType: string, p: string,
                                         hash: string -> string, groups: Result<seq<Group>, string>,
                                         s: AppSettings, rt: Runtime)
    requires p != "" && (p !in s.llmProviders || s.llmProviders[p] == map[])
    ensures ContentResult(st, content, contentType, Some(p), hash, groups, s, rt)
         == (Err("Unsupported LLM provider: " + p), st)
  {
    ContentProviderConfigShape(p, s);
  }

  /** A successful switch leaves the service on the requested provider,
      with its configuration merged in, and every record is stamped with
      that provider. */
  lemma SwitchedProviderStamps(st: ServiceState, content: string, contentType: string, p: string,
                               hash: string -> string, gs: seq<Group>, s: AppSettings, rt: Runtime)
    requires p != ""
    requires ContentResult(st, content, contentType, Some(p), hash, Ok(gs), s, rt).0.Ok?
    ensures var (r, st') := ContentResult(st, content, contentType, Some(p), hash, Ok(gs), s, rt);
      && st'.providerName == p
      && st'.config == st.config + ContentProviderConfig(p, s).value
      && |r.value| == |gs|
      && forall i :: 0 <= i < |gs| ==> r.value[i].llmProvider == p && r.value[i].contentHash == hash(content)
  {
    var (r, st') := ContentResult(st, content, contentType, Some(p), hash, Ok(gs), s, rt);
    var entries := Classified(st', Ok(gs), content, contentType, s, rt);
    forall i | 0 <= i < |gs|
      ensures r.value[i].llmProvider == p && r.value[i].contentHash == hash(content)
    {
      ClassifiedOnePerGroup(st', gs, content, contentType, s, rt);
      RecordsMirrorEntries(entries, hash(content), contentType, i);
    }
  }

  // ---------------------------------------------------------------- stored objects

  /** The parts of the outside world an upload depends on: the MIME guess
      for a file name, the text extracted from the upload for a detected
      type (an error when the file's path cannot be found), and the
      SHA-256 digest of a text. */
  datatype FileEnv = FileEnv(
    guessType: string -> Option<string>,
    extract: string -> Result<string, string>,
    hash: string -> string
  )

  /** A `ProcessedFile` row. */
  class ProcessedFile {
    var fileName: string
    var fileType: string
    var extractedText: Option<string>
    var metadata: map<string, string>
    var classificationResult: Option<Record>
    var processed: bool

    constructor (fileName: string)
      ensures this.fileName == fileName && fileType == "" && extractedText.None?
      ensures metadata == map[] && classificationResult.None? && !processed
    {
      this.fileName := fileName;
      fileType := "";
      extractedText := None;
      metadata := map[];
      classificationResult := None;
      processed := false;
    }
  }

  /** A `TextInput` row. */
  class TextInput {
    var content: string
    var processed: bool
    var llmProvider: string
    var llmModel: string
    var classificationResults: seq<Record>

    constructor (content: string)
      ensures this.content == content && !processed
      ensures llmProvider == "unknown" && llmModel == "unknown" && classificationResults == []
    {
      this.content := content;
      processed := false;
      llmProvider := "unknown";
      llmModel := "unknown";
      classificationResults := [];
    }
  }

  // ---------------------------------------------------------------- the service

  class FileProcessingService {
    const service: ClassificationService

    constructor (service: ClassificationService)
      ensures this.service == service
    {
      this.service := service;
    }

    /** `_detect_file_type`, with the guess `mimetypes` makes for the name. */
    method DetectFileType(fileName: string, guess: Option<string>) returns (fileType: string)
      ensures fileType == FileTypeOf(fileName, guess)
      ensures fileType in FileTypeChoices
    {
      DetectedTypeIsChoice(fileName, guess);
      if !Guessed(guess) {
        var ext := Lower(Extension(fileName));
        return if ext in ExtensionTypes then ExtensionTypes[ext] else "other";
      }
      var table := MimeTable();
      var i := 0;
      while i < |table|
        invariant 0 <= i <= |table|
        invariant MimeScan(table[i..]) == MimeScan(table)
      {
        var (prefix, value) := table[i];
        if StartsWith(value, prefix) {
          return value;
        }
        assert table[i..][1..] == table[i + 1..];
        i := i + 1;
      }
      return "other";
    }

    /** `_classify_content`: classify, then create one record per result. */
    method ClassifyRecords(contentHash: string, content: string, contentType: string,
                           groups: Result<seq<Group>, string>, s: AppSettings, rt: Runtime)
      returns (records: seq<Record>)
      ensures records == Records(Classified(service.State(), groups, content, contentType, s, rt), contentHash, contentType)
    {
      var results := service.ClassifyContent(content, contentType, groups, s, rt);
      records := [];
      var i := 0;
      while i < |results|
        invariant 0 <= i <= |results|
        invariant |records| == i
        invariant forall j :: 0 <= j < i ==> records[j] == RecordOf(results[j], contentHash, contentType)
      {
        records := records + [RecordOf(results[i], contentHash, contentType)];
        i := i + 1;
      }
    }

    /** `process_text`: classify the text as `text`, copy the LLM information
        of the first record's metadata to the text (default `unknown`),
        delete it from every record, mark the text processed and attach the
        records. */
    method ProcessText(text: TextInput, hash: string -> string, groups: Result<seq<Group>, string>,
                       s: AppSettings, rt: Runtime)
      modifies text
      ensures var rs := Records(Classified(service.State(), groups, old(text.content), "text", s, rt),
                                hash(old(text.content)), "text");
        && text.classificationResults == WithoutLlmInfo(rs)
        && text.llmProvider == (if rs != [] then MetaGet(rs[0].metadata, "llm_provider", "unknown") else old(text.llmProvider))
        && text.llmModel == (if rs != [] then MetaGet(rs[0].metadata, "llm_model", "unknown") else old(text.llmModel))
      ensures text.processed && text.content == old(text.content)
    {
      var records := ClassifyRecords(hash(text.content), text.content, "text", groups, s, rt);
      var results := records;
      if |results| > 0 {
        text.llmProvider := MetaGet(results[0].metadata, "llm_provider", "unknown");
        text.llmModel := MetaGet(results[0].metadata, "llm_model", "unknown");
        var i := 0;
        while i < |results|
          invariant 0 <= i <= |results| == |records|
          invariant forall j :: 0 <= j < i ==> results[j] == WithoutLlmInfo(records)[j]
          invariant forall j :: i <= j < |results| ==> results[j] == records[j]
        {
          var r := results[i];
          results := results[i := r.(metadata := r.metadata - {"llm_provider", "llm_model"})];
          i := i + 1;
        }
      }
      text.processed := true;
      text.classificationResults := results;
    }

    /** `process_content`: switch the service to a requested provider, then
        classify the content and create its records. */
    method ProcessContent(content: string, contentType: string, llmProvider: Option<string>,
                          hash: string -> string, groups: Result<seq<Group>, string>, s: AppSettings, rt: Runtime)
      returns (r: Result<seq<Record>, string>)
      modifies service
      ensures (r, service.State()) == ContentResult(old(service.State()), content, contentType, llmProvider, hash, groups, s, rt)
    {
      if llmProvider.Some? && llmProvider.value != "" {
        var p := llmProvider.value;
        if p !in s.llmProviders || s.llmProviders[p] == map[] {
          return Err("Unsupported LLM provider: " + p);
        }
        var entry := s.llmProviders[p];
        var prefix := EntryGet(entry, "config_prefix", Upper(p));
        if "default_model" !in entry {
          return Err("'default_model'");
        }
        if "temperature" !in s.defaultLlmConfig {
          return Err("'temperature'");
        }
        if "max_tokens" !in s.defaultLlmConfig {
          return Err("'max_tokens'");
        }
        var config := map["api_key" := StrValue(EntryGet(s.named, prefix + "_API_KEY", "")),
                          "base_url" := StrValue(EntryGet(s.named, prefix + "_API_URL", "")),
                          "model_name" := StrValue(entry["default_model"]),
                          "temperature" := s.defaultLlmConfig["temperature"],
                          "max_tokens" := s.defaultLlmConfig["max_tokens"]];
        assert ContentProviderConfig(p, s) == Ok(config);
        var err := service.UpdateProvider(p, config, s, rt);
        if err.Some? {
          return Err(err.value.Message());
        }
      }
      var records := ClassifyRecords(hash(content), content, contentType, groups, s, rt);
      r := Ok(records);
    }

    /** `process_file`: the file's fields are set as `FileOutcomeOf` says;
        on failure the message is recorded under `processing_error` and
        returned in place of the re-raised exception. */
    method ProcessFile(file: ProcessedFile, env: FileEnv, groups: Result<seq<Group>, string>,
                       s: AppSettings, rt: Runtime) returns (err: Option<string>)
      modifies file
      ensures file.fileName == old(file.fileName)
      ensures file.fileType == FileTypeOf(old(file.fileName), env.guessType(old(file.fileName)))
      ensures var o := FileOutcomeOf(service.State(), file.fileType, env, groups, s, rt);
        && file.extractedText == (if o.text.Some? then o.text else old(file.extractedText))
        && (o.result.Err? ==>
              && err == Some(o.result.error)
              && file.metadata == old(file.metadata)["processing_error" := o.result.error]
              && file.classificationResult == old(file.classificationResult)
              && file.processed == old(file.processed))
        && (o.result.Ok? ==>
              && err.None? && file.metadata == old(file.metadata)
              && file.classificationResult == Some(o.result.value) && file.processed)
    {
      var fileType := DetectFileType(file.fileName, env.guessType(file.fileName));
      file.fileType := fileType;
      err := ProcessTyped(file, env, groups, s, rt);
    }

    /** The part of `process_file` after the file is typed. */
    method ProcessTyped(file: ProcessedFile, env: FileEnv, groups: Result<seq<Group>, string>,
                        s: AppSettings, rt: Runtime) returns (err: Option<string>)
      modifies file
      ensures file.fileName == old(file.fileName) && file.fileType == old(file.fileType)
      ensures var o := FileOutcomeOf(service.State(), file.fileType, env, groups, s, rt);
        && file.extractedText == (if o.text.Some? then o.text else old(file.extractedText))
        && (o.result.Err? ==>
              && err == Some(o.result.error)
              && file.metadata == old(file.metadata)["processing_error" := o.result.error]
              && file.classificationResult == old(file.classificationResult)
              && file.processed == old(file.processed))
        && (o.result.Ok? ==>
              && err.None? && file.metadata == old(file.metadata)
              && file.classificationResult == Some(o.result.value) && file.processed)
    {
      var fileType := file.fileType;
      ghost var o := FileOutcomeOf(service.State(), fileType, env, groups, s, rt);
      var extracted := env.extract(fileType);
      if extracted.Err? {
        assert o.result == Err(extracted.error) && o.text.None?;
        file.metadata := file.metadata["processing_error" := extracted.error];
        return Some(extracted.error);
      }
      var text := extracted.value;
      file.extractedText := Some(text);
      var records := ClassifyRecords(env.hash(text), text, fileType, groups, s, rt);
      if records == [] {
        assert o.result == Err("list index out of range");
        file.metadata := file.metadata["processing_error" := "list index out of range"];
        return Some("list index out of range");
      }
      assert o.result == Ok(records[0]);
      file.classificationResult := Some(records[0]);
      file.processed := true;
      err := None;
    }
  }

  /** What `process_file` makes of a file of a detected type: the text
      extracted from it, and the record kept or the error message. */
  datatype FileOutcome = FileOutcome(text: Option<string>, result: Result<Record, string>)

  function FileOutcomeOf(st: ServiceState, fileType: string, env: FileEnv, groups: Result<seq<Group>, string>,
                         s: AppSettings, rt: Runtime): FileOutcome
  {
    match env.extract(fileType)
    case Err(message) => FileOutcome(None, Err(message))
    case Ok(text) =>
      var rs := Records(Classified(st, groups, text, fileType, s, rt), env.hash(text), fileType);
      FileOutcome(Some(text), if rs == [] then Err("list index out of range") else Ok(rs[0]))
  }

  /** A file is processed exactly when its text is extracted and the
      groups either fail to load or include at least one active group; the
      record kept is then that of the first group (or the load failure),
      stamped with the text's hash and the file's type. With no active
      group, the empty result list fails the processing. */
  lemma ProcessedIffSomeGroup(st: ServiceState, fileType: string, env: FileEnv, groups: Result<seq<Group>, string>,
                              s: AppSettings, rt: Runtime)
    ensures var o := FileOutcomeOf(st, fileType, env, groups, s, rt);
      && (o.result.Ok? <==> env.extract(fileType).Ok? && (groups.Err? || groups.value != []))
      && (env.extract(fileType).Err? ==> o.text.None? && o.result == Err(env.extract(fileType).error))
      && (env.extract(fileType).Ok? && groups == Ok([]) ==> o.result == Err("list index out of range"))
      && (o.result.Ok? ==>
            var text := env.extract(fileType).value;
            && o.text == Some(text)
            && o.result.value == RecordOf(Classified(st, groups, text, fileType, s, rt)[0], env.hash(text), fileType))
  {
    if env.extract(fileType).Ok? {
      var text := env.extract(fileType).value;
      if groups.Ok? {
        ClassifiedOnePerGroup(st, groups.value, text, fileType, s, rt);
      } else {
        LoadFailureSingleEntry(st, groups.error, text, fileType, s, rt);
      }
    }
  }
}
