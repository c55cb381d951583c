# Content classifier: a Dafny model of the email cascade and the classification service

This project models the back end of a content classifier written in Django. Its parts are:

- **Classification service.** `ContentClassificationService` holds one LLM provider at a time: a provider name, a configuration dictionary and the provider object. For every active category group it builds a prompt, asks the provider for a completion and parses the reply into a classification, a confidence and an explanation. A failure in one group becomes an `error` entry for that group.
- **Provider factory.** `LLMProviderFactory.create` maps a case-insensitive provider name to a provider class: OpenAI, Qwen, Doubao, DeepSeek, or the local BERT and FastText models. The local models write their prediction in the same textual shape an LLM reply has.
- **Email cascade.** Emails go through `EmailProcessingService._classify_email`:
  - first a rule engine over the stored classification rules, which ORs independent conditions;
  - then FastText and BERT, each accepted only when its confidence reaches its threshold;
  - otherwise the DeepSeek LLM.

  Each model stage temporarily switches the shared classification service to its own provider and switches it back.
- **Email endpoints.** An admin endpoint tests one rule against one sample email with AND semantics. The content endpoints validate and format posted subject/body pairs. Uploads are typed by their extension.
- **File service.** It types uploaded files by MIME guess or extension, classifies extracted text, typed-in text and raw content, and stores one classification record per group.

The Dafny modules follow the source files:

| module (file) | source |
|---|---|
| `Settings` (settings.dfy) | the Django settings read, as an explicit value |
| `Text` (text.dfy) | the Python `str` operations used, on `seq<char>` |
| `Providers` (providers.dfy) | `backend/classifier/llm_providers.py` |
| `Classification` (classification.dfy) | `backend/classifier/services.py` |
| `EmailRules` (email_rules.dfy) | `_apply_rules` in `backend/emailapp/services.py` |
| `EmailPipeline` (email_pipeline.dfy) | the rest of `EmailProcessingService` |
| `EmailViews` (email_views.dfy) | `backend/emailapp/views.py` |
| `FileProcessing` (file_processing.dfy) | `backend/fileapp/services.py` |

Objects whose fields the source updates in place are classes: `ClassificationService`, `EmailProcessingService`, `EmailFile`, `FileProcessingService`, `ProcessedFile` and `TextInput`. Each method is proved against a specification function of the old state: `UpdateSpec`, `Classified`, `Stage`, `Cascade`, `ContentResult` or `FileOutcomeOf`. The lemmas state what the source promises about those functions.

The pure decision logic is written as functions: the factory, the two rule matchers, the prompt wording, file typing and label lookup.

Some things are outside the model and become parameters:

- the model calls, the output parser and the model-file loading (a `Runtime` value of functions);
- the settings;
- the stored rules and active category groups (a group load that raises is an `Err`);
- text extraction and hashing (a `FileEnv`).

## Model

| member | source | states |
|---|---|---|
| Text.Extension | backend/fileapp/services.py:140-141 | `os.path.splitext(p)[1]` on a POSIX path: a non-empty extension starts with its dot and holds no slash |
| Text.ExtensionAtLastDot | backend/fileapp/services.py:140-141 | The extension is the end of the path from the last dot of the last path component, with no dot or slash after its first character; it is empty exactly when that component has no dot or only dots before its last dot |
| Text.ReprRoundTrip | backend/emailapp/services.py:414-417 | The matched keywords are written as Python's `repr` writes each string, and reading that literal back gives the keyword: nothing is lost |
| Text.EscapedQuotesFollowBackslash | backend/emailapp/services.py:414-417 | Inside the written literal every occurrence of the chosen quote follows a backslash |
| Text.ReprPlain | backend/emailapp/services.py:414-417 | A keyword without quotes, backslashes or unprintable characters is written between single quotes as it is |
| Text.ReprSwitchesQuote | backend/emailapp/services.py:414-417 | A keyword holding a single quote and no double quote is written between double quotes, its single quote bare |
| Text.ReprApostrophe | backend/emailapp/services.py:414-417 | The keyword `don't` is written `"don't"` |
| Text.ListReprSingle | backend/emailapp/services.py:414-417 | A list of one matched keyword is written as that keyword's `repr` between brackets |
| Providers.Construct | backend/classifier/llm_providers.py:20-204 | A hosted kind builds a hosted provider of that kind unless its client construction raises; BERT and FastText build local models unless loading the model file raises; a raised exception is re-raised with its message and its class (ValueError or not) |
| Providers.Create | backend/classifier/llm_providers.py:259-273 | Success only for a lower-cased name in the registry, and then the provider is exactly what that class builds from the caller's configuration |
| Providers.CreateIgnoresCase | backend/classifier/llm_providers.py:260-265 | Two names equal up to ASCII case create the same provider or both fail |
| Providers.UnsupportedBeforeSettings | backend/classifier/llm_providers.py:260-262 | An unregistered name fails with "Unsupported provider" whatever the settings and runtime are |
| Providers.MissingSettingsEntry | backend/classifier/llm_providers.py:265-267 | A registered name without a non-empty settings entry fails with the ValueError "No configuration found for provider" |
| Providers.SettingsEntryOnlyChecked | backend/classifier/llm_providers.py:265-273 | The contents of a non-empty settings entry do not affect the provider built |
| Providers.ClaudeNotRegistered | backend/classifier/llm_providers.py:248-256 | `claude` is commented out of the registry, so creating it always fails as unsupported |
| Providers.HostedProviderDefaults | backend/classifier/llm_providers.py:21-115 | A hosted provider builds exactly when its client construction raises nothing, and otherwise re-raises the client's exception; when built it takes `model_name`, `temperature` (default 0.7) and `max_tokens` (default 1000) from the configuration or the class default |
| Providers.FastTextCategory | backend/classifier/llm_providers.py:206-210 | The FastText category is a value of the label map or "none" |
| Providers.FastTextLabelStripped | backend/classifier/llm_providers.py:206-210 | `__label__k` is looked up as `k` (default "none") once every `__label__` is removed |
| Providers.BertCategory | backend/classifier/llm_providers.py:144-146 | The BERT category is the label map's entry for the id, or "none" when the id is not mapped |
| Providers.FastTextInputIsOneLine | backend/classifier/llm_providers.py:215 | After strip, newline and carriage-return replacement and `[:100]`, the FastText input holds no line break and has at most 100 characters |
| Providers.ReplyNamesClassification | backend/classifier/llm_providers.py:176-182 | Every synthesised reply contains the `"classification": "<category>"` field |
| Providers.ReplyBracketed | backend/classifier/llm_providers.py:176-182 | A reply begins with its opening brace text and a line break and ends with its closing text |
| Providers.FallbackRepliesKeepDoubledBraces | backend/classifier/llm_providers.py:184-192 | The BERT and FastText error replies are plain literals, so they begin with `{{` and end with `}}` |
| Providers.RepliesUseSingleBraces | backend/classifier/llm_providers.py:228-234 | The formatted replies of both local models begin with `{` and a line break and end with `}` |
| Providers.GenerateCompletion | backend/classifier/llm_providers.py:148-244 | Hosted providers answer with their chat service's result; local models never fail a completion, and a BERT or FastText inference error (FastText on the cleaned-up input) gives that model's fallback reply |
| Providers.FallbackRepliesAreUnknown | backend/classifier/llm_providers.py:184-192 | Both fallback replies hold `"classification": "unknown"` and `"confidence": 0.0` |
| Providers.ReplyHasConfidence | backend/classifier/llm_providers.py:176-182 | Every synthesised reply holds its `"confidence": <text>` field |
| Providers.BertCompletionNamesCategory | backend/classifier/llm_providers.py:166-182 | A BERT prediction gives a reply naming the label map's category for the predicted id |
| Providers.FastTextCompletionNamesCategory | backend/classifier/llm_providers.py:212-234 | A FastText prediction on the cleaned-up input gives a reply naming the label map's category for the predicted label |
| Classification.InitState | backend/classifier/services.py:11-37 | The constructed provider name is the requested one or `deepseek`, and the configuration is the defaults overridden by the caller's. A successful first creation keeps the requested name with that provider. After a ValueError (reported by the factory, the model loader or the client) the state is `deepseek` with the provider `create('deepseek', config)` builds, or that retry's error. Any other first error is raised as it is. Any name other than the requested one follows a ValueError |
| Classification.InitConfigDefaults | backend/classifier/services.py:19-29 | `temperature` 0.7 and `max_tokens` 1000 unless overridden, `deepseek-chat` without a settings entry, and every caller key wins |
| Classification.InitFallsBackToDeepseek | backend/classifier/services.py:32-37 | A ValueError from the factory, followed by a buildable `deepseek`, gives exactly the state named `deepseek` with the provider `create('deepseek', config)` builds, on the same configuration |
| Classification.FastTextLoadFailureFallsBack | backend/classifier/services.py:30-37 | A FastText model file the loader cannot open raises a ValueError, so the constructor falls back to a hosted `deepseek` provider instead of failing |
| Classification.ClassificationService.New | backend/classifier/services.py:11-37 | The constructor builds exactly `InitState`, including its deepseek fallback after any ValueError, or raises its error |
| Classification.UpdateMergesConfig | backend/classifier/services.py:69-74 | The name is always taken, overrides win, untouched keys persist, and a factory error leaves the old provider object in place |
| Classification.ClassificationService.UpdateProvider | backend/classifier/services.py:61-74 | The new state and the raised error are exactly `UpdateSpec` of the old state |
| Classification.UserMessageHoldsContent | backend/classifier/services.py:121-127 | The LLM user message contains the first 1000 characters of the content |
| Classification.SystemListsCategory | backend/classifier/services.py:111-117 | The LLM system message lists every category of the group as `- <category>` |
| Classification.PlainPromptShape | backend/classifier/services.py:128-131 | For a non-LLM model type the system message is empty and the user message is `content[:1000]`, at most 1000 characters |
| Classification.LlmPromptShape | backend/classifier/services.py:109-127 | For the LLM model type the system message lists every category and the user message holds the truncated content |
| Classification.GroupSuccessCarriesParse | backend/classifier/services.py:133-149 | A group whose completion succeeds and parses carries the parsed classification, confidence and explanation, and the configured model name, else the settings' default model, else `unknown` |
| Classification.ClassifiedOnePerGroup | backend/classifier/services.py:93-149 | One entry per active group in load order, stamped with the group's id and name, the provider name and the configured model; no groups give no entries |
| Classification.GroupFailureIsolated | backend/classifier/services.py:151-161 | A failed completion or parse gives that group an `error` entry with confidence 0.0, and the other groups' entries do not depend on that group |
| Classification.LoadFailureSingleEntry | backend/classifier/services.py:165-171 | A failure to load the groups gives one `unclassified` entry named `Error` with confidence 0.0 and no group id |
| Classification.ClassificationService.ClassifyContent | backend/classifier/services.py:81-172 | The loop returns exactly `Classified` of the service's state |
| EmailRules.TotalSizeBounds | backend/emailapp/services.py:436 | Non-negative sizes sum to a non-negative total; missing or zero sizes sum to 0 |
| EmailRules.SubjectEndsAtFirstNewline | backend/emailapp/services.py:469 | In `Subject: {s}\n\nBody: {b}` the first line break follows a one-line subject |
| EmailRules.FormatContentInjective | backend/emailapp/services.py:469 | The formatted text determines a one-line subject and the body |
| EmailRules.MatchedKeywordsExact | backend/emailapp/services.py:412-425 | The matched list holds exactly the keywords that occur in the text, ignoring case |
| EmailRules.ReasonsIffAnyCondition | backend/emailapp/services.py:403-443 | A rule records a reason exactly when one of its OR'd conditions holds (domain after the first '@', keywords, positive min bounds, truthy max bounds) |
| EmailRules.DefaultRuleNeverMatches | backend/emailapp/services.py:403-440 | A rule that keeps every default records no reason for any email |
| EmailRules.ExplanationListsSubjectKeywords | backend/emailapp/services.py:412-450 | When a subject keyword hits, the explanation contains the subject reason listing exactly the hitting keywords, written as Python writes a list of strings |
| EmailRules.ExplanationHasReason | backend/emailapp/services.py:450 | The `', '.join` explanation contains the text of every reason |
| EmailRules.Insert | backend/emailapp/services.py:392 | Insertion keeps the rule list sorted by descending priority and adds exactly the new rule |
| EmailRules.Query | backend/emailapp/services.py:392 | The query result is sorted by descending priority and holds exactly the active rules |
| EmailRules.QueryPermutes | backend/emailapp/services.py:392 | The query only reorders the active rules: same multiset |
| EmailRules.FirstNonEmpty | backend/emailapp/services.py:399-451 | The index found has a non-empty reason list and every earlier one is empty; none is found only when all are empty |
| EmailRules.FirstMatchAt | backend/emailapp/services.py:399-451 | The first rule with a reason decides the match, with that rule's reasons |
| EmailRules.FirstMatchNone | backend/emailapp/services.py:455-456 | Without a rule with a reason there is no match |
| EmailRules.FirstMatchIgnoresLaterRules | backend/emailapp/services.py:443-451 | Rules after the first matching one are never examined: appending rules does not change the winner |
| EmailRules.WinnerFires | backend/emailapp/services.py:392-451 | The winner is an active stored rule with a reason, and the match carries its classification, confidence 1.0, `Decision Tree` and its name |
| EmailRules.WinnerHasTopPriority | backend/emailapp/services.py:392-451 | No active rule of strictly higher priority than the winner has a reason |
| EmailRules.NoWinnerNoReasons | backend/emailapp/services.py:443-456 | Without a winner no active rule has a reason and the engine returns None |
| EmailRules.CollectReasons | backend/emailapp/services.py:400-440 | The appending loop body collects exactly `Reasons`, in check order |
| EmailRules.ApplyRules | backend/emailapp/services.py:389-460 | `_apply_rules` returns exactly `MatchRules`: None when the stored content is missing, else the first match in query order |
| EmailRules.FindFirstMatch | backend/emailapp/services.py:399-456 | The loop over the queried rules returns exactly `FirstMatch` |
| EmailViews.AnyKeywordInIff | backend/emailapp/views.py:126-139 | `any(kw.lower() in text.lower())` holds exactly when some keyword occurs in the text, ignoring case |
| EmailViews.TestMatchesIffAllConditions | backend/emailapp/views.py:115-161 | `matches` is true exactly when every AND'd condition holds; then the reasons are `All conditions met` with the rule's classification, else the failures with no classification |
| EmailViews.MissingDataRefused | backend/emailapp/views.py:92-96 | A missing rule or email gives the 400 `Both rule and email data are required` |
| EmailViews.DefaultRuleAlwaysMatches | backend/emailapp/views.py:115-161 | A default rule matches every email with non-negative attachment sizes in the test endpoint, while the pipeline records no reason for it |
| EmailViews.SingleAtDomainsAgree | backend/emailapp/views.py:119-123 | With exactly one '@', `split('@')[-1]` and the pipeline's `split('@')[1]` read the same domain |
| EmailViews.DomainReadingsDiffer | backend/emailapp/views.py:120 | For `a@b@c` and domain list `[c]` the test endpoint matches and the pipeline records no reason |
| EmailViews.TwoAtsDomains | backend/emailapp/views.py:120 | The pipeline reads `b` and the test endpoint `c` from `a@b@c` |
| EmailViews.SenderOnlyRuleAgrees | backend/emailapp/views.py:119-123 | For a domain-only rule and one '@', the test endpoint matches exactly when the pipeline records a reason |
| EmailViews.TestRule | backend/emailapp/views.py:87-161 | The flag-and-append implementation returns exactly `TestRuleResponse` |
| EmailViews.CheckText | backend/emailapp/views.py:118-139 | The sender, subject and body checks append exactly their failures, in order |
| EmailViews.CheckAttachments | backend/emailapp/views.py:141-155 | The count and size checks append exactly their failures: the minimums are always compared, the maximums only when truthy |
| EmailViews.ContentRequest | backend/emailapp/views.py:167-192 | A payload is refused with `Email content cannot be empty` exactly when subject and body are both empty |
| EmailViews.RawTextIsBody | backend/emailapp/views.py:172-177 | A bare string is the body under an empty subject |
| EmailViews.ContentRequestInjective | backend/emailapp/views.py:192 | Accepted payloads with one-line subjects that format the same have the same subject and body |
| EmailViews.UploadFileType | backend/emailapp/views.py:60-62 | The upload type is always one of the file type choices |
| EmailViews.UploadFileTypeIsExtension | backend/emailapp/views.py:60-62 | The type is `t` exactly when the lower-cased extension is `.t`, or `t` is `other` and the extension is not a choice |
| EmailPipeline.StageOutcome | backend/emailapp/services.py:507-522 | The stage result names the stage; no entries give `Uncategorized`/0.0, else the first entry's classification, confidence and explanation |
| EmailPipeline.StageRestoresProvider | backend/emailapp/services.py:496-531 | Every stage result names its stage; a stage keeps the configuration and, once the switch to the stage's provider succeeds, the original provider name is back afterwards |
| EmailPipeline.FailedSwitchIsNotRestored | backend/emailapp/services.py:498-499 | When the stage's provider cannot be built the result is `Error`/0.0 and the service is left named after the stage |
| EmailPipeline.StageUsesFirstGroup | backend/emailapp/services.py:502-514 | On the normal path the result is the first group's entry, read under the stage's provider |
| EmailPipeline.RunStages | backend/emailapp/services.py:369-387 | The recorded confidence is the verdict's and the level is one of the stages' levels |
| EmailPipeline.CascadeRecordsVerdict | backend/emailapp/services.py:360-387 | The recorded confidence is always the verdict's and the level is never `unknown` |
| EmailPipeline.RuleHitShortCircuits | backend/emailapp/services.py:363-367 | A rule hit gives level `rule`, confidence 1.0, and no model stage touches the service |
| EmailPipeline.FastTextGate | backend/emailapp/services.py:370-374 | Without a rule hit, FastText is accepted exactly when its confidence is at least FASTTEXT_THRESHOLD |
| EmailPipeline.BertGate | backend/emailapp/services.py:377-381 | Past FastText, BERT is accepted exactly when its confidence is at least BERT_THRESHOLD |
| EmailPipeline.LlmTakesTheRest | backend/emailapp/services.py:384-387 | Past both thresholds the DeepSeek result is taken unconditionally at level `llm` with its confidence |
| EmailPipeline.RunStagesKeepsService | backend/emailapp/services.py:497-505 | Stages that each restore the service leave it with its name and configuration |
| EmailPipeline.StageOfRestores | backend/emailapp/services.py:497-505 | A stage whose provider can be built restores the service's name and configuration |
| EmailPipeline.CascadeKeepsService | backend/emailapp/services.py:360-387 | The cascade leaves the shared service's name and configuration as it found them whenever every stage's provider can be built |
| EmailPipeline.StrictTotal | backend/emailapp/services.py:352 | `sum(a['size'] ...)` succeeds exactly when every attachment has a size |
| EmailPipeline.StrictTotalIsTotal | backend/emailapp/services.py:352 | Where every size is present the strict sum equals the lenient one |
| EmailPipeline.EmailProcessingService.ClassifyWithProvider | backend/emailapp/services.py:485-531 | The result and the service's new state are exactly `Stage` of the old state |
| EmailPipeline.EmailProcessingService.ClassifyEmail | backend/emailapp/services.py:360-387 | The verdict, the recorded level and confidence and the service's new state are exactly `Cascade`; the stored content, result, flag, headers, body, count and total size stay as they were |
| EmailPipeline.EmailProcessingService.ClassifyPastFastText | backend/emailapp/services.py:376-387 | The BERT and LLM stages give exactly what `RunStages` gives from BERT on |
| EmailPipeline.EmailProcessingService.ApplyFastText | backend/emailapp/services.py:462-483 | The FastText result is returned exactly when it reaches the threshold |
| EmailPipeline.EmailProcessingService.ProcessEmailFile | backend/emailapp/services.py:191-222 | The file stores the content and the cascade's verdict, level and confidence, and is marked processed; an exception before extraction's own `try` gives the error shape and leaves the file and the service as they were |
| EmailPipeline.EmailProcessingService.UpdateEmailMetadata | backend/emailapp/services.py:343-358 | Headers and count are assigned; the total is the sum of sizes, or a missing size raises `KeyError('size')` and leaves the old total |
| EmailPipeline.SumSizes | backend/emailapp/services.py:352 | The summing loop gives exactly `StrictTotal` |
| EmailPipeline.ContentOutcomeShape | backend/emailapp/services.py:167-189 | Posted content gets one entry per group from a default service, or the `Error`/0.0/`error` shape exactly when the service cannot be built |
| EmailPipeline.ProcessEmailContent | backend/emailapp/services.py:167-189 | The method returns exactly `ContentOutcome` |
| FileProcessing.MimeScanFindsNothing | backend/fileapp/services.py:173-177 | No table value starts with its own key, so the MIME loop always falls through to `other` |
| FileProcessing.GuessedFilesAreOther | backend/fileapp/services.py:137-177 | Any MIME guess gives `other`; without a guess the extension table decides |
| FileProcessing.DetectedTypeIsChoice | backend/fileapp/services.py:135-177 | The detected type is always one of `ProcessedFile`'s choices |
| FileProcessing.FileProcessingService.DetectFileType | backend/fileapp/services.py:135-177 | The method returns exactly `FileTypeOf`, always a choice |
| FileProcessing.Records | backend/fileapp/services.py:241-259 | One record per service entry |
| FileProcessing.RecordsMirrorEntries | backend/fileapp/services.py:241-259 | Each record has the entry's classification, confidence and group, the shared hash and type, metadata of exactly explanation and group name, and `unknown` for a missing provider or model |
| FileProcessing.FileProcessingService.ClassifyRecords | backend/fileapp/services.py:235-259 | The loop creates exactly `Records` of the service's entries |
| FileProcessing.WithoutLlmInfo | backend/fileapp/services.py:114-120 | The deletion keeps one record per record |
| FileProcessing.WithoutLlmInfoClears | backend/fileapp/services.py:114-120 | No metadata keeps `llm_provider` or `llm_model`; every other key and field is unchanged |
| FileProcessing.TextInfoAlwaysUnknown | backend/fileapp/services.py:109-120 | Records never carry LLM information in their metadata, so the text is stamped `unknown` and the deletion removes nothing |
| FileProcessing.FileProcessingService.ProcessText | backend/fileapp/services.py:95-133 | The text gets the stripped records, the first record's metadata values (default `unknown`) when there is one, and is marked processed |
| FileProcessing.ContentProviderConfigShape | backend/fileapp/services.py:273-286 | An unknown provider fails with `Unsupported LLM provider`; a known one gets exactly five keys, with the default model, temperature, token limit and the key under a prefix defaulting to the upper-cased name |
| FileProcessing.UnsupportedProviderLeavesService | backend/fileapp/services.py:273-276 | An unsupported provider is refused before the service changes or anything is classified |
| FileProcessing.SwitchedProviderStamps | backend/fileapp/services.py:288-312 | After a successful switch the service keeps the new provider and merged configuration, and every record is stamped with it and the content's hash |
| FileProcessing.FileProcessingService.ProcessContent | backend/fileapp/services.py:261-315 | The result and the service's new state are exactly `ContentResult` |
| FileProcessing.ProcessedIffSomeGroup | backend/fileapp/services.py:69-93 | A file is processed exactly when its text is extracted and the groups fail to load or are non-empty; the record kept is the first entry's; no group gives `list index out of range` |
| FileProcessing.FileProcessingService.ProcessFile | backend/fileapp/services.py:61-93 | The type is `FileTypeOf`; the rest of the file follows `FileOutcomeOf` |
| FileProcessing.FileProcessingService.ProcessTyped | backend/fileapp/services.py:68-93 | A failure records `processing_error` and returns the message, keeping the old result; success keeps the first record and marks the file processed |

## Left out

- IMAP fetching, MIME parsing, header decoding and the extraction of an email file's content (`EmailFetchService`, `_extract_email_content`, `_get_email_body`, `_get_attachments_info`) are network and file I/O. What extraction gives, the content or the message of an exception raised before its own `try`, is a parameter of `ProcessEmailFile`.
- Document text extraction (`_extract_text`) is done by foreign libraries. It is `FileEnv.extract`, keyed by the detected type of the file at hand.
- SHA-256 hashing is `FileEnv.hash` or a `hash` parameter.
- Model calls are the `Runtime` value's functions:
  - the hosted chat clients;
  - BERT and FastText inference;
  - model-file loading, and what it raises;
  - hosted client construction, and what it raises (an undefined settings default read eagerly, or a client library refusing a missing API key);
  - the langchain output parser and its format instructions.
- BERT tokenisation, softmax and argmax are not modelled. The predicted label id and the already-formatted confidence texts (`:.4f`, `:.2%`) are inputs; float formatting is not modelled.
- The hosted providers' API keys, base URLs and client objects are passed straight to foreign clients and are not kept in `Provider`.
- Django settings are the `AppSettings` value:
  - `LLM_PROVIDERS` is assumed to be defined;
  - any setting read by name is looked up in `named`.
- Loading the active rules and category groups from the database is left out. They are parameters, and a group load that raises is an `Err`.
- Database ordering ties are resolved in stored order. The priority properties do not depend on ties.
- ORM saves, `user` fields, `processing_time` (`time.time()`) and logging are left out.
- Fields never read by the modelled code are left out: `TextInput.title` and `metadata`, and `ProcessedFile.content_type` and `size`.
- The static `process_file` and `delete_file` of the file service are left out. The first is redefined by the method of the same name, and the second is storage I/O.
- Django views other than the email endpoints named above, serializers, URLs, admin and the whole frontend are left out.
- Exceptions raised by the ORM while records are created are not modelled.
- Text.Lower: case mapping is ASCII only (`str.lower`/`str.upper` on other scripts is not modelled). So is `Text.Upper`, which `process_content` uses for the configuration prefix.
- In `process_email_file`, exceptions from the ORM saves are not modelled. The other exception that reaches its `except` branch, `file.path` raising before extraction's own `try` (a record without a file), is modelled.
- Text.Repr: characters above U+00FF are written as they are. Python escapes the unprintable ones among them by the Unicode database, which is not modelled; below U+0100 the escaping is exact.
- EmailViews.TestRule and EmailViews.ContentRequest take their request payloads as typed records. So the HTTP 500 paths that only untyped JSON can reach are not modelled:
  - `EmailClassificationRule(**rule_data)` raising `TypeError` for an unknown field or a rule that is not an object; `test_rule` has no `try`, so Django answers 500;
  - the `except Exception` branch of `create` and `classify`, reached when the payload is neither a string nor an object and `data.get` raises; it answers 500 with `{'error': str(e)}`;
  - a non-string `subject` or `body`, such as JSON null, which the f-string writes as its `str()` (`None`).
- The LLM prompt's fixed wording (`SourceWording`) is kept as a `Wording` value in the service state. The prompt lemmas are stated for every wording, not only for the literal text.
