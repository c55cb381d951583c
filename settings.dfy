/** The Django settings the classifier reads, passed explicitly instead of
    being looked up globally. */
module Settings {
  import opened Wrappers

  /** A value of a provider configuration dictionary. */
  datatype ConfigValue = StrValue(s: string) | RealValue(r: real) | IntValue(i: int) | NullValue

  /** A provider configuration dictionary (`model_name`, `temperature`,
      `max_tokens`, `api_key`, `base_url`, `model_path`, ...). */
  type Config = map<string, ConfigValue>

  /** One entry of `LLM_PROVIDERS` (`default_model`, `model_type`,
      `config_prefix`, ...). An empty entry is falsy in the source. */
  type ProviderEntry = map<string, string>

  datatype AppSettings = AppSettings(
    llmProviders: map<string, ProviderEntry>,  // LLM_PROVIDERS
    defaultLlmProvider: Option<string>,         // DEFAULT_LLM_PROVIDER, when defined
    deepseekModelName: string,                  // DEEPSEEK_MODEL_NAME
    arkModelName: string,                       // ARK_MODEL_NAME
    bertModelPath: string,                      // BERT_MODEL_PATH
    fasttextModelPath: string,                  // FASTTEXT_MODEL_PATH
    bertLabelMap: map<int, string>,             // BERT_LABEL_MAP
    fasttextLabelMap: map<string, string>,      // FASTTEXT_LABEL_MAP
    fasttextThreshold: real,                    // FASTTEXT_THRESHOLD
    bertThreshold: real,                        // BERT_THRESHOLD
    defaultLlmConfig: Config,                   // DEFAULT_LLM_CONFIG
    named: map<string, string>                  // any other setting read by name, e.g. QWEN_API_KEY
  )

  /** `config.get(key, default)`. */
  function Get(config: Config, key: string, default: ConfigValue): ConfigValue {
    if key in config then config[key] else default
  }

  /** `entry.get(key, default)` on a settings entry. */
  function EntryGet(entry: ProviderEntry, key: string, default: string): string {
    if key in entry then entry[key] else default
  }
}
