/**
 * The YAML configuration of the AI analysis (pkg/config.go). Reading the file, the YAML
 * decoder and encoder and writing the file are not modelled: they are parameters, each a
 * function that returns either its result or the error text Go's `%w` would wrap.
 */
module Configuration {
  import opened Wrappers

  datatype OpenAIConfig = OpenAIConfig(apiKey: string, baseUrl: string, model: string)

  datatype Config = Config(openAI: OpenAIConfig)

  const DefaultConfigPath: string := "config.yaml"
  const DefaultModel: string := "gpt-4o"

  /** The path `LoadConfig` reads: the given one, or `config.yaml` when none is given. */
  function ResolveConfigPath(configPath: string): (path: string)
    ensures path != ""
    ensures configPath != "" ==> path == configPath
    ensures configPath == "" ==> path == DefaultConfigPath
  {
    if configPath == "" then DefaultConfigPath else configPath
  }

  /** The model defaulting applied after validation. */
  function WithDefaultModel(c: Config): (r: Config)
    ensures c.openAI.model == "" ==> r.openAI.model == DefaultModel
    ensures c.openAI.model != "" ==> r == c
    ensures r.openAI.apiKey == c.openAI.apiKey && r.openAI.baseUrl == c.openAI.baseUrl
  {
    if c.openAI.model == "" then c.(openAI := c.openAI.(model := DefaultModel)) else c
  }

  /** What a successful `LoadConfig` guarantees of its result. */
  predicate Loaded(c: Config) {
    c.openAI.apiKey != "" && c.openAI.model != ""
  }

  const ApiKeyRequired: string := "openai.api_key is required in config file"

  /**
   * Loads the configuration: read the file, decode it, reject a missing API key, default the
   * model. `read` stands for the file system and `parse` for the YAML decoder.
   */
  function LoadConfig(
    configPath: string,
    read: string -> Result<string, string>,
    parse: string -> Result<Config, string>
  ): (r: Result<Config, string>)
    ensures r.Success? ==> Loaded(r.value)
    ensures r.Success? ==>
      var file := read(ResolveConfigPath(configPath));
      && file.Success? && parse(file.value).Success?
      && r.value == WithDefaultModel(parse(file.value).value)
  {
    var path := ResolveConfigPath(configPath);
    match read(path)
    case Failure(err) => Failure("failed to read config file " + path + ": " + err)
    case Success(data) =>
      match parse(data)
      case Failure(err) => Failure("failed to parse config file " + path + ": " + err)
      case Success(config) =>
        if config.openAI.apiKey == "" then Failure(ApiKeyRequired)
        else Success(WithDefaultModel(config))
  }

  /** Loading succeeds exactly when the file is read, decodes, and names an API key. */
  lemma LoadConfigSucceeds(configPath: string, read: string -> Result<string, string>, parse: string -> Result<Config, string>)
    ensures var path := ResolveConfigPath(configPath);
            LoadConfig(configPath, read, parse).Success? <==>
              && read(path).Success?
              && parse(read(path).value).Success?
              && parse(read(path).value).value.openAI.apiKey != ""
  {
  }

  /** A loaded configuration is the decoded one with only the model defaulted. */
  lemma LoadConfigValue(configPath: string, read: string -> Result<string, string>, parse: string -> Result<Config, string>)
    requires LoadConfig(configPath, read, parse).Success?
    ensures var decoded := parse(read(ResolveConfigPath(configPath)).value).value;
            var loaded := LoadConfig(configPath, read, parse).value;
            && loaded.openAI.apiKey == decoded.openAI.apiKey
            && loaded.openAI.baseUrl == decoded.openAI.baseUrl
            && loaded.openAI.model == (if decoded.openAI.model == "" then DefaultModel else decoded.openAI.model)
  {
  }

  /** The error of each failing step, naming the path that was read. */
  lemma LoadConfigErrors(configPath: string, read: string -> Result<string, string>, parse: string -> Result<Config, string>)
    ensures var path := ResolveConfigPath(configPath);
            var r := LoadConfig(configPath, read, parse);
            && (read(path).Failure? ==> r == Failure("failed to read config file " + path + ": " + read(path).error))
            && (read(path).Success? && parse(read(path).value).Failure? ==>
                  r == Failure("failed to parse config file " + path + ": " + parse(read(path).value).error))
            && ((read(path).Success? && parse(read(path).value).Success?
                 && parse(read(path).value).value.openAI.apiKey == "") ==> r == Failure(ApiKeyRequired))
  {
  }

  /** The sample configuration written by `generateConfig`. */
  function GetDefaultConfig(): (c: Config)
    ensures Loaded(c)
    ensures c.openAI.model == DefaultModel
    ensures c.openAI.baseUrl == "https://api.openai.com/v1/"
  {
    Config(OpenAIConfig("your-openai-api-key", "https://api.openai.com/v1/", DefaultModel))
  }

  /** A file holding the sample configuration loads back unchanged. */
  lemma DefaultConfigLoadsBack(configPath: string, read: string -> Result<string, string>, parse: string -> Result<Config, string>)
    requires read(ResolveConfigPath(configPath)).Success?
    requires parse(read(ResolveConfigPath(configPath)).value) == Success(GetDefaultConfig())
    ensures LoadConfig(configPath, read, parse) == Success(GetDefaultConfig())
  {
  }

  /**
   * Writes the sample configuration: `marshal` stands for the YAML encoder and `write` for
   * the file system (it returns the error, if any). The result is the error, or `None`.
   */
  function SaveExampleConfig(
    configPath: string,
    marshal: Config -> Result<string, string>,
    write: (string, string) -> Option<string>
  ): (err: Option<string>)
    ensures marshal(GetDefaultConfig()).Failure? ==> err == Some("failed to marshal config: " + marshal(GetDefaultConfig()).error)
  {
    match marshal(GetDefaultConfig())
    case Failure(e) => Some("failed to marshal config: " + e)
    case Success(data) =>
      match write(configPath, data)
      case Some(e) => Some("failed to write config file: " + e)
      case None => None
  }

  /** Saving succeeds exactly when the sample encodes and its encoding is written to the given path. */
  lemma SaveExampleConfigSucceeds(configPath: string, marshal: Config -> Result<string, string>, write: (string, string) -> Option<string>)
    ensures SaveExampleConfig(configPath, marshal, write).None? <==>
      marshal(GetDefaultConfig()).Success? && write(configPath, marshal(GetDefaultConfig()).value).None?
  {
  }
}
