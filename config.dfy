/**
 * `PexKitConfig`: the client configuration, checked when it is built, and the
 * mutable `Builder` whose fields a configuration block sets one by one.
 */
module Config {
  import opened KotlinLang

  datatype LogLevel = NONE | HEADERS | BODY

  /** A `kotlin.time.Duration`, carried through unchanged. */
  datatype Duration = Duration(milliseconds: int)

  /** An `HttpClientEngine`, carried through unchanged; only its identity matters here. */
  datatype HttpClientEngine = HttpClientEngine(name: string)

  const DEFAULT_PER_PAGE: Int32 := 15
  const DEFAULT_TIMEOUT: Duration := Duration(30_000)

  /** The fields of `PexKitConfig`, before its `init` checks. */
  datatype ConfigFields = ConfigFields(
    apiKey: string,
    defaultPerPage: Int32,
    timeout: Duration,
    logLevel: LogLevel,
    httpClientEngine: Option<HttpClientEngine>)
  {
    predicate Valid()
    {
      !IsBlank(apiKey) && 1 <= defaultPerPage <= 80
    }
  }

  /** A `PexKitConfig` that exists: one whose `init` checks held. */
  type PexKitConfig = c: ConfigFields | c.Valid()
    witness ConfigFields("k", DEFAULT_PER_PAGE, DEFAULT_TIMEOUT, NONE, None)

  /** `PexKitConfig(...)`: the key is checked first, then the default page size. */
  function NewPexKitConfig(
    apiKey: string, defaultPerPage: Int32, timeout: Duration,
    logLevel: LogLevel, httpClientEngine: Option<HttpClientEngine>): (r: Checked<PexKitConfig>)
    ensures r.Passed? <==> !IsBlank(apiKey) && 1 <= defaultPerPage <= 80
    ensures r.Passed? ==> r.value == ConfigFields(apiKey, defaultPerPage, timeout, logLevel, httpClientEngine)
    ensures IsBlank(apiKey) ==> r == IllegalArgument("API key must not be blank")
    ensures !IsBlank(apiKey) && r.IllegalArgument? ==> r.message == "defaultPerPage must be between 1 and 80"
  {
    if IsBlank(apiKey) then IllegalArgument("API key must not be blank")
    else if !(1 <= defaultPerPage <= 80) then IllegalArgument("defaultPerPage must be between 1 and 80")
    else Passed(ConfigFields(apiKey, defaultPerPage, timeout, logLevel, httpClientEngine))
  }

  /** `PexKitConfig.Builder`. */
  class Builder {
    var apiKey: string
    var defaultPerPage: Int32
    var timeout: Duration
    var logLevel: LogLevel
    var httpClientEngine: Option<HttpClientEngine>

    /** A fresh builder holds the documented defaults. */
    constructor()
      ensures apiKey == "" && defaultPerPage == DEFAULT_PER_PAGE && timeout == DEFAULT_TIMEOUT
      ensures logLevel == NONE && httpClientEngine.None?
    {
      apiKey := "";
      defaultPerPage := DEFAULT_PER_PAGE;
      timeout := DEFAULT_TIMEOUT;
      logLevel := NONE;
      httpClientEngine := None;
    }

    /** `build()`: the configuration of the current field values, or the failed check. */
    method Build() returns (r: Checked<PexKitConfig>)
      ensures r == NewPexKitConfig(apiKey, defaultPerPage, timeout, logLevel, httpClientEngine)
      ensures r.Passed? ==>
        r.value.apiKey == apiKey && r.value.defaultPerPage == defaultPerPage
        && r.value.timeout == timeout && r.value.logLevel == logLevel
        && r.value.httpClientEngine == httpClientEngine
    {
      r := NewPexKitConfig(apiKey, defaultPerPage, timeout, logLevel, httpClientEngine);
    }
  }

  /** Building an untouched builder fails on the blank key. */
  lemma DefaultsRejected()
    ensures NewPexKitConfig("", DEFAULT_PER_PAGE, DEFAULT_TIMEOUT, NONE, None)
      == IllegalArgument("API key must not be blank")
  {
  }

  /**
   * A key of spaces and tabs is as blank as the empty key, and the default
   * page size must lie in 1..80.
   */
  lemma WhitespaceKeyRejected(t: Duration, level: LogLevel)
    ensures NewPexKitConfig(" \t ", DEFAULT_PER_PAGE, t, level, None).IllegalArgument?
    ensures NewPexKitConfig("k", 0, t, level, None) == IllegalArgument("defaultPerPage must be between 1 and 80")
    ensures NewPexKitConfig("k", 81, t, level, None).IllegalArgument?
    ensures NewPexKitConfig("k", 80, t, level, None).Passed?
  {
  }

  /**
   * `PexKit(apiKey)`: a builder whose only change is the key. The result is
   * the defaults with that key, and it fails exactly when the key is blank.
   */
  method ConfigureWithKey(apiKey: string) returns (r: Checked<PexKitConfig>)
    ensures r == NewPexKitConfig(apiKey, DEFAULT_PER_PAGE, DEFAULT_TIMEOUT, NONE, None)
    ensures r.Passed? <==> !IsBlank(apiKey)
  {
    var builder := new Builder();
    builder.apiKey := apiKey;
    r := builder.Build();
  }
}
