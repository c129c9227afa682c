/**
 * The configuration of pkg/config/config.go: defaults, the checks applied
 * after the YAML file has been decoded, and the case-insensitive log level.
 * Reading and decoding the file, and the hostname lookup, are outcomes passed in.
 */
module ExporterConfig {
  import opened Wrappers
  import opened GoTypes

  const DefaultLogLevel: string := "info"
  const DefaultPort: int := 8080
  const DefaultCache: Duration := 5 * Minute

  datatype RemoteConfig = RemoteConfig(enable: bool, url: string, instance: string, username: string, password: string)

  datatype Config = Config(logLevel: string, port: int, cache: Duration, speedtestCLI: string, remote: RemoteConfig)

  /** The zero value `Config{}`, returned with every error. */
  const ZeroConfig: Config := Config("", 0, 0, "", RemoteConfig(false, "", "", "", ""))

  datatype ConfigError =
    | ReadError              // os.ReadFile failed
    | DecodeError            // yaml.Unmarshal failed
    | ErrUnknownLogLevel(level: string)
    | ErrMissingEndpoint
    | ErrMissingAuthCredentials

  /** The outcome of reading the file at a non-empty path and decoding it over the defaults. */
  datatype ConfigFile = Unreadable | Undecodable | Decoded(config: Config)

  /** `DefaultConfig()`. */
  function DefaultConfig(): (c: Config)
    ensures c.logLevel == "info" && c.port == 8080 && c.cache == 5 * Minute
    ensures c.speedtestCLI == "" && !c.remote.enable
  {
    Config(DefaultLogLevel, DefaultPort, DefaultCache, "", RemoteConfig(false, "", "", "", ""))
  }

  // slog's levels
  const LevelDebug: int := -4
  const LevelInfo: int := 0
  const LevelWarn: int := 4
  const LevelError: int := 8

  /**
   * Lower case of one character as `strings.ToLower` maps it, as far as a
   * comparison with an ASCII word can tell: ASCII capitals, and the only two
   * other characters whose lower case is ASCII (U+0130 and the Kelvin sign).
   */
  function LowerChar(ch: char): (l: char)
    ensures 'A' <= ch <= 'Z' ==> l as int == ch as int + 32
    ensures !('A' <= ch <= 'Z') && ch != '\U{0130}' && ch != '\U{212A}' ==> l == ch
  {
    if 'A' <= ch <= 'Z' then (ch as int + 32) as char
    else if ch == '\U{0130}' then 'i'
    else if ch == '\U{212A}' then 'k'
    else ch
  }

  function ToLower(s: string): (l: string)
    ensures |l| == |s|
    ensures forall i :: 0 <= i < |s| ==> l[i] == LowerChar(s[i])
  {
    if s == [] then [] else [LowerChar(s[0])] + ToLower(s[1..])
  }

  /** The level named by `level` in any case, if it names one. */
  function ParseLogLevel(level: string): Option<int> {
    var l := ToLower(level);
    if l == "debug" then Some(LevelDebug)
    else if l == "info" then Some(LevelInfo)
    else if l == "warn" then Some(LevelWarn)
    else if l == "error" then Some(LevelError)
    else None
  }

  /** `s` spells `word` in some mix of cases. */
  predicate SpelledAs(s: string, word: string) {
    |s| == |word| && forall i :: 0 <= i < |s| ==> LowerChar(s[i]) == word[i]
  }

  /** The four names are accepted in any case, and nothing else is. */
  lemma ParseLogLevelAnyCase(s: string)
    ensures SpelledAs(s, "debug") <==> ParseLogLevel(s) == Some(LevelDebug)
    ensures SpelledAs(s, "info") <==> ParseLogLevel(s) == Some(LevelInfo)
    ensures SpelledAs(s, "warn") <==> ParseLogLevel(s) == Some(LevelWarn)
    ensures SpelledAs(s, "error") <==> ParseLogLevel(s) == Some(LevelError)
    ensures ParseLogLevel(s).None? <==>
      !SpelledAs(s, "debug") && !SpelledAs(s, "info") && !SpelledAs(s, "warn") && !SpelledAs(s, "error")
  {
    var l := ToLower(s);
    assert SpelledAs(s, "debug") <==> l == "debug";
    assert SpelledAs(s, "info") <==> l == "info";
    assert SpelledAs(s, "warn") <==> l == "warn";
    assert SpelledAs(s, "error") <==> l == "error";
  }

  /** The level names the tests use, upper case included. */
  lemma LogLevelExamples()
    ensures ParseLogLevel("DEBUG") == Some(LevelDebug) && ParseLogLevel("INFO") == Some(LevelInfo)
    ensures ParseLogLevel("WARN") == Some(LevelWarn) && ParseLogLevel("ERROR") == Some(LevelError)
    ensures ParseLogLevel("Unknown").None?
  {
    UpperCaseSpelling("DEBUG", "debug");
    UpperCaseSpelling("INFO", "info");
    UpperCaseSpelling("WARN", "warn");
    UpperCaseSpelling("ERROR", "error");
    ParseLogLevelAnyCase("DEBUG");
    ParseLogLevelAnyCase("INFO");
    ParseLogLevelAnyCase("WARN");
    ParseLogLevelAnyCase("ERROR");
    var l := ToLower("Unknown");
    assert l[0] == 'u';
  }

  /** A word written in capitals spells the lower-case word. */
  lemma UpperCaseSpelling(s: string, word: string)
    requires |s| == |word|
    requires forall i :: 0 <= i < |s| ==> 'a' <= word[i] <= 'z' && s[i] as int == word[i] as int - 32
    ensures SpelledAs(s, word)
  {
  }

  /** The process-wide `slog.LevelVar`. */
  class LevelVar {
    var level: int

    constructor ()
      ensures level == LevelInfo
    {
      level := LevelInfo;
    }
  }

  /** `setLogLevel`: sets the parsed level, or reports the string unchanged and leaves the level alone. */
  method SetLogLevel(lv: LevelVar, level: string) returns (err: Option<ConfigError>)
    modifies lv
    ensures err.None? <==> ParseLogLevel(level).Some?
    ensures err.None? ==> lv.level == ParseLogLevel(level).value
    ensures err.Some? ==> err == Some(ErrUnknownLogLevel(level)) && lv.level == old(lv.level)
  {
    var l := ToLower(level);
    if l == "debug" {
      lv.level := LevelDebug;
    } else if l == "info" {
      lv.level := LevelInfo;
    } else if l == "warn" {
      lv.level := LevelWarn;
    } else if l == "error" {
      lv.level := LevelError;
    } else {
      return Some(ErrUnknownLogLevel(level));
    }
    return None;
  }

  /** The instance name used when none is configured: the hostname, or "localhost" if it cannot be read. */
  function HostnameOr(hostname: Option<string>): string {
    match hostname
    case Some(h) => h
    case None => "localhost"
  }

  /** The checks on the remote section of a decoded configuration. */
  function CheckRemote(c: Config, hostname: Option<string>): (r: Result<Config, ConfigError>)
    ensures !c.remote.enable ==> r == Success(c)
    ensures c.remote.enable && c.remote.url == "" ==> r == Failure(ErrMissingEndpoint)
    ensures c.remote.enable && c.remote.url != "" ==>
      (r == Failure(ErrMissingAuthCredentials) <==> (c.remote.username == "") != (c.remote.password == ""))
    ensures r.Success? <==>
      !c.remote.enable || (c.remote.url != "" && (c.remote.username == "") == (c.remote.password == ""))
    ensures r.Success? ==> r.value.(remote := r.value.remote.(instance := c.remote.instance)) == c
    ensures r.Success? && c.remote.instance != "" ==> r.value == c
    ensures r.Success? && c.remote.enable && c.remote.instance == "" ==> r.value.remote.instance == HostnameOr(hostname)
  {
    if !c.remote.enable then Success(c)
    else if c.remote.url == "" then Failure(ErrMissingEndpoint)
    else if c.remote.username != c.remote.password && (c.remote.username == "" || c.remote.password == "") then
      Failure(ErrMissingAuthCredentials)
    else if c.remote.instance == "" then Success(c.(remote := c.remote.(instance := HostnameOr(hostname))))
    else Success(c)
  }

  /**
   * `LoadConfig(path, env)`: the defaults for an empty path; otherwise the
   * decoded file, its log level applied and its remote section checked. Every
   * error comes with the zero configuration.
   */
  method LoadConfig(lv: LevelVar, path: string, file: ConfigFile, hostname: Option<string>)
    returns (c: Config, err: Option<ConfigError>)
    modifies lv
    ensures path == "" ==> c == DefaultConfig() && err.None? && lv.level == LevelInfo
    ensures path != "" && file.Unreadable? ==> err == Some(ReadError) && lv.level == old(lv.level)
    ensures path != "" && file.Undecodable? ==> err == Some(DecodeError) && lv.level == old(lv.level)
    ensures path != "" && file.Decoded? && ParseLogLevel(file.config.logLevel).None? ==>
      err == Some(ErrUnknownLogLevel(file.config.logLevel)) && lv.level == old(lv.level)
    ensures path != "" && file.Decoded? && ParseLogLevel(file.config.logLevel).Some? ==>
      lv.level == ParseLogLevel(file.config.logLevel).value
      && (match CheckRemote(file.config, hostname)
          case Success(checked) => c == checked && err.None?
          case Failure(e) => err == Some(e))
    ensures err.Some? ==> c == ZeroConfig
  {
    c := DefaultConfig();
    if path == "" {
      var _ := SetLogLevel(lv, DefaultLogLevel);
      return c, None;
    }
    match file {
      case Unreadable => return ZeroConfig, Some(ReadError);
      case Undecodable => return ZeroConfig, Some(DecodeError);
      case Decoded(decoded) => c := decoded;
    }
    err := SetLogLevel(lv, c.logLevel);
    if err.Some? {
      return ZeroConfig, err;
    }
    // The remote checks are written inline, in the order of config.go:89-105;
    // the last ensures ties them to `CheckRemote`.
    if c.remote.enable {
      if c.remote.url == "" {
        return ZeroConfig, Some(ErrMissingEndpoint);
      }
      if c.remote.username != c.remote.password && (c.remote.username == "" || c.remote.password == "") {
        return ZeroConfig, Some(ErrMissingAuthCredentials);
      }
      if c.remote.instance == "" {
        c := c.(remote := c.remote.(instance := HostnameOr(hostname)));
      }
    }
  }
}
