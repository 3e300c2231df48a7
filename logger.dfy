/**
 * The logger section of the configuration: its `level`. Installing the
 * logger (`setup_logger`) is not part of this model.
 */
module Logger {
  import opened Wrappers
  import opened JsonValues
  import Errors
  import Configs

  const ErrInvalidLogLevel := "Invalid log level"
  const ErrNoLogLevel := "No log level"

  datatype LevelFilter = Off | Error | Warn | Info | Debug | Trace

  datatype LoggerConfig = LoggerConfig(level: LevelFilter)

  /** The one spelling that selects each level. */
  function LevelName(l: LevelFilter): string {
    match l
    case Trace => "trace"
    case Debug => "debug"
    case Info => "info"
    case Warn => "warn"
    case Error => "error"
    case Off => "off"
  }

  /** The `match` of `get_level`, `None` standing for its error arm. */
  function ParseLevel(s: string): Option<LevelFilter> {
    match s
    case "trace" => Some(Trace)
    case "debug" => Some(Debug)
    case "info" => Some(Info)
    case "warn" => Some(Warn)
    case "error" => Some(Error)
    case "off" => Some(Off)
    case _ => None
  }

  /** Matching is exact: a string selects a level exactly when it is that level's name. */
  lemma ParseLevelExact(s: string, l: LevelFilter)
    ensures ParseLevel(s) == Some(l) <==> s == LevelName(l)
  {
  }

  /** `Config::get_level`. */
  function GetLevel(json: Json): (r: Result<LevelFilter, Errors.Error>)
    ensures AsStr(At(json, "level")).None? ==> r == Err(Errors.Configuration(ErrNoLogLevel))
    ensures forall l :: AsStr(At(json, "level")) == Some(LevelName(l)) ==> r == Ok(l)
    ensures (AsStr(At(json, "level")).Some? && forall l :: AsStr(At(json, "level")).value != LevelName(l)) ==>
              r == Err(Errors.Configuration(ErrInvalidLogLevel))
  {
    match AsStr(At(json, "level"))
    case None => Err(Errors.Configuration(ErrNoLogLevel))
    case Some(val) =>
      match ParseLevel(val)
      case Some(l) =>
        ParseLevelExact(val, l);
        Ok(l)
      case None =>
        assert forall l :: val != LevelName(l) by {
          forall l ensures val != LevelName(l) { ParseLevelExact(val, l); }
        }
        Err(Errors.Configuration(ErrInvalidLogLevel))
  }

  /** `Config::logger`: a level it cannot read panics, so it never returns `Err`. */
  function Logger(c: Configs.Config): (r: Result<LoggerConfig, Errors.Error>)
    requires GetLevel(Configs.Index(c, "logger")).Ok?
    ensures r.Ok? && Configs.Index(c, "logger") != Null
    ensures AsStr(At(Configs.Index(c, "logger"), "level")) == Some(LevelName(r.value.level))
  {
    var level := GetLevel(Configs.Index(c, "logger")).value;
    ParseLevelExact(AsStr(At(Configs.Index(c, "logger"), "level")).value, level);
    Ok(LoggerConfig(level))
  }

  /** The accepted cases of the unit test of `get_level`. */
  lemma GetLevelExamples()
    ensures GetLevel(Object([("level", Str("trace"))])) == Ok(Trace)
    ensures GetLevel(Object([("level", Str("debug"))])) == Ok(Debug)
    ensures GetLevel(Object([("level", Str("info"))])) == Ok(Info)
    ensures GetLevel(Object([("level", Str("warn"))])) == Ok(Warn)
    ensures GetLevel(Object([("level", Str("error"))])) == Ok(Error)
    ensures GetLevel(Object([("level", Str("off"))])) == Ok(Off)
  {
  }

  /** The rejected cases of the unit test of `get_level`. */
  lemma GetLevelErrorExamples()
    ensures GetLevel(Object([("level", Str("invalid"))])) == Err(Errors.Configuration(ErrInvalidLogLevel))
    ensures GetLevel(Object([])) == Err(Errors.Configuration(ErrNoLogLevel))
  {
  }
}
