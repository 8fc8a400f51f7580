/**
 * The logger severity BlueHydra picks from its log_level setting
 * (`update_logger`, lib/blue_hydra.rb:140-155).
 */
module LogLevels {
  import opened ConfigValues

  /** The severities of Ruby's Logger that the configuration can select. */
  datatype Severity = Debug | Info | Warn | Error | Fatal

  /** The log_level string that selects each severity. */
  function Name(l: Severity): string {
    match l
    case Debug => "debug"
    case Info => "info"
    case Warn => "warn"
    case Error => "error"
    case Fatal => "fatal"
  }

  /**
   * `case @@config["log_level"]`: the severity whose name the value is, and
   * INFO for anything else (a symbol, another spelling, nil).
   */
  function LevelFor(v: Value): (l: Severity)
    ensures l == Info || v == Str(Name(l))
    ensures forall l' :: v == Str(Name(l')) ==> l == l'
  {
    if v == Str("fatal") then Fatal
    else if v == Str("error") then Error
    else if v == Str("warn") then Warn
    else if v == Str("info") then Info
    else if v == Str("debug") then Debug
    else Info
  }

  /** The level `update_logger` gives the logger for configuration `cfg`. */
  function ConfiguredLevel(cfg: Config): Severity {
    LevelFor(Lookup(cfg, LogLevel))
  }

  /** A value that is not one of the five names selects INFO. */
  lemma OtherValuesSelectInfo(v: Value)
    requires forall l: Severity :: v != Str(Name(l))
    ensures LevelFor(v) == Info
  {
    assert v != Str(Name(Fatal)) && v != Str(Name(Error)) && v != Str(Name(Warn)) && v != Str(Name(Debug));
  }

  /** The built-in configuration logs at INFO. */
  lemma DefaultLevelIsInfo()
    ensures ConfiguredLevel(DEFAULT_CONFIG) == Info
  {
  }
}
