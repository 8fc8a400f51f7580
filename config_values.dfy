/**
 * The values a BlueHydra configuration is made of: the keys of the
 * configuration hash, the YAML values that can stand under them, Ruby's
 * truthiness, and the built-in DEFAULT_CONFIG (lib/blue_hydra.rb:51-69).
 */
module ConfigValues {

  datatype Option<+T> = None | Some(value: T) {
    /** The first of two optional values that is present. */
    function OrElse(other: Option<T>): Option<T> {
      if Some? then this else other
    }
  }

  datatype Result<+R, +E> = Success(value: R) | Failure(error: E)

  /**
   * A key of the configuration hash. Every key of DEFAULT_CONFIG has a
   * constructor of its own; UiFilterMode is the legacy "ui_filter_mode" key
   * that is migrated away; Other stands for any other key a user may write.
   * An Other name is never one of the seventeen default names nor
   * "ui_filter_mode": those keys are always written with their own
   * constructor.
   */
  datatype Key =
    | LogLevel          // "log_level"
    | BtDevice          // "bt_device"
    | UbertoothIndex    // "ubertooth_index"
    | InfoScanRate      // "info_scan_rate"
    | BtmonLog          // "btmon_log"
    | BtmonRawlog       // "btmon_rawlog"
    | File              // "file"
    | RssiLog           // "rssi_log"
    | AggressiveRssi    // "aggressive_rssi"
    | UiIncFilterMode   // "ui_inc_filter_mode"
    | UiIncFilterMac    // "ui_inc_filter_mac"
    | UiIncFilterProx   // "ui_inc_filter_prox"
    | UiExcFilterMac    // "ui_exc_filter_mac"
    | UiExcFilterProx   // "ui_exc_filter_prox"
    | IgnoreMac         // "ignore_mac"
    | SignalSpitter     // "signal_spitter"
    | ChunkerDebug      // "chunker_debug"
    | UiFilterMode      // "ui_filter_mode", the legacy name of ui_inc_filter_mode
    | Other(name: string)

  /** A value as YAML loads it into Ruby: nil, a boolean, an integer, a string, a symbol or an array. */
  datatype Value =
    | Nil
    | Bool(b: bool)
    | Int(i: int)
    | Str(s: string)
    | Sym(name: string)
    | List(items: seq<Value>)

  type Config = map<Key, Value>

  /** Ruby's `if v`: only nil and false are false. */
  predicate Truthy(v: Value) {
    v != Nil && v != Bool(false)
  }

  /** Ruby's `hash[k]`: nil for a key that is not there. */
  function Lookup(m: Config, k: Key): Value {
    if k in m then m[k] else Nil
  }

  /** The smallest non-zero info_scan_rate, in seconds. */
  const MIN_INFO_SCAN_RATE: int := 45

  /** The 17 settings BlueHydra knows, with their built-in values. */
  const DEFAULT_CONFIG: Config := map[
    LogLevel        := Str("info"),
    BtDevice        := Str("hci0"),
    UbertoothIndex  := Str("0"),
    InfoScanRate    := Int(240),
    BtmonLog        := Bool(false),
    BtmonRawlog     := Bool(false),
    File            := Bool(false),
    RssiLog         := Bool(false),
    AggressiveRssi  := Bool(false),
    UiIncFilterMode := Sym("disabled"),
    UiIncFilterMac  := List([]),
    UiIncFilterProx := List([]),
    UiExcFilterMac  := List([]),
    UiExcFilterProx := List([]),
    IgnoreMac       := List([]),
    SignalSpitter   := Bool(false),
    ChunkerDebug    := Bool(false)
  ]

  /** Whether `k` is one of DEFAULT_CONFIG's keys, written out without the map. */
  predicate IsDefaultKey(k: Key) {
    !(k.UiFilterMode? || k.Other?)
  }

  lemma DefaultKeys(k: Key)
    ensures k in DEFAULT_CONFIG <==> IsDefaultKey(k)
    ensures k in DEFAULT_CONFIG ==> DEFAULT_CONFIG[k] != Nil
  {
  }
}
