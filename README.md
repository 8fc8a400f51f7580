# BlueHydra configuration loading, modelled in Dafny

BlueHydra is a Bluetooth device-discovery daemon. At start-up,
`lib/blue_hydra.rb` builds its configuration. It reads the user's YAML file
when there is one. It then normalises the scan rate, puts the MAC and
proximity filter lists in a canonical case, and migrates the legacy
`ui_filter_mode` setting. Next it drops nil values, lays the result over the
built-in `DEFAULT_CONFIG`, and keeps only the keys BlueHydra knows. Once the
configuration is built, `update_logger` picks the logger severity from
`log_level`.

The project models both steps.

- `config_values.dfy` (module `ConfigValues`) holds the configuration vocabulary:
  - the keys of the hash (one constructor per default key, the legacy `ui_filter_mode` key, and `Other` for any other key);
  - the YAML values that can stand under a key: nil, booleans, integers, strings, symbols and arrays;
  - Ruby's truthiness (only nil and `false` are false);
  - `hash[k]` returning nil for a missing key;
  - `DEFAULT_CONFIG`.
- `case_mapping.dfy` (module `CaseMapping`) models `String#upcase!` and `String#downcase!` on ASCII letters.
- `config_spec.dfy` (module `ConfigSpec`) describes the loaded configuration key by key, as an independent reference:
  - which file makes the loader raise `NoMethodError`, and which key and method that happens at (`FirstFault`);
  - otherwise, the value each known key ends up with (`UserSetting`, `EffectiveValue`, `EffectiveConfig`).
- `config_load.dfy` (module `ConfigLoad`) models the loader as the source runs it: a hash variable updated statement by statement. `info_scan_rate` comes first, then the five filter lists in source order, the migration, `reject!`, `merge` and `keep_if`.
  - A raised `NoMethodError` is an early `Failure`.
  - The rate fix-up and the list conversions are methods proved against functions saying which hash they leave behind.
  - `reject!` and `keep_if` are loops with direct contracts on the hash they leave; the migration and the `merge` are statements of `NormaliseUserConfig` and `LoadConfig`.
  - `LoadConfig` is proved equal to `EffectiveConfig`.
- `log_level.dfy` (module `LogLevels`) models the `case` of `update_logger`.
- `config_properties.dfy` (module `ConfigProperties`) proves what a loaded configuration promises:
  - the rate bounds;
  - the case of the filter lists, with their order and length kept;
  - migration precedence;
  - the key set;
  - user values winning over defaults, with defaults as the fallback;
  - exactly when loading raises;
  - stability when the written configuration is loaded again;
  - the logger level.

The model follows the code in two places where a comment says otherwise:

- Line 50 says `file` has no default value, but `DEFAULT_CONFIG` gives it `false`. The model uses `false`.
- Line 75 says bad values still go undetected. The model treats them as the code does: a Ruby method missing on such a value raises.

## Model

| member | source | states |
|---|---|---|
| ConfigValues.DefaultKeys | lib/blue_hydra.rb:51-69 | DEFAULT_CONFIG holds exactly the seventeen known keys (not the legacy ui_filter_mode, nor any other key), and none of its values is nil |
| CaseMapping.Upcase | lib/blue_hydra.rb:87-91 | upcase! keeps the length, maps each character on its own (a-z become A-Z, everything else is kept) and leaves no lower-case letter |
| CaseMapping.Downcase | lib/blue_hydra.rb:87-91 | downcase! keeps the length, maps each character on its own (A-Z become a-z, everything else is kept) and leaves no upper-case letter |
| CaseMapping.UpcaseFixesUpcased | lib/blue_hydra.rb:87-91 | upcasing a string with no lower-case letter changes nothing, so upcasing twice is upcasing once |
| CaseMapping.DowncaseFixesDowncased | lib/blue_hydra.rb:87-91 | downcasing a string with no upper-case letter changes nothing |
| ConfigSpec.Convert | lib/blue_hydra.rb:87-91 | the case method of a list keeps the length and leaves the string in that case |
| ConfigSpec.ConvertFixesInCase | lib/blue_hydra.rb:87-91 | a string already in the list's case is left unchanged |
| ConfigSpec.Converted | lib/blue_hydra.rb:87-91 | each entry of a converted list is a string in the list's case, with the length and order of the original |
| ConfigSpec.ScanRate | lib/blue_hydra.rb:78-85 | the effective rate for an integer r is 0 or at least 45; it is 0 exactly when r is 0; it is \|r\| when \|r\| >= 45 and 45 when 0 < \|r\| < 45 |
| ConfigSpec.EffectiveValue | lib/blue_hydra.rb:94-95 | once nils are rejected and the defaults merged under the user's values, no known key holds nil |
| ConfigSpec.EffectiveConfig | lib/blue_hydra.rb:72-101 | a successful load has exactly DEFAULT_CONFIG's keys and no nil value; with no file it is DEFAULT_CONFIG; with a file it raises exactly when FirstFault finds a bad value |
| ConfigLoad.FixScanRate | lib/blue_hydra.rb:78-85 | raises NoMethodError on .abs exactly when info_scan_rate is truthy and not an integer; otherwise leaves the hash RateFixed describes |
| ConfigLoad.ConvertEach | lib/blue_hydra.rb:87-91 | the map over a list succeeds exactly when every entry is a string, and then gives every entry converted, in order |
| ConfigLoad.ConvertList | lib/blue_hydra.rb:87-91 | one conversion statement raises exactly as ListFault says (map on a non-list, or the case method on a non-string entry), and otherwise leaves the hash ListConverted describes |
| ConfigLoad.ConvertFilterLists | lib/blue_hydra.rb:87-91 | the five conversions in source order raise the first fault ListFaults finds, and otherwise leave the hash ListsConverted describes |
| ConfigLoad.NormaliseUserConfig | lib/blue_hydra.rb:78-93 | the fix-ups and the migration raise the fault FirstFault finds (the rate before the lists), and otherwise give the hash Normalised describes |
| ConfigLoad.RejectNil | lib/blue_hydra.rb:94 | reject! removes exactly the keys whose value is nil and changes no other value |
| ConfigLoad.KeepKnownKeys | lib/blue_hydra.rb:101 | keep_if keeps exactly the keys that are in the known set, with their values |
| ConfigLoad.LoadConfig | lib/blue_hydra.rb:72-101 | the loader's result, failure or configuration, is exactly EffectiveConfig of the parsed file |
| ConfigLoad.RateFixKeepsLists | lib/blue_hydra.rb:78-91 | the rate fix-up changes none of the five filter lists, so the faults they raise are unchanged |
| ConfigLoad.RateFixedSettings | lib/blue_hydra.rb:78-85 | after the rate fix-up, info_scan_rate holds its effective setting and every other key is as the file had it |
| ConfigLoad.ListConvertedSettings | lib/blue_hydra.rb:87-91 | one conversion changes the list it converts and no other key |
| ConfigLoad.ListsConvertedSettings | lib/blue_hydra.rb:87-91 | after the five conversions, each filter list holds its converted value and every other key is untouched |
| ConfigLoad.ListFaultsStepwise | lib/blue_hydra.rb:87-91 | each conversion's fault, read from the hash the earlier conversions leave, is the fault of the file's own value |
| ConfigLoad.NormalisedSettings | lib/blue_hydra.rb:78-93 | the normalised hash holds the user's normalised setting under every key |
| ConfigLoad.MergeIsEffective | lib/blue_hydra.rb:94-101 | DEFAULT_CONFIG merged with the non-nil normalised values, cut down to the known keys, holds the effective value of every known key |
| LogLevels.LevelFor | lib/blue_hydra.rb:141-154 | the level is INFO unless the value is the name of the level; and the name of a level always selects that level |
| LogLevels.OtherValuesSelectInfo | lib/blue_hydra.rb:152-153 | a value that is not one of the five names (a symbol, another spelling, nil) selects INFO |
| LogLevels.DefaultLevelIsInfo | lib/blue_hydra.rb:140-155 | the built-in configuration logs at INFO |
| ConfigProperties.EffectiveAt | lib/blue_hydra.rb:72-101 | a successful load raised nothing and holds the effective value under every known key |
| ConfigProperties.ScanRateBounds | lib/blue_hydra.rb:78-85 | the loaded info_scan_rate is false or an integer that is 0 or at least 45, and a `false` written in the file is kept |
| ConfigProperties.ScanRateFromFile | lib/blue_hydra.rb:78-85 | an integer r in the file loads as \|r\| when that is 0 or at least 45, and as 45 otherwise |
| ConfigProperties.FilterListFromFile | lib/blue_hydra.rb:87-91 | a filter list in the file loads with the same number of entries in the same order, each a string put in the list's case |
| ConfigProperties.FilterListsInCase | lib/blue_hydra.rb:87-91 | every loaded filter list is false or a list of strings in its case: MAC lists upper case, proximity lists lower case; a `false` written in the file is kept |
| ConfigProperties.LegacyModeMigrates | lib/blue_hydra.rb:93 | a truthy ui_filter_mode overrides ui_inc_filter_mode whatever the file has there |
| ConfigProperties.OnlyKnownKeys | lib/blue_hydra.rb:100-101 | a loaded configuration has exactly the known keys; the legacy ui_filter_mode never survives |
| ConfigProperties.UserValueOrDefault | lib/blue_hydra.rb:94-95 | a key the loader does not rewrite keeps the file's non-nil value, and gets its default when the file has nil or nothing |
| ConfigProperties.NilFallsBackToDefault | lib/blue_hydra.rb:94-95 | a nil or missing value falls back to the default for every known key, the rewritten ones included, unless ui_filter_mode migrates |
| ConfigProperties.EmptyHashGivesDefaults | lib/blue_hydra.rb:95-97 | a file holding an empty hash loads to DEFAULT_CONFIG (the no-file case is `EffectiveConfig`'s own ensures) |
| ConfigProperties.ListFaultsNoneIffEach | lib/blue_hydra.rb:87-91 | the five conversions raise nothing exactly when no filter list raises |
| ConfigProperties.FailsExactlyOnBadValues | lib/blue_hydra.rb:78-91 | loading raises exactly when info_scan_rate is truthy but not an integer, or some filter list is truthy but not an array of strings |
| ConfigProperties.LoadedConfigHasShape | lib/blue_hydra.rb:72-101 | every loaded configuration has the known keys, no nil, a rate that is false, 0 or at least 45, and filter lists in their case |
| ConfigProperties.ShapeHasNoFault | lib/blue_hydra.rb:78-91 | a configuration of that shape raises nothing when loaded |
| ConfigProperties.ShapeKeepsValue | lib/blue_hydra.rb:78-95 | in a configuration of that shape every known key is its own effective value |
| ConfigProperties.ShapeIsStable | lib/blue_hydra.rb:72-101 | a configuration of that shape loads to itself |
| ConfigProperties.OwnValuesRebuild | lib/blue_hydra.rb:95-101 | a configuration over the known keys whose values are their own effective values is rebuilt unchanged by merge and keep_if |
| ConfigProperties.ReloadIsStable | lib/blue_hydra.rb:103-106 | loading the configuration a load produced, which the source writes back to the file, gives the same configuration |
| ConfigProperties.LevelFromFile | lib/blue_hydra.rb:140-155 | the logger level of a loaded configuration is that of the file's log_level, and INFO when the file has none |

## Left out

- Finding and reading the file (lines 38-46, 72-73): the YAML file is a parameter, already parsed into a hash, and `None` when it does not exist. YAML parsing is not modelled.
- A YAML document that is not a hash (an empty file, a bare scalar or list): indexing it at line 78 raises or misbehaves. The model's file is always a hash.
- Floating-point and hash values are not among the model's values. `.abs` on a float and `map` over a hash behave differently from the values modelled.
- Keys that are not strings (a YAML symbol key, say) are distinct Ruby keys, and the model treats them like any unknown key (`Other`).
- Aliasing: YAML anchors can make two filter lists one array, which the in-place `upcase!`/`downcase!` would then convert twice. The model converts values, not shared objects. For the same reason it does not model `keep_if` mutating `DEFAULT_CONFIG` itself when there is no file: that call removes nothing.
- `CaseMapping.Upcase`: maps only the ASCII letters. Ruby 2.4 and later also map non-ASCII letters.
- `CaseMapping.Downcase`: maps only the ASCII letters, for the same reason.
- Writing the configuration back (line 106): YAML output is not modelled. `ConfigProperties.ReloadIsStable` states stability on the hash.
- The numbers Ruby's Logger gives its severities: the source uses `Logger::FATAL` and the other constants only by name, so the model keeps the severities as a datatype.
- Choosing the log file (lines 108-115), constructing `Logger` or `NilLogger` (lines 117-138), and formatters: only the selected severity is modelled.
- The code after line 158 is not part of this model: the DataMapper/SQLite setup, the `hciconfig` shell-out, Pulse telemetry, the option getters and setters, and `module_function`.
- The chunker, parser and tracker are not part of this model.
