/**
 * The configuration loader of lib/blue_hydra.rb:72-101 as the source runs
 * it: a hash variable updated in place, one statement after another, with
 * Ruby's NoMethodError as an early Failure.
 *
 * Each statement is a method proved against a function saying which hash it
 * leaves behind; the lemmas at the end relate those functions, key by key,
 * to the settings of ConfigSpec.
 */
module ConfigLoad {
  import opened ConfigValues
  import opened ConfigSpec

  /** The hash after lines 78-85 on a run that does not raise. */
  function RateFixed(cfg: Config): Config {
    var v := Lookup(cfg, InfoScanRate);
    if Truthy(v) then cfg[InfoScanRate := RateSetting(v)] else cfg
  }

  /** The hash after the conversion of the filter list `k` to case `c` on a run that does not raise. */
  function ListConverted(cfg: Config, k: Key, c: Case): Config {
    var v := Lookup(cfg, k);
    if Truthy(v) then cfg[k := ListSetting(v, c)] else cfg
  }

  /** The hash after the five conversions of lines 87-91, in source order. */
  function ListsConverted(cfg: Config): Config {
    var incMac := ListConverted(cfg, UiIncFilterMac, Up);
    var incProx := ListConverted(incMac, UiIncFilterProx, Down);
    var excMac := ListConverted(incProx, UiExcFilterMac, Up);
    var excProx := ListConverted(excMac, UiExcFilterProx, Down);
    ListConverted(excProx, IgnoreMac, Up)
  }

  /** The hash after the migration of line 93. */
  function Migrated(cfg: Config): Config {
    if Truthy(Lookup(cfg, UiFilterMode)) then cfg[UiIncFilterMode := cfg[UiFilterMode]] else cfg
  }

  /** The user's hash after lines 78-93 on a run that does not raise. */
  function Normalised(u: Config): Config {
    Migrated(ListsConverted(RateFixed(u)))
  }

  /** Absolute value of info_scan_rate, then the 45-second floor for non-zero rates (lines 78-85). */
  method FixScanRate(cfg: Config) returns (r: Result<Config, Fault>)
    ensures r.Failure? <==> RateFault(cfg).Some?
    ensures r.Failure? ==> r.error == RateFault(cfg).value
    ensures r.Success? ==> r.value == RateFixed(cfg)
  {
    var c := cfg;
    if Truthy(Lookup(c, InfoScanRate)) {
      if !c[InfoScanRate].Int? {
        return Failure(NoMethodError(InfoScanRate, Abs));
      }
      var rate := c[InfoScanRate].i;
      c := c[InfoScanRate := Int(if rate < 0 then -rate else rate)];
      if c[InfoScanRate].i < MIN_INFO_SCAN_RATE && c[InfoScanRate].i != 0 {
        c := c[InfoScanRate := Int(MIN_INFO_SCAN_RATE)];
      }
    }
    return Success(c);
  }

  /** `items.map { |x| x.upcase! }` (or downcase!): each entry changed in place, None when one is not a string. */
  method ConvertEach(items: seq<Value>, c: Case) returns (r: Option<seq<Value>>)
    ensures r.Some? <==> AllStrings(items)
    ensures r.Some? ==> r.value == Converted(items, c)
  {
    var xs := items;
    var i := 0;
    while i < |xs|
      invariant 0 <= i <= |xs| == |items|
      invariant forall j :: 0 <= j < i ==> items[j].Str? && xs[j] == Str(Convert(c, items[j].s))
      invariant forall j :: i <= j < |xs| ==> xs[j] == items[j]
    {
      if !xs[i].Str? {
        return None;
      }
      xs := xs[i := Str(Convert(c, xs[i].s))];
      i := i + 1;
    }
    return Some(xs);
  }

  /**
   * One statement of lines 87-91: when the value under `k` is truthy, `map`
   * over it with the case method of `c`.
   */
  method ConvertList(cfg: Config, k: Key, c: Case) returns (r: Result<Config, Fault>)
    ensures r.Failure? <==> ListFault(Lookup(cfg, k), k, c).Some?
    ensures r.Failure? ==> r.error == ListFault(Lookup(cfg, k), k, c).value
    ensures r.Success? ==> r.value == ListConverted(cfg, k, c)
  {
    var v := Lookup(cfg, k);
    if !Truthy(v) {
      return Success(cfg);
    }
    if !v.List? {
      return Failure(NoMethodError(k, MapEach));
    }
    var converted := ConvertEach(v.items, c);
    if converted.None? {
      return Failure(NoMethodError(k, CaseSelector(c)));
    }
    return Success(cfg[k := List(converted.value)]);
  }

  /** Lines 87-91: the three MAC lists upper-cased and the two proximity lists lower-cased, in source order. */
  method ConvertFilterLists(cfg: Config) returns (r: Result<Config, Fault>)
    ensures r.Failure? <==> ListFaults(cfg).Some?
    ensures r.Failure? ==> r.error == ListFaults(cfg).value
    ensures r.Success? ==> r.value == ListsConverted(cfg)
  {
    ListFaultsStepwise(cfg);
    var step := ConvertList(cfg, UiIncFilterMac, Up);
    if step.Failure? { return step; }
    step := ConvertList(step.value, UiIncFilterProx, Down);
    if step.Failure? { return step; }
    step := ConvertList(step.value, UiExcFilterMac, Up);
    if step.Failure? { return step; }
    step := ConvertList(step.value, UiExcFilterProx, Down);
    if step.Failure? { return step; }
    step := ConvertList(step.value, IgnoreMac, Up);
    return step;
  }

  /** The faults of the five conversions, each read off the hash the conversions before it leave. */
  lemma ListFaultsStepwise(cfg: Config)
    ensures
      var incMac := ListConverted(cfg, UiIncFilterMac, Up);
      var incProx := ListConverted(incMac, UiIncFilterProx, Down);
      var excMac := ListConverted(incProx, UiExcFilterMac, Up);
      var excProx := ListConverted(excMac, UiExcFilterProx, Down);
      ListFaults(cfg) ==
        ListFault(Lookup(cfg, UiIncFilterMac), UiIncFilterMac, Up)
          .OrElse(ListFault(Lookup(incMac, UiIncFilterProx), UiIncFilterProx, Down))
          .OrElse(ListFault(Lookup(incProx, UiExcFilterMac), UiExcFilterMac, Up))
          .OrElse(ListFault(Lookup(excMac, UiExcFilterProx), UiExcFilterProx, Down))
          .OrElse(ListFault(Lookup(excProx, IgnoreMac), IgnoreMac, Up))
  {
    var incMac := ListConverted(cfg, UiIncFilterMac, Up);
    var incProx := ListConverted(incMac, UiIncFilterProx, Down);
    var excMac := ListConverted(incProx, UiExcFilterMac, Up);
    assert Lookup(incMac, UiIncFilterProx) == Lookup(cfg, UiIncFilterProx);
    assert Lookup(incProx, UiExcFilterMac) == Lookup(cfg, UiExcFilterMac);
    assert Lookup(excMac, UiExcFilterProx) == Lookup(cfg, UiExcFilterProx);
    assert Lookup(ListConverted(excMac, UiExcFilterProx, Down), IgnoreMac) == Lookup(cfg, IgnoreMac);
  }

  /** Lines 78-93: the fix-ups and the ui_filter_mode migration, applied to the hash loaded from the file. */
  method NormaliseUserConfig(u: Config) returns (r: Result<Config, Fault>)
    ensures r.Failure? <==> FirstFault(u).Some?
    ensures r.Failure? ==> r.error == FirstFault(u).value
    ensures r.Success? ==> r.value == Normalised(u)
  {
    var step := FixScanRate(u);
    if step.Failure? { return step; }
    RateFixKeepsLists(u);
    step := ConvertFilterLists(step.value);
    if step.Failure? { return step; }
    var c := step.value;
    if Truthy(Lookup(c, UiFilterMode)) {
      c := c[UiIncFilterMode := c[UiFilterMode]];
    }
    return Success(c);
  }

  /** `reject! { |k, v| v == nil }` (line 94): every key whose value is nil is removed. */
  method RejectNil(m: Config) returns (r: Config)
    ensures forall k :: k in r <==> k in m && m[k] != Nil
    ensures forall k :: k in r ==> r[k] == m[k]
  {
    r := m;
    var todo := m.Keys;
    while todo != {}
      invariant todo <= m.Keys
      invariant forall k :: k in r <==> k in m && (k in todo || m[k] != Nil)
      invariant forall k :: k in r ==> r[k] == m[k]
      decreases todo
    {
      var k :| k in todo;
      if r[k] == Nil {
        r := r - {k};
      }
      todo := todo - {k};
    }
  }

  /**
   * `keep_if { |k, _| DEFAULT_CONFIG.include?(k) }` (line 101) with the
   * default keys passed as `known`: every other key is removed.
   */
  method KeepKnownKeys(m: Config, known: set<Key>) returns (r: Config)
    ensures r.Keys == m.Keys * known
    ensures forall k :: k in r ==> r[k] == m[k]
  {
    r := m;
    var todo := m.Keys;
    while todo != {}
      invariant todo <= m.Keys
      invariant forall k :: k in r <==> k in m && (k in todo || k in known)
      invariant forall k :: k in r ==> r[k] == m[k]
      decreases todo
    {
      var k :| k in todo;
      if k !in known {
        r := r - {k};
      }
      todo := todo - {k};
    }
  }

  /**
   * Lines 72-101: the configuration BlueHydra runs with, from the parsed
   * configuration file (None when there is no file).
   */
  method LoadConfig(file: Option<Config>) returns (r: Result<Config, Fault>)
    ensures r == EffectiveConfig(file)
  {
    var merged := DEFAULT_CONFIG;
    ghost var userSettings: Config := map[];
    if file.Some? {
      var normalised := NormaliseUserConfig(file.value);
      if normalised.Failure? {
        return Failure(normalised.error);
      }
      var c := RejectNil(normalised.value);
      userSettings := c;
      merged := DEFAULT_CONFIG + c;
    }
    var kept := KeepKnownKeys(merged, DEFAULT_CONFIG.Keys);
    if file.Some? {
      MergeIsEffective(file.value, userSettings, kept);
    } else {
      assert kept == DEFAULT_CONFIG;
    }
    return Success(kept);
  }

  /** The rate fix-up leaves the filter lists, and so the faults they raise, as they were. */
  lemma RateFixKeepsLists(u: Config)
    ensures ListFaults(RateFixed(u)) == ListFaults(u)
  {
    var v := RateFixed(u);
    assert Lookup(v, UiIncFilterMac) == Lookup(u, UiIncFilterMac);
    assert Lookup(v, UiIncFilterProx) == Lookup(u, UiIncFilterProx);
    assert Lookup(v, UiExcFilterMac) == Lookup(u, UiExcFilterMac);
    assert Lookup(v, UiExcFilterProx) == Lookup(u, UiExcFilterProx);
    assert Lookup(v, IgnoreMac) == Lookup(u, IgnoreMac);
  }

  /** After the rate fix-up, info_scan_rate holds its effective setting and every other key is as the file had it. */
  lemma RateFixedSettings(u: Config, k: Key)
    ensures Lookup(RateFixed(u), k) == if k == InfoScanRate then RateSetting(Lookup(u, k)) else Lookup(u, k)
  {
  }

  /** One conversion changes the list it converts and nothing else. */
  lemma ListConvertedSettings(cfg: Config, k: Key, c: Case, k': Key)
    ensures Lookup(ListConverted(cfg, k, c), k') == if k' == k then ListSetting(Lookup(cfg, k), c) else Lookup(cfg, k')
  {
  }

  /** After the five conversions every filter list holds its converted setting and every other key is untouched. */
  lemma ListsConvertedSettings(cfg: Config, k: Key)
    ensures Lookup(ListsConverted(cfg), k) == FilterSetting(Lookup(cfg, k), k)
  {
    var incMac := ListConverted(cfg, UiIncFilterMac, Up);
    var incProx := ListConverted(incMac, UiIncFilterProx, Down);
    var excMac := ListConverted(incProx, UiExcFilterMac, Up);
    var excProx := ListConverted(excMac, UiExcFilterProx, Down);
    ListConvertedSettings(cfg, UiIncFilterMac, Up, k);
    ListConvertedSettings(incMac, UiIncFilterProx, Down, k);
    ListConvertedSettings(incProx, UiExcFilterMac, Up, k);
    ListConvertedSettings(excMac, UiExcFilterProx, Down, k);
    ListConvertedSettings(excProx, IgnoreMac, Up, k);
  }

  /** The normalised user hash holds the user's normalised setting under every key. */
  lemma NormalisedSettings(u: Config, k: Key)
    ensures Lookup(Normalised(u), k) == UserSetting(u, k)
  {
    var rated := RateFixed(u);
    RateFixedSettings(u, k);
    RateFixedSettings(u, UiFilterMode);
    ListsConvertedSettings(rated, k);
    ListsConvertedSettings(rated, UiFilterMode);
  }

  /**
   * DEFAULT_CONFIG merged with the user's non-nil normalised settings and cut
   * down to the default keys holds the effective value of every known key.
   */
  lemma MergeIsEffective(u: Config, c: Config, kept: Config)
    requires forall k :: k in c <==> k in Normalised(u) && Normalised(u)[k] != Nil
    requires forall k :: k in c ==> c[k] == Normalised(u)[k]
    requires kept.Keys == (DEFAULT_CONFIG + c).Keys * DEFAULT_CONFIG.Keys
    requires forall k :: k in kept ==> kept[k] == (DEFAULT_CONFIG + c)[k]
    ensures kept == map k | k in DEFAULT_CONFIG :: EffectiveValue(u, k)
  {
    forall k | k in DEFAULT_CONFIG
      ensures k in kept && kept[k] == EffectiveValue(u, k)
    {
      NormalisedSettings(u, k);
    }
    assert kept.Keys == DEFAULT_CONFIG.Keys;
  }
}
