/**
 * What the loaded configuration promises, stated about ConfigSpec's
 * EffectiveConfig and so, through LoadConfig's contract, about what the
 * loader of lib/blue_hydra.rb:72-101 produces.
 */
module ConfigProperties {
  import opened ConfigValues
  import opened CaseMapping
  import opened ConfigSpec
  import opened LogLevels

  /** A successful load holds, under each known key, that key's effective value. */
  lemma EffectiveAt(u: Config, c: Config, k: Key)
    requires EffectiveConfig(Some(u)) == Success(c)
    requires k in DEFAULT_CONFIG
    ensures FirstFault(u).None?
    ensures k in c && c[k] == EffectiveValue(u, k)
  {
  }

  /** The effective info_scan_rate is 0 or at least 45 seconds; a `false` in the file is kept. */
  lemma ScanRateBounds(file: Option<Config>, c: Config)
    requires EffectiveConfig(file) == Success(c)
    ensures InfoScanRate in c
    ensures c[InfoScanRate].Int? || c[InfoScanRate] == Bool(false)
    ensures c[InfoScanRate].Int? ==> c[InfoScanRate].i == 0 || c[InfoScanRate].i >= MIN_INFO_SCAN_RATE
    ensures file.Some? && Lookup(file.value, InfoScanRate) == Bool(false) ==> c[InfoScanRate] == Bool(false)
  {
    if file.Some? {
      EffectiveAt(file.value, c, InfoScanRate);
    }
  }

  /** An integer rate `r` in the file becomes |r| when that is 0 or at least 45, and 45 otherwise. */
  lemma ScanRateFromFile(u: Config, c: Config, r: int)
    requires EffectiveConfig(Some(u)) == Success(c)
    requires Lookup(u, InfoScanRate) == Int(r)
    ensures c[InfoScanRate] == Int(
      var a := if r < 0 then -r else r;
      if a == 0 || a >= MIN_INFO_SCAN_RATE then a else MIN_INFO_SCAN_RATE)
  {
    EffectiveAt(u, c, InfoScanRate);
  }

  /**
   * A filter list in the file comes out with the same entries in the same
   * order, each put in the list's case.
   */
  lemma FilterListFromFile(u: Config, c: Config, k: Key, items: seq<Value>)
    requires EffectiveConfig(Some(u)) == Success(c)
    requires IsFilterList(k)
    requires Lookup(u, k) == List(items)
    ensures AllStrings(items)
    ensures k in c && c[k].List? && |c[k].items| == |items|
    ensures forall i :: 0 <= i < |items| ==> c[k].items[i] == Str(Convert(CaseFor(k).value, items[i].s))
  {
    DefaultKeys(k);
    EffectiveAt(u, c, k);
    assert ListFault(Lookup(u, k), k, CaseFor(k).value).None?;
  }

  /**
   * Every filter list of a loaded configuration is `false` or a list of
   * strings already in the list's case: upper case MACs, lower case
   * proximity UUIDs. A `false` written in the file is kept.
   */
  lemma FilterListsInCase(file: Option<Config>, c: Config, k: Key)
    requires EffectiveConfig(file) == Success(c)
    requires IsFilterList(k)
    ensures k in c
    ensures c[k] == Bool(false) || (c[k].List? && forall i :: 0 <= i < |c[k].items| ==> c[k].items[i].Str? && InCase(CaseFor(k).value, c[k].items[i].s))
    ensures file.Some? && Lookup(file.value, k) == Bool(false) ==> c[k] == Bool(false)
  {
    DefaultKeys(k);
    if file.Some? {
      var u := file.value;
      EffectiveAt(u, c, k);
      assert ListFault(Lookup(u, k), k, CaseFor(k).value).None?;
      var v := Lookup(u, k);
      if v.List? {
        var cs := CaseFor(k).value;
        assert c[k] == List(Converted(v.items, cs));
        forall i | 0 <= i < |c[k].items| ensures c[k].items[i].Str? && InCase(cs, c[k].items[i].s) {
          assert c[k].items[i] == Str(Convert(cs, v.items[i].s));
        }
      }
    }
  }

  /** A truthy legacy ui_filter_mode overrides ui_inc_filter_mode, whatever the file says there. */
  lemma LegacyModeMigrates(u: Config, c: Config)
    requires EffectiveConfig(Some(u)) == Success(c)
    requires Truthy(Lookup(u, UiFilterMode))
    ensures c[UiIncFilterMode] == Lookup(u, UiFilterMode)
  {
    EffectiveAt(u, c, UiIncFilterMode);
  }

  /** The legacy key and keys BlueHydra does not know never survive a load. */
  lemma OnlyKnownKeys(file: Option<Config>, c: Config, k: Key)
    requires EffectiveConfig(file) == Success(c)
    ensures k in c <==> IsDefaultKey(k)
    ensures UiFilterMode !in c
  {
    DefaultKeys(k);
    DefaultKeys(UiFilterMode);
  }

  /**
   * A key the loader does not rewrite keeps the value the file gives it
   * when that is not nil, and gets its default when the file has nil or
   * nothing there.
   */
  lemma UserValueOrDefault(u: Config, c: Config, k: Key)
    requires EffectiveConfig(Some(u)) == Success(c)
    requires k in DEFAULT_CONFIG
    requires k != InfoScanRate && !IsFilterList(k) && (k == UiIncFilterMode ==> !Truthy(Lookup(u, UiFilterMode)))
    ensures Lookup(u, k) != Nil ==> c[k] == Lookup(u, k)
    ensures Lookup(u, k) == Nil ==> c[k] == DEFAULT_CONFIG[k]
  {
    EffectiveAt(u, c, k);
  }

  /** Nil or missing values fall back to the defaults for every key the file could otherwise rewrite too. */
  lemma NilFallsBackToDefault(u: Config, c: Config, k: Key)
    requires EffectiveConfig(Some(u)) == Success(c)
    requires k in DEFAULT_CONFIG
    requires Lookup(u, k) == Nil
    requires k == UiIncFilterMode ==> !Truthy(Lookup(u, UiFilterMode))
    ensures c[k] == DEFAULT_CONFIG[k]
  {
    EffectiveAt(u, c, k);
  }

  /** A file holding an empty hash loads to the built-in defaults. */
  lemma EmptyHashGivesDefaults()
    ensures EffectiveConfig(Some(map[])) == Success(DEFAULT_CONFIG)
  {
    var u: Config := map[];
    assert FirstFault(u).None?;
    var c := map k | k in DEFAULT_CONFIG :: EffectiveValue(u, k);
    forall k | k in DEFAULT_CONFIG ensures c[k] == DEFAULT_CONFIG[k] {
      assert Lookup(u, k) == Nil;
      assert Lookup(u, UiFilterMode) == Nil;
    }
    assert c == DEFAULT_CONFIG;
  }

  /** None of the five conversions faults exactly when no filter list faults. */
  lemma ListFaultsNoneIffEach(u: Config)
    ensures ListFaults(u).None? <==> forall k :: IsFilterList(k) ==> ListFault(Lookup(u, k), k, CaseFor(k).value).None?
  {
    if ListFaults(u).None? {
      forall k | IsFilterList(k) ensures ListFault(Lookup(u, k), k, CaseFor(k).value).None? {
        if k == UiIncFilterMac {
        } else if k == UiIncFilterProx {
        } else if k == UiExcFilterMac {
        } else if k == UiExcFilterProx {
        } else {
          assert k == IgnoreMac;
        }
      }
    } else {
      assert CaseFor(UiIncFilterMac) == Some(Up) && CaseFor(UiIncFilterProx) == Some(Down);
      assert CaseFor(UiExcFilterMac) == Some(Up) && CaseFor(UiExcFilterProx) == Some(Down);
      assert CaseFor(IgnoreMac) == Some(Up);
    }
  }

  /**
   * The loader raises exactly when info_scan_rate is truthy but not an
   * integer, or some filter list is truthy but not a list of strings.
   */
  lemma FailsExactlyOnBadValues(u: Config)
    ensures EffectiveConfig(Some(u)).Failure? <==>
      (var rate := Lookup(u, InfoScanRate); Truthy(rate) && !rate.Int?) ||
      (exists k :: IsFilterList(k) && ListFault(Lookup(u, k), k, CaseFor(k).value).Some?)
  {
    ListFaultsNoneIffEach(u);
  }

  /**
   * What every loaded configuration looks like: the known keys with non-nil
   * values, a rate that is `false`, 0 or at least 45, and filter lists that
   * are `false` or lists of strings in their case.
   */
  ghost predicate LoadedShape(c: Config) {
    && c.Keys == DEFAULT_CONFIG.Keys
    && (forall k :: k in c ==> c[k] != Nil)
    && (c[InfoScanRate] == Bool(false) || (c[InfoScanRate].Int? && (c[InfoScanRate].i == 0 || c[InfoScanRate].i >= MIN_INFO_SCAN_RATE)))
    && (forall k :: IsFilterList(k) ==> FilterListInCase(c, k))
  }

  /** The filter list `k` of `c` is `false` or a list of strings in its case. */
  ghost predicate FilterListInCase(c: Config, k: Key)
    requires IsFilterList(k) && k in c
  {
    c[k] == Bool(false) || (c[k].List? && forall i :: 0 <= i < |c[k].items| ==> c[k].items[i].Str? && InCase(CaseFor(k).value, c[k].items[i].s))
  }

  lemma LoadedConfigHasShape(file: Option<Config>, c: Config)
    requires EffectiveConfig(file) == Success(c)
    ensures LoadedShape(c)
  {
    ScanRateBounds(file, c);
    forall k | IsFilterList(k) ensures k in c && FilterListInCase(c, k) {
      FilterListsInCase(file, c, k);
    }
  }

  /** A configuration of that shape raises nothing. */
  lemma ShapeHasNoFault(c: Config)
    requires LoadedShape(c)
    ensures FirstFault(c).None?
  {
    assert FilterListInCase(c, UiIncFilterMac);
    assert FilterListInCase(c, UiIncFilterProx);
    assert FilterListInCase(c, UiExcFilterMac);
    assert FilterListInCase(c, UiExcFilterProx);
    assert FilterListInCase(c, IgnoreMac);
  }

  /** In a configuration of that shape every known key is its own effective value. */
  lemma ShapeKeepsValue(c: Config, k: Key)
    requires LoadedShape(c)
    requires k in DEFAULT_CONFIG
    ensures EffectiveValue(c, k) == c[k]
  {
    DefaultKeys(UiFilterMode);
    if IsFilterList(k) {
      assert FilterListInCase(c, k);
      if c[k].List? {
        var cs := CaseFor(k).value;
        var items := c[k].items;
        forall i | 0 <= i < |items| ensures Converted(items, cs)[i] == items[i] {
          ConvertFixesInCase(cs, items[i].s);
        }
        assert Converted(items, cs) == items;
      }
    }
  }

  /** A configuration of that shape loads to itself. */
  lemma ShapeIsStable(c: Config)
    requires LoadedShape(c)
    ensures EffectiveConfig(Some(c)) == Success(c)
  {
    ShapeHasNoFault(c);
    forall k | k in DEFAULT_CONFIG ensures EffectiveValue(c, k) == c[k] {
      ShapeKeepsValue(c, k);
    }
    OwnValuesRebuild(c);
  }

  /** A configuration over the known keys whose every value is its own effective value is rebuilt unchanged. */
  lemma OwnValuesRebuild(c: Config)
    requires c.Keys == DEFAULT_CONFIG.Keys
    requires forall k :: k in DEFAULT_CONFIG ==> EffectiveValue(c, k) == c[k]
    ensures (map k | k in DEFAULT_CONFIG :: EffectiveValue(c, k)) == c
  {
  }

  /**
   * Loading the configuration a load produced gives the same configuration:
   * the values the source writes back to the file are stable.
   */
  lemma ReloadIsStable(file: Option<Config>, c: Config)
    requires EffectiveConfig(file) == Success(c)
    ensures EffectiveConfig(Some(c)) == Success(c)
  {
    LoadedConfigHasShape(file, c);
    ShapeIsStable(c);
  }

  /**
   * The logger level of a successful load: the file's log_level when it
   * names a level, INFO when it has none or names none.
   */
  lemma LevelFromFile(u: Config, c: Config)
    requires EffectiveConfig(Some(u)) == Success(c)
    ensures Lookup(u, LogLevel) != Nil ==> ConfiguredLevel(c) == LevelFor(Lookup(u, LogLevel))
    ensures Lookup(u, LogLevel) == Nil ==> ConfiguredLevel(c) == Info
  {
    EffectiveAt(u, c, LogLevel);
    if Lookup(u, LogLevel) == Nil {
      assert Lookup(c, LogLevel) == Str(Name(Info));
    } else {
      assert Lookup(c, LogLevel) == Lookup(u, LogLevel);
    }
  }
}
