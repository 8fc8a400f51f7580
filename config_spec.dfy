/**
 * What the configuration loader (lib/blue_hydra.rb:72-101) computes, stated
 * key by key rather than step by step: which user file makes it raise, and
 * otherwise which value each known key ends up with.
 */
module ConfigSpec {
  import opened ConfigValues
  import opened CaseMapping

  /** Which of String#upcase! and String#downcase! a filter list gets. */
  datatype Case = Up | Down

  /** The Ruby methods the loader calls on configured values: `abs`, `map`, `upcase!` and `downcase!`. */
  datatype Selector = Abs | MapEach | UpcaseBang | DowncaseBang

  /** The method Ruby calls on each entry of a list converted to case `c`. */
  function CaseSelector(c: Case): Selector {
    match c
    case Up => UpcaseBang
    case Down => DowncaseBang
  }

  function Convert(c: Case, s: string): (r: string)
    ensures |r| == |s|
    ensures c == Up ==> IsUpcased(r)
    ensures c == Down ==> IsDowncased(r)
  {
    match c
    case Up => Upcase(s)
    case Down => Downcase(s)
  }

  /** A string already in case `c`. */
  predicate InCase(c: Case, s: string) {
    match c
    case Up => IsUpcased(s)
    case Down => IsDowncased(s)
  }

  lemma ConvertFixesInCase(c: Case, s: string)
    requires InCase(c, s)
    ensures Convert(c, s) == s
  {
    match c
    case Up => UpcaseFixesUpcased(s);
    case Down => DowncaseFixesDowncased(s);
  }

  /** The case a filter list is put in: upper case for the three MAC lists, lower case for the two proximity lists. */
  function CaseFor(k: Key): Option<Case> {
    match k
    case UiIncFilterMac => Some(Up)
    case UiIncFilterProx => Some(Down)
    case UiExcFilterMac => Some(Up)
    case UiExcFilterProx => Some(Down)
    case IgnoreMac => Some(Up)
    case _ => None
  }

  /** One of the five filter lists whose entries are case-converted. */
  predicate IsFilterList(k: Key) {
    CaseFor(k).Some?
  }

  predicate AllStrings(items: seq<Value>) {
    forall i :: 0 <= i < |items| ==> items[i].Str?
  }

  /** Every entry of a list of strings put in case `c`. */
  function Converted(items: seq<Value>, c: Case): (r: seq<Value>)
    requires AllStrings(items)
    ensures |r| == |items|
    ensures forall i :: 0 <= i < |items| ==> r[i] == Str(Convert(c, items[i].s))
    ensures forall i :: 0 <= i < |r| ==> r[i].Str? && InCase(c, r[i].s)
  {
    seq(|items|, i requires 0 <= i < |items| => Str(Convert(c, items[i].s)))
  }

  /**
   * The effective info_scan_rate for a configured integer rate `r`:
   * absolute value first, then any non-zero rate below the minimum raised to it.
   */
  function ScanRate(r: int): (n: nat)
    ensures n == 0 || n >= MIN_INFO_SCAN_RATE
    ensures n == 0 <==> r == 0
    ensures (r >= MIN_INFO_SCAN_RATE || r <= -MIN_INFO_SCAN_RATE) ==> n == (if r < 0 then -r else r)
    ensures -MIN_INFO_SCAN_RATE < r < MIN_INFO_SCAN_RATE && r != 0 ==> n == MIN_INFO_SCAN_RATE
  {
    var a := if r < 0 then -r else r;
    if a < MIN_INFO_SCAN_RATE && a != 0 then MIN_INFO_SCAN_RATE else a
  }

  /** Ruby raising NoMethodError: the key being handled and the method its value lacks. */
  datatype Fault = NoMethodError(key: Key, selector: Selector)

  /** `.abs` on a truthy info_scan_rate that is not an integer. */
  function RateFault(u: Config): Option<Fault> {
    var v := Lookup(u, InfoScanRate);
    if Truthy(v) && !v.Int? then Some(NoMethodError(InfoScanRate, Abs)) else None
  }

  /** `.map` on a truthy filter value `v` that is not a list, or the case method on an entry that is not a string. */
  function ListFault(v: Value, k: Key, c: Case): Option<Fault> {
    if !Truthy(v) then None
    else if !v.List? then Some(NoMethodError(k, MapEach))
    else if !AllStrings(v.items) then Some(NoMethodError(k, CaseSelector(c)))
    else None
  }

  /** The first fault of the five filter-list conversions, in the order the loader runs them. */
  function ListFaults(u: Config): Option<Fault> {
    ListFault(Lookup(u, UiIncFilterMac), UiIncFilterMac, Up)
      .OrElse(ListFault(Lookup(u, UiIncFilterProx), UiIncFilterProx, Down))
      .OrElse(ListFault(Lookup(u, UiExcFilterMac), UiExcFilterMac, Up))
      .OrElse(ListFault(Lookup(u, UiExcFilterProx), UiExcFilterProx, Down))
      .OrElse(ListFault(Lookup(u, IgnoreMac), IgnoreMac, Up))
  }

  /** The fault the loader raises first: info_scan_rate is handled before the lists. */
  function FirstFault(u: Config): Option<Fault> {
    RateFault(u).OrElse(ListFaults(u))
  }

  /** Whether the legacy ui_filter_mode setting is migrated into ui_inc_filter_mode. */
  predicate Migrates(u: Config) {
    Truthy(Lookup(u, UiFilterMode))
  }

  /** An integer info_scan_rate made effective; anything else is left as it is. */
  function RateSetting(v: Value): Value {
    if v.Int? then Int(ScanRate(v.i)) else v
  }

  /** A filter list with its entries put in case `c`; anything else is left as it is. */
  function ListSetting(v: Value, c: Case): Value {
    if v.List? && AllStrings(v.items) then List(Converted(v.items, c)) else v
  }

  /** The value `v` of key `k` after the filter-list conversions: converted when `k` is a filter list. */
  function FilterSetting(v: Value, k: Key): Value {
    match CaseFor(k)
    case Some(c) => ListSetting(v, c)
    case None => v
  }

  /**
   * The value the user's file supplies for key `k` once it is normalised,
   * Nil when it supplies none.
   */
  function UserSetting(u: Config, k: Key): Value {
    var v := Lookup(u, k);
    if k == UiIncFilterMode then (if Migrates(u) then Lookup(u, UiFilterMode) else v)
    else if k == InfoScanRate then RateSetting(v)
    else FilterSetting(v, k)
  }

  /** The user's normalised value where there is one, the default otherwise. */
  function EffectiveValue(u: Config, k: Key): (v: Value)
    requires k in DEFAULT_CONFIG
    ensures v != Nil
  {
    var s := UserSetting(u, k);
    if s != Nil then s else DEFAULT_CONFIG[k]
  }

  /**
   * The configuration BlueHydra runs with, given the parsed configuration
   * file, or None when there is no file.
   */
  function EffectiveConfig(file: Option<Config>): (r: Result<Config, Fault>)
    ensures r.Success? ==> r.value.Keys == DEFAULT_CONFIG.Keys
    ensures r.Success? ==> forall k :: k in r.value ==> r.value[k] != Nil
    ensures file.None? ==> r == Success(DEFAULT_CONFIG)
    ensures file.Some? ==> (r.Failure? <==> FirstFault(file.value).Some?)
  {
    match file
    case None => Success(DEFAULT_CONFIG)
    case Some(u) =>
      match FirstFault(u)
      case Some(f) => Failure(f)
      case None => Success(map k | k in DEFAULT_CONFIG :: EffectiveValue(u, k))
  }
}
