/**
 * Configuration: a default document (or a built-in fallback) merged with an
 * optional user document, read through dot-separated paths inside the
 * `"mood_lifter_hooks"` section. Where the Python code would raise (calling
 * `.get` on a non-dictionary, comparing a number with a string, `len` of a
 * number), the model returns None.
 */
module Configuration {
  import opened Wrappers
  import opened Text
  import opened Json
  import Clock

  // ---------------------------------------------------------------- merging

  /** What merging puts under a key, given the base's and the override's values there. */
  function MergedValue(b: Option<Json>, o: Json): Json
    decreases o, if o.JObj? then |o.fields| + 1 else 0
  {
    if b.Some? && b.value.JObj? && o.JObj? then JObj(MergeFrom(b.value.fields, o, 0)) else o
  }

  /** The merge loop from the `i`-th key of the override dictionary `over` on. */
  function MergeFrom(base: Fields, over: Json, i: nat): Fields
    requires over.JObj? && i <= |over.fields|
    decreases over, |over.fields| - i
  {
    if i == |over.fields| then base
    else
      var (k, v) := over.fields[i];
      MergeFrom(Put(base, k, MergedValue(Lookup(base, k), v)), over, i + 1)
  }

  /** `_merge_configs(base, override)`: override keys in order, recursing where both values are dictionaries. */
  function MergeFields(base: Fields, over: Fields): Fields
  {
    MergeFrom(base, JObj(over), 0)
  }

  lemma {:induction false} MergeFromKeys(base: Fields, over: Json, i: nat)
    requires over.JObj? && i <= |over.fields|
    ensures Keys(MergeFrom(base, over, i)) == Keys(base) + Keys(over.fields[i..])
    decreases |over.fields| - i
  {
    if i < |over.fields| {
      var (k, v) := over.fields[i];
      MergeFromKeys(Put(base, k, MergedValue(Lookup(base, k), v)), over, i + 1);
      assert over.fields[i..][1..] == over.fields[i + 1..];
    }
  }

  /** The merged dictionary has exactly the keys of both. */
  lemma MergeKeys(base: Fields, over: Fields)
    ensures Keys(MergeFields(base, over)) == Keys(base) + Keys(over)
  {
    MergeFromKeys(base, JObj(over), 0);
    assert over[0..] == over;
  }

  lemma {:induction false} MergeFromLookup(base: Fields, over: Json, i: nat, k: string)
    requires over.JObj? && i <= |over.fields| && DistinctKeys(over.fields[i..])
    ensures Lookup(over.fields[i..], k).None? ==> Lookup(MergeFrom(base, over, i), k) == Lookup(base, k)
    ensures Lookup(over.fields[i..], k).Some? ==>
      Lookup(MergeFrom(base, over, i), k) == Some(MergedValue(Lookup(base, k), Lookup(over.fields[i..], k).value))
    decreases |over.fields| - i
  {
    if i < |over.fields| {
      var (k0, v) := over.fields[i];
      var step := Put(base, k0, MergedValue(Lookup(base, k0), v));
      assert over.fields[i..][1..] == over.fields[i + 1..];
      MergeFromLookup(step, over, i + 1, k);
      LookupKeys(over.fields[i + 1..], k0);
    }
  }

  /**
   * Key by key: a key only in the base keeps its base value; a key of the
   * override gets the override's value, or the recursive merge when both
   * values are dictionaries.
   */
  lemma MergeLookup(base: Fields, over: Fields, k: string)
    requires DistinctKeys(over)
    ensures Lookup(over, k).None? ==> Lookup(MergeFields(base, over), k) == Lookup(base, k)
    ensures Lookup(over, k).Some? ==>
      Lookup(MergeFields(base, over), k) == Some(MergedValue(Lookup(base, k), Lookup(over, k).value))
  {
    assert over[0..] == over;
    MergeFromLookup(base, JObj(over), 0, k);
  }

  /** Merging with an empty override gives the base back. */
  lemma MergeEmpty(base: Fields)
    ensures MergeFields(base, []) == base
  {
  }

  // ---------------------------------------------------------------- dot paths

  /** `get`'s loop: walk the keys through nested dictionaries; a missing or `null` value, or a non-dictionary on the way, gives the default. */
  function Walk(v: Json, keys: seq<string>, default: Json): Json
    decreases keys
  {
    if |keys| == 0 then v
    else if !v.JObj? then default
    else
      var next := Lookup(v.fields, keys[0]);
      if next.None? || next.value == JNull then default else Walk(next.value, keys[1..], default)
  }

  /** The value a path leads to, when every step is a dictionary holding a non-`null` value. */
  function At(v: Json, keys: seq<string>): Option<Json>
    decreases keys
  {
    if |keys| == 0 then Some(v)
    else if !v.JObj? then None
    else
      var next := Lookup(v.fields, keys[0]);
      if next.None? || next.value == JNull then None else At(next.value, keys[1..])
  }

  /** `get` returns the value at the path whenever there is one, however falsy (`False`, `0`, `""`), and the default only when there is none. */
  lemma {:induction false} WalkAt(v: Json, keys: seq<string>, default: Json)
    decreases keys
    ensures At(v, keys).Some? ==> Walk(v, keys, default) == At(v, keys).value
    ensures At(v, keys).None? ==> Walk(v, keys, default) == default
  {
    if |keys| > 0 && v.JObj? {
      var next := Lookup(v.fields, keys[0]);
      if next.Some? && next.value != JNull {
        WalkAt(next.value, keys[1..], default);
      }
    }
  }

  // ---------------------------------------------------------------- fallback document

  /** `_get_fallback_config`. */
  function FallbackConfig(): Fields
  {
    [("mood_lifter_hooks", JObj(FallbackSection()))]
  }

  function FallbackSection(): Fields
  {
    [ ("enabled", JBool(true)),
      ("ollama", JObj(FallbackOllama())),
      ("message_sources", JObj([("weights", JObj([("default", JNum(100.0))]))])),
      ("events", JObj(FallbackEvents())),
      ("display", JObj(FallbackDisplay())) ]
  }

  function FallbackOllama(): Fields
  {
    [ ("enabled", JBool(true)),
      ("use_variety", JBool(false)),
      ("preferred_models", JArr([JStr("phi3.5:3.8b")])),
      ("timeout", JNum(5.0)) ]
  }

  function FallbackEvents(): Fields
  {
    [ ("SessionStart", JObj([("enabled", JBool(true)), ("probability", JNum(1.0))])),
      ("Stop", JObj([("enabled", JBool(true)), ("probability", JNum(1.0))])),
      ("Notification", JObj([("enabled", JBool(true)), ("probability", JNum(1.0))])) ]
  }

  function FallbackDisplay(): Fields
  {
    [ ("max_length", JNum(120.0)),
      ("include_emojis", JBool(true)),
      ("suppress_errors", JBool(true)) ]
  }

  /** The settings read through the getters of `Config`. */
  datatype Setting =
    | Enabled | OllamaEnabled | OllamaUseVariety | PreferredModels | OllamaTimeout
    | SourceWeights | JwEnabled | JwRateLimitMinutes | ExternalApisEnabled
    | TimePreferences | MaxMessageLength | IncludeEmojis | SuppressErrors | DebugEnabled

  /** The dot-separated path each getter passes to `get`, already split at its dots. */
  function KeysOf(s: Setting): (keys: seq<string>)
    ensures |keys| >= 1 && forall k :: 0 <= k < |keys| ==> '.' !in keys[k]
  {
    match s
    case Enabled => ["enabled"]
    case OllamaEnabled => ["ollama", "enabled"]
    case OllamaUseVariety => ["ollama", "use_variety"]
    case PreferredModels => ["ollama", "preferred_models"]
    case OllamaTimeout => ["ollama", "timeout"]
    case SourceWeights => ["message_sources", "weights"]
    case JwEnabled => ["message_sources", "jw", "enabled"]
    case JwRateLimitMinutes => ["message_sources", "jw", "rate_limit_minutes"]
    case ExternalApisEnabled => ["message_sources", "external_apis", "enabled"]
    case TimePreferences => ["time_preferences"]
    case MaxMessageLength => ["display", "max_length"]
    case IncludeEmojis => ["display", "include_emojis"]
    case SuppressErrors => ["display", "suppress_errors"]
    case DebugEnabled => ["debug", "enabled"]
  }

  /** The key path text, e.g. `"ollama.use_variety"`. */
  function PathOf(s: Setting): string
  {
    Join(KeysOf(s), ".")
  }

  /** Splitting a getter's path text at its dots gives its keys. */
  lemma PathKeys(s: Setting)
    ensures Split(PathOf(s), '.') == KeysOf(s)
  {
    JoinSplit(KeysOf(s), '.');
  }

  function DefaultOf(s: Setting): Json
  {
    match s
    case Enabled => JBool(true)
    case OllamaEnabled => JBool(true)
    case OllamaUseVariety => JBool(true)
    case PreferredModels => JArr([JStr("phi3.5:3.8b")])
    case OllamaTimeout => JNum(5.0)
    case SourceWeights => JObj([("default", JNum(100.0))])
    case JwEnabled => JBool(true)
    case JwRateLimitMinutes => JNum(30.0)
    case ExternalApisEnabled => JBool(true)
    case TimePreferences => JObj([])
    case MaxMessageLength => JNum(120.0)
    case IncludeEmojis => JBool(true)
    case SuppressErrors => JBool(true)
    case DebugEnabled => JBool(false)
  }

  /** The section every path is read from: `config.get("mood_lifter_hooks", {})`. */
  function Section(config: Fields): Json
  {
    Lookup(config, "mood_lifter_hooks").GetOr(JObj([]))
  }

  /** A getter's value for a configuration document. */
  function SettingIn(config: Fields, s: Setting): Json
  {
    Walk(Section(config), KeysOf(s), DefaultOf(s))
  }

  // ---------------------------------------------------------------- events and time periods

  /** A JSON value used as a number in a comparison (`bool` is an `int` in Python); None where comparing raises `TypeError`. */
  function Number(j: Json): Option<real>
  {
    match j
    case JNum(n) => Some(n)
    case JBool(b) => Some(if b then 1.0 else 0.0)
    case _ => None
  }

  /** `len(j)`, None where it raises. */
  function Length(j: Json): Option<nat>
  {
    match j
    case JStr(s) => Some(|s|)
    case JArr(xs) => Some(|xs|)
    case JObj(fs) => Some(|fs|)
    case _ => None
  }

  /** `get_event_config(event)`. */
  function EventConfig(config: Fields, event: string): Json
  {
    Walk(Section(config), Split("events." + event, '.'), JObj([]))
  }

  /**
   * `should_show_message` for a draw of `random.random()`: false when the event
   * is disabled, otherwise `draw < probability`; a missing event means enabled
   * with probability 1.0. None when the Python code raises.
   */
  function ShowMessage(config: Fields, event: string, draw: real): (r: Option<bool>)
    requires 0.0 <= draw < 1.0
    ensures EventConfig(config, event) == JObj([]) ==> r == Some(true)
    ensures var ec := EventConfig(config, event);
      ec.JObj? && !Truthy(Get(ec, "enabled", JBool(true))) ==> r == Some(false)
    ensures var ec := EventConfig(config, event);
      ec.JObj? && Truthy(Get(ec, "enabled", JBool(true))) && Number(Get(ec, "probability", JNum(1.0))).Some? ==>
        r == Some(draw < Number(Get(ec, "probability", JNum(1.0))).value)
    ensures !EventConfig(config, event).JObj? ==> r.None?
  {
    var ec := EventConfig(config, event);
    if !ec.JObj? then None
    else if !Truthy(Get(ec, "enabled", JBool(true))) then Some(false)
    else
      match Number(Get(ec, "probability", JNum(1.0)))
      case None => None
      case Some(p) => Some(draw < p)
  }

  /** How one entry of `time_preferences` answers for an hour. */
  datatype Scan = Raises | Found(period: string) | NoMatch

  function EntryScan(period: string, cfg: Json, hour: int): Scan
  {
    if !cfg.JObj? then Raises
    else
      var hours := Get(cfg, "hours", JArr([]));
      match Length(hours)
      case None => Raises
      case Some(n) =>
        if n < 2 then NoMatch
        else if !hours.JArr? then Raises
        else
          match Number(hours.items[0])
          case None => Raises
          case Some(start) =>
            if !(start <= hour as real) then NoMatch
            else
              match Number(hours.items[1])
              case None => Raises
              case Some(end) => if hour as real < end then Found(period) else NoMatch
  }

  /** The loop of `get_current_time_period` over the configured periods, in order. */
  function ScanPeriods(prefs: Fields, hour: int): Scan
  {
    if |prefs| == 0 then NoMatch
    else
      var first := EntryScan(prefs[0].0, prefs[0].1, hour);
      if first.NoMatch? then ScanPeriods(prefs[1..], hour) else first
  }

  /** The scan finds the first period whose hours contain the hour, after entries that neither match nor raise. */
  lemma {:induction false} ScanFirstMatch(prefs: Fields, hour: int)
    ensures ScanPeriods(prefs, hour).Found? ==>
      exists i :: 0 <= i < |prefs| && EntryScan(prefs[i].0, prefs[i].1, hour) == ScanPeriods(prefs, hour)
        && prefs[i].0 == ScanPeriods(prefs, hour).period
        && forall j :: 0 <= j < i ==> EntryScan(prefs[j].0, prefs[j].1, hour).NoMatch?
    ensures ScanPeriods(prefs, hour).NoMatch? <==> forall j :: 0 <= j < |prefs| ==> EntryScan(prefs[j].0, prefs[j].1, hour).NoMatch?
  {
    if |prefs| > 0 {
      ScanFirstMatch(prefs[1..], hour);
      var first := EntryScan(prefs[0].0, prefs[0].1, hour);
      if first.NoMatch? {
        if ScanPeriods(prefs, hour).Found? {
          var i :| 0 <= i < |prefs[1..]| && EntryScan(prefs[1..][i].0, prefs[1..][i].1, hour) == ScanPeriods(prefs, hour)
            && prefs[1..][i].0 == ScanPeriods(prefs, hour).period
            && forall j :: 0 <= j < i ==> EntryScan(prefs[1..][j].0, prefs[1..][j].1, hour).NoMatch?;
          assert EntryScan(prefs[i + 1].0, prefs[i + 1].1, hour) == ScanPeriods(prefs, hour);
          forall j | 0 <= j < i + 1 ensures EntryScan(prefs[j].0, prefs[j].1, hour).NoMatch? {
            if j > 0 { assert prefs[j] == prefs[1..][j - 1]; }
          }
        }
        if forall j :: 0 <= j < |prefs[1..]| ==> EntryScan(prefs[1..][j].0, prefs[1..][j].1, hour).NoMatch? {
          forall j | 0 <= j < |prefs| ensures EntryScan(prefs[j].0, prefs[j].1, hour).NoMatch? {
            if j > 0 { assert prefs[j] == prefs[1..][j - 1]; }
          }
        }
      } else {
        if first.Found? { assert EntryScan(prefs[0].0, prefs[0].1, hour) == first; }
        assert !EntryScan(prefs[0].0, prefs[0].1, hour).NoMatch?;
      }
    }
  }

  /** `get_current_time_period(hour)`: a configured period, else the fixed buckets; None when the Python code raises. */
  function PeriodFor(config: Fields, hour: int): Option<string>
  {
    var prefs := Walk(Section(config), ["time_preferences"], JObj([]));
    if !prefs.JObj? then None
    else
      match ScanPeriods(prefs.fields, hour)
      case Raises => None
      case Found(p) => Some(p)
      case NoMatch => Some(Clock.DayPeriod(hour))
  }

  /** Without configured periods, the period follows the fixed buckets 5-11, 12-16 and the rest. */
  lemma {:induction false} PeriodFallback(config: Fields, hour: int)
    requires At(Section(config), ["time_preferences"]).None?
    ensures PeriodFor(config, hour) == Some(Clock.DayPeriod(hour))
  {
    WalkAt(Section(config), ["time_preferences"], JObj([]));
  }

  /**
   * An entry the scan has read is a dictionary (reading any other value raises), so
   * the entry of the period it returns, found or falling back, is a dictionary.
   */
  lemma {:induction false} ScannedEntryIsObject(prefs: Fields, hour: int, key: string)
    requires ScanPeriods(prefs, hour).NoMatch? || ScanPeriods(prefs, hour) == Found(key)
    requires Lookup(prefs, key).Some?
    ensures Lookup(prefs, key).value.JObj?
  {
    if |prefs| > 0 && prefs[0].0 != key {
      ScannedEntryIsObject(prefs[1..], hour, key);
    }
  }

  /**
   * `get_preferred_sources_for_time(hour)`: the `prefer_sources` of the configured
   * entry of the period, `["default"]` when the entry has none or the period has no entry.
   */
  function PreferredSources(config: Fields, hour: int): (r: Option<Json>)
    ensures PeriodFor(config, hour).None? <==> r.None?
    ensures var prefs := Walk(Section(config), ["time_preferences"], JObj([]));
      PeriodFor(config, hour).Some? && Lookup(prefs.fields, PeriodFor(config, hour).value).None? ==>
        r == Some(JArr([JStr("default")]))
    ensures var prefs := Walk(Section(config), ["time_preferences"], JObj([]));
      PeriodFor(config, hour).Some? && Lookup(prefs.fields, PeriodFor(config, hour).value).Some? ==>
        var entry := Lookup(prefs.fields, PeriodFor(config, hour).value).value;
        && entry.JObj?
        && r == Some(Lookup(entry.fields, "prefer_sources").GetOr(JArr([JStr("default")])))
  {
    match PeriodFor(config, hour)
    case None => None
    case Some(p) =>
      var prefs := Walk(Section(config), ["time_preferences"], JObj([]));
      match Lookup(prefs.fields, p)
      case Some(entry) =>
        ScannedEntryIsObject(prefs.fields, hour, p);
        Some(Get(entry, "prefer_sources", JArr([JStr("default")])))
      case None => Some(JArr([JStr("default")]))
  }

  // ---------------------------------------------------------------- the object

  class Config {
    var config: Fields

    /** `__init__`: the default document, or the fallback when it cannot be read, then the user document merged in. */
    constructor (defaults: Option<Fields>, user: Option<Json>)
      ensures var base := defaults.GetOr(FallbackConfig());
        config == if user.Some? && user.value.JObj? then MergeFields(base, user.value.fields) else base
    {
      config := defaults.GetOr(FallbackConfig());
      new;
      LoadUserConfig(user);
    }

    /** `_load_user_config`: a document that is not a dictionary makes the merge raise, and the configuration stays as it was. */
    method LoadUserConfig(user: Option<Json>)
      modifies this
      ensures config == if user.Some? && user.value.JObj? then MergeFields(old(config), user.value.fields) else old(config)
    {
      if user.Some? && user.value.JObj? {
        config := MergeConfigs(config, user.value.fields);
      }
    }

    /** `get(key_path, default)`. */
    method Get(keyPath: string, default: Json) returns (value: Json)
      ensures value == Walk(Section(config), Split(keyPath, '.'), default)
      ensures At(Section(config), Split(keyPath, '.')).Some? ==> value == At(Section(config), Split(keyPath, '.')).value
      ensures At(Section(config), Split(keyPath, '.')).None? ==> value == default
    {
      var keys := Split(keyPath, '.');
      WalkAt(Section(config), keys, default);
      value := Section(config);
      var i := 0;
      while i < |keys|
        invariant 0 <= i <= |keys|
        invariant Walk(value, keys[i..], default) == Walk(Section(config), keys, default)
      {
        if value.JObj? {
          var next := Lookup(value.fields, keys[i]);
          if next.None? || next.value == JNull {
            return default;
          }
          value := next.value;
        } else {
          return default;
        }
        i := i + 1;
      }
    }

    /** The getters `is_enabled` ... `is_debug_enabled`. */
    function Value(s: Setting): Json
      reads this
    {
      SettingIn(config, s)
    }

    /** `get_current_time_period` for the hour of the current time. */
    method CurrentTimePeriod(hour: int) returns (period: Option<string>)
      ensures period == PeriodFor(config, hour)
    {
      var prefs := Walk(Section(config), ["time_preferences"], JObj([]));
      if !prefs.JObj? {
        return None;
      }
      var entries := prefs.fields;
      var i := 0;
      while i < |entries|
        invariant 0 <= i <= |entries|
        invariant ScanPeriods(entries[i..], hour) == ScanPeriods(entries, hour)
      {
        var r := EntryScan(entries[i].0, entries[i].1, hour);
        assert entries[i..][1..] == entries[i + 1..];
        if r.Raises? {
          return None;
        } else if r.Found? {
          return Some(r.period);
        }
        i := i + 1;
      }
      period := Some(Clock.DayPeriod(hour));
    }
  }

  /** `_merge_configs`: a copy of the base, then each override key in turn. */
  method MergeConfigs(base: Fields, over: Fields) returns (result: Fields)
    ensures result == MergeFields(base, over)
    decreases JObj(over)
  {
    result := base;
    var i := 0;
    while i < |over|
      invariant 0 <= i <= |over|
      invariant MergeFrom(result, JObj(over), i) == MergeFields(base, over)
    {
      var (key, value) := over[i];
      var current := Lookup(result, key);
      if current.Some? && current.value.JObj? && value.JObj? {
        assert value == JObj(value.fields);
        var merged := MergeConfigs(current.value.fields, value.fields);
        result := Put(result, key, JObj(merged));
      } else {
        result := Put(result, key, value);
      }
      i := i + 1;
    }
  }


  lemma FallbackOllamaValues()
    ensures Lookup(FallbackOllama(), "enabled") == Some(JBool(true))
    ensures Lookup(FallbackOllama(), "use_variety") == Some(JBool(false))
    ensures Lookup(FallbackOllama(), "preferred_models") == Some(JArr([JStr("phi3.5:3.8b")]))
    ensures Lookup(FallbackOllama(), "timeout") == Some(JNum(5.0))
  {
  }

  lemma FallbackSectionOf()
    ensures Section(FallbackConfig()) == JObj(FallbackSection())
  {
  }

  /** What the fallback document gives the ollama flags; `use_variety` is `False` there although the getter's own default is `True`. */
  lemma FallbackOllamaFlags()
    ensures SettingIn(FallbackConfig(), OllamaEnabled) == JBool(true)
    ensures SettingIn(FallbackConfig(), OllamaUseVariety) == JBool(false)
  {
    FallbackSectionOf();
    FallbackOllamaValues();
    assert Lookup(FallbackSection(), "ollama") == Some(JObj(FallbackOllama()));
  }

  /** What the fallback document gives the model list and the timeout. */
  lemma FallbackOllamaModels()
    ensures SettingIn(FallbackConfig(), PreferredModels) == JArr([JStr("phi3.5:3.8b")])
    ensures SettingIn(FallbackConfig(), OllamaTimeout) == JNum(5.0)
  {
    FallbackSectionOf();
    FallbackOllamaValues();
    assert Lookup(FallbackSection(), "ollama") == Some(JObj(FallbackOllama()));
  }

  /** Keys the fallback document sets, and keys it leaves to the getters' defaults. */
  lemma FallbackOtherSettings()
    ensures SettingIn(FallbackConfig(), Enabled) == JBool(true)
    ensures SettingIn(FallbackConfig(), SourceWeights) == JObj([("default", JNum(100.0))])
  {
    FallbackSectionOf();
  }

  lemma FallbackJwSettings()
    ensures SettingIn(FallbackConfig(), JwEnabled) == JBool(true)
    ensures SettingIn(FallbackConfig(), JwRateLimitMinutes) == JNum(30.0)
  {
    FallbackSectionOf();
  }

  /** Keys the fallback document leaves to the getters' defaults. */
  lemma FallbackExternalApis()
    ensures SettingIn(FallbackConfig(), ExternalApisEnabled) == JBool(true)
  {
    FallbackSectionOf();
  }

  lemma FallbackTimePreferences()
    ensures SettingIn(FallbackConfig(), TimePreferences) == JObj([])
  {
    FallbackSectionOf();
  }

  lemma FallbackDebug()
    ensures SettingIn(FallbackConfig(), DebugEnabled) == JBool(false)
  {
    FallbackSectionOf();
  }

  /** The display section of the fallback document. */
  lemma FallbackMaxLength()
    ensures SettingIn(FallbackConfig(), MaxMessageLength) == JNum(120.0)
  {
    FallbackSectionOf();
    assert Lookup(FallbackSection(), "display") == Some(JObj(FallbackDisplay()));
  }

  lemma FallbackIncludeEmojis()
    ensures SettingIn(FallbackConfig(), IncludeEmojis) == JBool(true)
  {
    FallbackSectionOf();
    assert Lookup(FallbackSection(), "display") == Some(JObj(FallbackDisplay()));
  }

  lemma FallbackSuppressErrors()
    ensures SettingIn(FallbackConfig(), SuppressErrors) == JBool(true)
  {
    FallbackSectionOf();
    assert Lookup(FallbackSection(), "display") == Some(JObj(FallbackDisplay()));
  }
}
