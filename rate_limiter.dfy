/**
 * The cooldown rate limiter: a state dictionary from `"last_shown_<type>"`
 * to the time that content type was last shown, kept in a JSON file where
 * times are ISO 8601 strings.
 */
module RateLimiting {
  import opened Wrappers
  import opened Json
  import opened Clock

  /** A state value: a `datetime`, or any other JSON value the file held. */
  datatype Stored = Stamp(at: Instant) | Raw(value: Json)

  /** The default cooldown, `CacheDuration.JW_RATE_LIMIT` (minutes). */
  const JwRateLimitMinutes: int := 30
  const JwContentType: string := "jw_daily_text"

  function KeyFor(contentType: string): string
  {
    "last_shown_" + contentType
  }

  lemma KeyForInjective(a: string, b: string)
    ensures KeyFor(a) == KeyFor(b) ==> a == b
  {
    if KeyFor(a) == KeyFor(b) {
      assert a == KeyFor(a)[11..] && b == KeyFor(b)[11..];
    }
  }

  /** The load conversion for one value: a string that parses as an ISO time becomes that time. */
  function Restore(v: Json): Stored
  {
    if v.JStr? && ParseIso(v.s).Some? then Stamp(ParseIso(v.s).value) else Raw(v)
  }

  /** The save conversion for one value: a time becomes its `isoformat()` string. */
  function Persist(v: Stored): Json
  {
    match v
    case Stamp(t) => JStr(IsoFormat(t))
    case Raw(j) => j
  }

  /** A value the loader can produce: a kept raw string is never one that parses as a time. */
  predicate Canonical(v: Stored)
  {
    v.Raw? ==> !(v.value.JStr? && ParseIso(v.value.s).Some?)
  }

  /** The state the loader builds from the file's dictionary; None stands for a missing or unreadable file. */
  function Loaded(file: Option<map<string, Json>>): map<string, Stored>
  {
    match file
    case None => map[]
    case Some(doc) => map k | k in doc :: Restore(doc[k])
  }

  function Saved(state: map<string, Stored>): map<string, Json>
  {
    map k | k in state :: Persist(state[k])
  }

  function ElapsedMicros(now: Instant, last: Instant): int
  {
    Micros(now) - Micros(last)
  }

  /** What `should_show` decides for a state. */
  predicate Available(state: map<string, Stored>, contentType: string, now: Instant, cooldownMinutes: int)
  {
    var k := KeyFor(contentType);
    k !in state || !state[k].Stamp? || ElapsedMicros(now, state[k].at) >= cooldownMinutes * MicrosPerMinute
  }

  /** What `get_time_until_available` returns for a state: whole minutes left, rounded down. */
  function MinutesUntil(state: map<string, Stored>, contentType: string, now: Instant, cooldownMinutes: int): Option<int>
  {
    if Available(state, contentType, now, cooldownMinutes) then None
    else
      var remaining := cooldownMinutes * MicrosPerMinute - ElapsedMicros(now, state[KeyFor(contentType)].at);
      Some(remaining / MicrosPerMinute)
  }

  /** Saving and loading again gives back every state the loader or the limiter can produce. */
  lemma LoadSaveRoundTrip(state: map<string, Stored>)
    requires forall k :: k in state ==> Canonical(state[k])
    ensures Loaded(Some(Saved(state))) == state
  {
    var back := Loaded(Some(Saved(state)));
    forall k | k in state ensures back[k] == state[k] {
      match state[k]
      case Stamp(t) => IsoRoundTrip(t);
      case Raw(j) =>
    }
  }

  /** Marking one content type changes nothing about any other type. */
  lemma MarkShownIsolation(state: map<string, Stored>, marked: string, other: string, now: Instant, at: Instant, cooldownMinutes: int)
    requires other != marked
    ensures Available(state[KeyFor(marked) := Stamp(now)], other, at, cooldownMinutes)
      == Available(state, other, at, cooldownMinutes)
    ensures MinutesUntil(state[KeyFor(marked) := Stamp(now)], other, at, cooldownMinutes)
      == MinutesUntil(state, other, at, cooldownMinutes)
  {
    KeyForInjective(marked, other);
  }

  class RateLimiter {
    var state: map<string, Stored>

    ghost predicate Valid()
      reads this
    {
      forall k :: k in state ==> Canonical(state[k])
    }

    /** `__init__` with `_load_state`: every string value that parses as a time is turned into that time. */
    constructor (file: Option<map<string, Json>>)
      ensures Valid()
      ensures state == Loaded(file)
    {
      var data: map<string, Stored> := map[];
      if file.Some? {
        var doc := file.value;
        var todo := doc.Keys;
        while todo != {}
          invariant todo <= doc.Keys
          invariant data == map k | k in doc.Keys - todo :: Restore(doc[k])
          decreases |todo|
        {
          var k :| k in todo;
          data := data[k := Restore(doc[k])];
          todo := todo - {k};
        }
      }
      state := data;
    }

    /** `_save_state`: the document written to the file. */
    method SaveState() returns (doc: map<string, Json>)
      ensures doc == Saved(state)
      ensures forall k :: k in state && state[k].Stamp? ==> doc[k] == JStr(IsoFormat(state[k].at))
      ensures forall k :: k in state && state[k].Raw? ==> doc[k] == state[k].value
    {
      doc := map[];
      var todo := state.Keys;
      while todo != {}
        invariant todo <= state.Keys
        invariant doc == map k | k in state.Keys - todo :: Persist(state[k])
        decreases |todo|
      {
        var k :| k in todo;
        doc := doc[k := Persist(state[k])];
        todo := todo - {k};
      }
    }

    /** `should_show`. */
    method ShouldShow(contentType: string, cooldownMinutes: int, now: Instant) returns (show: bool)
      ensures show == Available(state, contentType, now, cooldownMinutes)
      ensures KeyFor(contentType) !in state ==> show
      ensures KeyFor(contentType) in state && !state[KeyFor(contentType)].Stamp? ==> show
      ensures KeyFor(contentType) in state && state[KeyFor(contentType)].Stamp? ==>
        (show <==> Micros(now) - Micros(state[KeyFor(contentType)].at) >= cooldownMinutes * 60 * MicrosPerSecond)
    {
      var key := KeyFor(contentType);
      if key !in state {
        return true;
      }
      var last := state[key];
      if !last.Stamp? {
        return true;
      }
      show := ElapsedMicros(now, last.at) >= cooldownMinutes * MicrosPerMinute;
    }

    /** `mark_shown`: stamps the one key with `now`, then saves. */
    method MarkShown(contentType: string, now: Instant) returns (doc: map<string, Json>)
      requires Valid()
      modifies this
      ensures Valid()
      ensures state == old(state)[KeyFor(contentType) := Stamp(now)]
      ensures forall c :: c > 0 ==> !Available(state, contentType, now, c)
      ensures doc == Saved(state)
    {
      state := state[KeyFor(contentType) := Stamp(now)];
      doc := SaveState();
    }

    /** `get_time_until_available`. */
    method TimeUntilAvailable(contentType: string, cooldownMinutes: int, now: Instant) returns (minutes: Option<int>)
      ensures minutes == MinutesUntil(state, contentType, now, cooldownMinutes)
      ensures minutes.None? <==> Available(state, contentType, now, cooldownMinutes)
      ensures minutes.Some? ==> var last := state[KeyFor(contentType)].at;
        && minutes.value * MicrosPerMinute <= cooldownMinutes * MicrosPerMinute - ElapsedMicros(now, last)
        && cooldownMinutes * MicrosPerMinute - ElapsedMicros(now, last) < (minutes.value + 1) * MicrosPerMinute
      ensures minutes.Some? && Micros(now) >= Micros(state[KeyFor(contentType)].at) ==>
        0 <= minutes.value <= cooldownMinutes
    {
      var key := KeyFor(contentType);
      if key !in state {
        return None;
      }
      var last := state[key];
      if !last.Stamp? {
        return None;
      }
      var elapsed := ElapsedMicros(now, last.at);
      var cooldown := cooldownMinutes * MicrosPerMinute;
      if elapsed >= cooldown {
        return None;
      }
      var remaining := cooldown - elapsed;
      minutes := Some(remaining / MicrosPerMinute);
      if elapsed >= 0 {
        assert remaining <= cooldown;
        DivBound(remaining, cooldownMinutes);
      }
    }

    /** `reset`: a non-empty type removes that one key; None or `""` (both falsy) empties the whole state. */
    method Reset(contentType: Option<string>) returns (doc: map<string, Json>)
      requires Valid()
      modifies this
      ensures Valid()
      ensures contentType.Some? && contentType.value != "" ==> state == old(state) - {KeyFor(contentType.value)}
      ensures contentType.None? || contentType.value == "" ==> state == map[]
      ensures doc == Saved(state)
    {
      if contentType.Some? && contentType.value != "" {
        var key := KeyFor(contentType.value);
        if key in state {
          state := state - {key};
        }
      } else {
        state := map[];
      }
      doc := SaveState();
    }
  }

  lemma DivBound(remaining: int, cooldownMinutes: int)
    requires 0 < remaining <= cooldownMinutes * MicrosPerMinute
    ensures 0 <= remaining / MicrosPerMinute <= cooldownMinutes
  {
  }

  /** `should_show_jw_content`: an explicit cooldown wins over the configured one. */
  method ShouldShowJwContent(limiter: RateLimiter, cooldownMinutes: Option<int>, configuredMinutes: int, now: Instant)
    returns (show: bool)
    ensures show == Available(limiter.state, JwContentType, now, cooldownMinutes.GetOr(configuredMinutes))
  {
    var minutes := if cooldownMinutes.Some? then cooldownMinutes.value else configuredMinutes;
    show := limiter.ShouldShow(JwContentType, minutes, now);
  }

  /** `mark_jw_content_shown`. */
  method MarkJwContentShown(limiter: RateLimiter, now: Instant) returns (doc: map<string, Json>)
    requires limiter.Valid()
    modifies limiter
    ensures limiter.Valid()
    ensures limiter.state == old(limiter.state)[KeyFor(JwContentType) := Stamp(now)]
    ensures doc == Saved(limiter.state)
  {
    doc := limiter.MarkShown(JwContentType, now);
  }
}
