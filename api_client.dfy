/**
 * The HTTP client wrapper: URL resolution against an optional base URL, a
 * TTL response cache keyed by a hash of the URL and its sorted parameters,
 * and the cache discipline around GET; POST bypasses the cache.
 * Times are whole seconds; the network outcome of a request is a parameter.
 */
module ApiIntegrations {
  import opened Wrappers
  import opened Text
  import opened Json

  /** A cached response and the second at which it expires. */
  datatype CacheEntry = CacheEntry(data: Json, expiresAt: int)
  {
    /** `is_expired`: strictly after `expires_at`, so an entry is still good at that very second. */
    predicate IsExpired(now: int)
    {
      now > expiresAt
    }
  }

  // ---------------------------------------------------------------- cache keys

  /** Python's `<` on strings: lexicographic by code point. */
  predicate StrLess(a: string, b: string)
  {
    if |a| == 0 then |b| > 0
    else if |b| == 0 then false
    else if a[0] != b[0] then a[0] < b[0]
    else StrLess(a[1..], b[1..])
  }

  lemma {:induction false} StrLessAsym(a: string, b: string)
    ensures StrLess(a, b) ==> !StrLess(b, a)
    ensures !StrLess(a, a)
  {
    if |a| > 0 && |b| > 0 && a[0] == b[0] { StrLessAsym(a[1..], b[1..]); }
    if |a| > 0 { StrLessAsym(a[1..], a[1..]); }
  }

  lemma {:induction false} StrLessTotal(a: string, b: string)
    ensures a == b || StrLess(a, b) || StrLess(b, a)
  {
    if |a| > 0 && |b| > 0 && a[0] == b[0] {
      StrLessTotal(a[1..], b[1..]);
      if a[1..] == b[1..] { assert a == [a[0]] + a[1..] && b == [b[0]] + b[1..]; }
    }
  }

  lemma {:induction false} StrLessTrans(a: string, b: string, c: string)
    requires StrLess(a, b) && StrLess(b, c)
    ensures StrLess(a, c)
  {
    if |a| > 0 && a[0] == b[0] && b[0] == c[0] { StrLessTrans(a[1..], b[1..], c[1..]); }
  }

  predicate DistinctParamKeys(p: seq<(string, string)>)
  {
    forall i, j :: 0 <= i < j < |p| ==> p[i].0 != p[j].0
  }

  /** Query parameters: a dictionary from names to string values. */
  type Params = p: seq<(string, string)> | DistinctParamKeys(p) witness []

  predicate SortedByKey(p: seq<(string, string)>)
  {
    forall i, j :: 0 <= i < j < |p| ==> StrLess(p[i].0, p[j].0)
  }

  function Insert(x: (string, string), s: seq<(string, string)>): (r: seq<(string, string)>)
    ensures multiset(r) == multiset(s) + multiset{x}
  {
    if |s| == 0 || !StrLess(s[0].0, x.0) then [x] + s
    else
      assert s == [s[0]] + s[1..];
      [s[0]] + Insert(x, s[1..])
  }

  lemma {:induction false} InsertSorted(x: (string, string), s: seq<(string, string)>)
    requires SortedByKey(s)
    requires forall i :: 0 <= i < |s| ==> s[i].0 != x.0
    ensures SortedByKey(Insert(x, s))
  {
    if |s| > 0 {
      StrLessTotal(s[0].0, x.0);
      if StrLess(s[0].0, x.0) {
        InsertSorted(x, s[1..]);
        var r := Insert(x, s);
        var tail := Insert(x, s[1..]);
        assert r == [s[0]] + tail;
        forall j | 0 <= j < |tail| ensures StrLess(s[0].0, tail[j].0) {
          assert tail[j] in multiset(tail);
          assert tail[j] in multiset(s[1..]) + multiset{x};
          if tail[j] != x {
            assert tail[j] in multiset(s[1..]);
            var k :| 0 <= k < |s[1..]| && s[1..][k] == tail[j];
            assert s[k + 1] == tail[j];
          }
        }
      } else {
        forall j | 0 <= j < |s| ensures StrLess(x.0, s[j].0) {
          if j > 0 { StrLessTrans(x.0, s[0].0, s[j].0); }
        }
      }
    }
  }

  /** The pairs ordered by key, as `json.dumps(..., sort_keys=True)` writes them. */
  function SortPairs(p: seq<(string, string)>): (r: seq<(string, string)>)
    ensures multiset(r) == multiset(p)
  {
    if |p| == 0 then []
    else
      assert p == [p[0]] + p[1..];
      Insert(p[0], SortPairs(p[1..]))
  }

  lemma {:induction false} SortPairsSorted(p: seq<(string, string)>)
    requires DistinctParamKeys(p)
    ensures SortedByKey(SortPairs(p))
  {
    if |p| > 0 {
      SortPairsSorted(p[1..]);
      var s := SortPairs(p[1..]);
      forall i | 0 <= i < |s| ensures s[i].0 != p[0].0 {
        assert s[i] in multiset(p[1..]);
        var k :| 0 <= k < |p[1..]| && p[1..][k] == s[i];
        assert p[k + 1] == s[i];
      }
      InsertSorted(p[0], s);
    }
  }

  /** Two key-sorted sequences with the same elements start with the same pair. */
  lemma SortedSameHead(a: seq<(string, string)>, b: seq<(string, string)>)
    requires SortedByKey(a) && SortedByKey(b) && multiset(a) == multiset(b) && |a| > 0
    ensures |b| > 0 && a[0] == b[0]
  {
    assert |b| > 0 by { assert |multiset(b)| == |multiset(a)|; }
    assert a[0] in multiset(b);
    var j :| 0 <= j < |b| && b[j] == a[0];
    assert b[0] in multiset(a);
    var i :| 0 <= i < |a| && a[i] == b[0];
    if j > 0 {
      assert StrLess(b[0].0, a[0].0);
      if i > 0 {
        assert StrLess(a[0].0, b[0].0);
        StrLessAsym(a[0].0, b[0].0);
      } else {
        StrLessAsym(b[0].0, b[0].0);
      }
      assert false;
    }
  }

  /** Dropping the same first pair from both sides keeps the multisets equal. */
  lemma SameTails(a: seq<(string, string)>, b: seq<(string, string)>)
    requires |a| > 0 && |b| > 0 && a[0] == b[0] && multiset(a) == multiset(b)
    ensures multiset(a[1..]) == multiset(b[1..])
  {
    assert a == [a[0]] + a[1..] && b == [b[0]] + b[1..];
    assert multiset(a[1..]) == multiset(a) - multiset{a[0]};
    assert multiset(b[1..]) == multiset(b) - multiset{a[0]};
  }

  /** A key-sorted sequence is determined by its elements. */
  lemma {:induction false} SortedUnique(a: seq<(string, string)>, b: seq<(string, string)>)
    requires SortedByKey(a) && SortedByKey(b) && multiset(a) == multiset(b)
    ensures a == b
  {
    if |a| == 0 {
      assert |multiset(b)| == 0;
    } else {
      SortedSameHead(a, b);
      SameTails(a, b);
      SortedUnique(a[1..], b[1..]);
      assert a == [a[0]] + a[1..] && b == [b[0]] + b[1..];
    }
  }

  /** Hexadecimal digits, lower case, as `'\\u%04x'` writes them. */
  function Hex(n: nat, w: nat): (r: string)
    ensures |r| == w
  {
    if w == 0 then "" else Hex(n / 16, w - 1) + ["0123456789abcdef"[n % 16]]
  }

  /** One character as `json.dumps` (with `ensure_ascii`) writes it inside a string. */
  function EscapeChar(c: char): string
  {
    if c == '"' then "\\\""
    else if c == '\\' then "\\\\"
    else if c == '\n' then "\\n"
    else if c == '\r' then "\\r"
    else if c == '\t' then "\\t"
    else if c == '\U{8}' then "\\b"
    else if c == '\U{C}' then "\\f"
    else if c < ' ' || c as int >= 127 then
      if c as int < 0x10000 then "\\u" + Hex(c as int, 4)
      else
        var v := c as int - 0x10000;
        "\\u" + Hex(0xD800 + v / 1024, 4) + "\\u" + Hex(0xDC00 + v % 1024, 4)
    else [c]
  }

  function Escape(s: string): string
  {
    if |s| == 0 then "" else EscapeChar(s[0]) + Escape(s[1..])
  }

  function Quote(s: string): string
  {
    "\"" + Escape(s) + "\""
  }

  function DumpPairs(p: seq<(string, string)>): string
  {
    if |p| == 0 then ""
    else if |p| == 1 then Quote(p[0].0) + ": " + Quote(p[0].1)
    else Quote(p[0].0) + ": " + Quote(p[0].1) + ", " + DumpPairs(p[1..])
  }

  /** `json.dumps(params, sort_keys=True)`. */
  function DumpSorted(p: Params): string
  {
    "{" + DumpPairs(SortPairs(p)) + "}"
  }

  /**
   * The string `_get_cache_key` hashes: the URL, followed by the sorted JSON
   * dump of the parameters only when there are any (an empty dict is falsy).
   */
  function PreHash(url: string, params: Option<Params>): (r: string)
    ensures params.None? || params.value == [] ==> r == url
    ensures params.Some? && params.value != [] ==> |r| > |url| && r[..|url|] == url
  {
    if params.Some? && |params.value| > 0 then url + DumpSorted(params.value) else url
  }

  /** The same parameters in any insertion order give the same key. */
  lemma PreHashOrderInvariant(url: string, p: Params, q: Params)
    requires multiset(p) == multiset(q)
    ensures PreHash(url, Some(p)) == PreHash(url, Some(q))
  {
    SortPairsSorted(p);
    SortPairsSorted(q);
    SortedUnique(SortPairs(p), SortPairs(q));
    assert |p| == |multiset(p)| == |multiset(q)| == |q|;
  }

  /** With the same parameters, different URLs give different strings to hash. */
  lemma PreHashUrlInjective(u1: string, u2: string, params: Option<Params>)
    requires PreHash(u1, params) == PreHash(u2, params)
    ensures u1 == u2
  {
    if params.Some? && |params.value| > 0 {
      var d := DumpSorted(params.value);
      assert u1 + d == u2 + d;
      assert |u1| == |u2|;
      assert u1 == (u1 + d)[..|u1|];
    }
  }

  // ---------------------------------------------------------------- URLs

  predicate IsAbsolute(url: string)
  {
    "http://" <= url || "https://" <= url
  }

  /** The full URL `get` and `post` request. */
  function ResolveUrl(baseUrl: Option<string>, url: string): (full: string)
    ensures baseUrl.None? || baseUrl.value == "" || IsAbsolute(url) ==> full == url
    ensures baseUrl.Some? && baseUrl.value != "" && !IsAbsolute(url) ==>
      var head := RStripChar(baseUrl.value, '/');
      var tail := LStripChar(url, '/');
      && full == head + "/" + tail
      && head <= baseUrl.value && tail == url[|url| - |tail|..]
      && (|head| > 0 ==> full[|head| - 1] != '/')
      && full[|head|] == '/'
      && (|tail| > 0 ==> full[|head| + 1] != '/')
  {
    if baseUrl.Some? && baseUrl.value != "" && !IsAbsolute(url) then
      var head := RStripChar(baseUrl.value, '/');
      var tail := LStripChar(url, '/');
      SlashJoined(head, tail);
      head + "/" + tail
    else url
  }

  /** The characters on either side of the `/` that joins `head` and `tail`. */
  lemma SlashJoined(head: string, tail: string)
    ensures var full := head + "/" + tail;
      && |full| == |head| + 1 + |tail|
      && (|head| > 0 ==> full[|head| - 1] == head[|head| - 1])
      && full[|head|] == '/'
      && (|tail| > 0 ==> full[|head| + 1] == tail[0])
  {
  }

  // ---------------------------------------------------------------- requests

  datatype Body = JsonBody(json: Json) | TextBody(text: string)

  /** What the session call produced: a response, or the exception it raised. */
  datatype Outcome =
    | Response(status: int, body: Body)
    | Timeout
    | ConnectionError
    | OtherError

  /** The value a request returns for an outcome: `raise_for_status` rejects 4xx and 5xx, a non-JSON body is returned as text. */
  function FetchResult(outcome: Outcome): (r: Option<Json>)
    ensures r.Some? <==> outcome.Response? && !(400 <= outcome.status < 600)
    ensures r.Some? && outcome.body.TextBody? ==> r.value == JStr(outcome.body.text)
  {
    match outcome
    case Response(status, body) =>
      if 400 <= status < 600 then None
      else Some(match body case JsonBody(j) => j case TextBody(t) => JStr(t))
    case _ => None
  }

  /** The cache after `_get_from_cache(key)`: an expired entry is dropped, nothing else changes. */
  function AfterLookup(cache: map<string, CacheEntry>, key: string, now: int): map<string, CacheEntry>
  {
    if key in cache && cache[key].IsExpired(now) then cache - {key} else cache
  }

  /** `get` answers from the cache: a live entry whose data is not `null`. */
  predicate Hit(cache: map<string, CacheEntry>, key: string, now: int)
  {
    key in cache && !cache[key].IsExpired(now) && cache[key].data != JNull
  }

  class APIClient {
    const baseUrl: Option<string>
    const cacheTtlMinutes: int
    /** The hexadecimal MD5 digest of a string. */
    const digest: string -> string
    var cache: map<string, CacheEntry>

    constructor (baseUrl: Option<string>, cacheTtlMinutes: int, digest: string -> string)
      ensures this.baseUrl == baseUrl && this.cacheTtlMinutes == cacheTtlMinutes && this.digest == digest
      ensures cache == map[]
    {
      this.baseUrl := baseUrl;
      this.cacheTtlMinutes := cacheTtlMinutes;
      this.digest := digest;
      cache := map[];
    }

    /** `_get_cache_key`. */
    function CacheKey(url: string, params: Option<Params>): string
    {
      digest(PreHash(url, params))
    }

    /** `_get_from_cache`. */
    method GetFromCache(key: string, now: int) returns (data: Option<Json>)
      modifies this
      ensures key in old(cache) && now <= old(cache)[key].expiresAt ==>
        data == Some(old(cache)[key].data) && cache == old(cache)
      ensures key in old(cache) && now > old(cache)[key].expiresAt ==>
        data.None? && cache == old(cache) - {key}
      ensures key !in old(cache) ==> data.None? && cache == old(cache)
      ensures cache == AfterLookup(old(cache), key, now)
    {
      if key in cache {
        var entry := cache[key];
        if !entry.IsExpired(now) {
          return Some(entry.data);
        } else {
          cache := cache - {key};
        }
      }
      return None;
    }

    /** `_add_to_cache`. */
    method AddToCache(key: string, data: Json, now: int)
      modifies this
      ensures cache == old(cache)[key := CacheEntry(data, now + cacheTtlMinutes * 60)]
    {
      cache := cache[key := CacheEntry(data, now + cacheTtlMinutes * 60)];
    }

    /** `clear_cache`. */
    method ClearCache()
      modifies this
      ensures cache == map[]
    {
      cache := map[];
    }

    /**
     * `get`: `requested` is the full URL. The cache is read at `now`; a fetched
     * result is stored at `fetchedAt`. `fetched` tells whether the network was used.
     */
    method Get(url: string, params: Option<Params>, useCache: bool, now: int, fetchedAt: int, outcome: Outcome)
      returns (requested: string, fetched: bool, data: Option<Json>)
      modifies this
      ensures requested == ResolveUrl(baseUrl, url)
      ensures var key := CacheKey(requested, params);
        if !useCache then
          fetched && data == FetchResult(outcome) && cache == old(cache)
        else if Hit(old(cache), key, now) then
          !fetched && data == Some(old(cache)[key].data) && cache == old(cache)
        else
          && fetched && data == FetchResult(outcome)
          && cache == (if data.Some? then AfterLookup(old(cache), key, now)[key := CacheEntry(data.value, fetchedAt + cacheTtlMinutes * 60)]
                       else AfterLookup(old(cache), key, now))
    {
      requested := ResolveUrl(baseUrl, url);
      var key := CacheKey(requested, params);
      if useCache {
        var cached := GetFromCache(key, now);
        if cached.Some? && cached.value != JNull {
          return requested, false, cached;
        }
      }
      fetched := true;
      data := FetchResult(outcome);
      if data.Some? && useCache {
        AddToCache(key, data.value, fetchedAt);
      }
    }

    /** `post`: same URL resolution as `get`; the cache is neither read nor written. */
    method Post(url: string, outcome: Outcome) returns (requested: string, data: Option<Json>)
      ensures requested == ResolveUrl(baseUrl, url)
      ensures data == FetchResult(outcome)
    {
      requested := ResolveUrl(baseUrl, url);
      data := FetchResult(outcome);
    }
  }

  /** After a fetched, non-`null` response is cached, the same request within the TTL is a hit on that data. */
  lemma RepeatGetHits(cache: map<string, CacheEntry>, key: string, data: Json, fetchedAt: int, ttlMinutes: int, later: int)
    requires data != JNull && later <= fetchedAt + ttlMinutes * 60
    ensures Hit(cache[key := CacheEntry(data, fetchedAt + ttlMinutes * 60)], key, later)
    ensures cache[key := CacheEntry(data, fetchedAt + ttlMinutes * 60)][key].data == data
  {
  }
}
