/**
 * The model rotation manager: parsing of `ollama list` output, the cached
 * model list, the recommended models that are installed, and the selection
 * of a model with its bookkeeping (last used model and usage counts).
 * The `ollama list` runs, the clock (whole seconds) and the random picks
 * are parameters.
 */
module OllamaModels {
  import opened Wrappers
  import opened Text
  import opened Subprocess
  import opened Positions

  const RecommendedModels: seq<string> := ["phi3.5:3.8b", "mistral:7b-instruct", "llama3.2:1b", "gemma2:2b", "qwen2.5:0.5b"]
  const DefaultModel: string := "phi3.5:3.8b"

  /** `name.split(':')[0] if ':' in name else name`: the name without its tag. */
  function BaseName(name: string): string
  {
    Split(name, ':')[0]
  }

  /** A first column of `ollama list`: a tag without any digit (`:latest`) is dropped, a tag with one (`:3.8b`) is kept. */
  function NormalizeModelName(token: string): (name: string)
    ensures ':' !in token ==> name == token
    ensures ':' in token && !HasDigit(Split(token, ':')[1]) ==> name == token[..IndexOf(token, ':')]
    ensures ':' in token && HasDigit(Split(token, ':')[1]) ==> name == token
  {
    if ':' in token && !HasDigit(Split(token, ':')[1]) then Split(token, ':')[0] else token
  }

  /** Normalizing a name a second time changes nothing. */
  lemma NormalizeIdempotent(token: string)
    ensures NormalizeModelName(NormalizeModelName(token)) == NormalizeModelName(token)
  {
    var name := NormalizeModelName(token);
    if ':' in token && !HasDigit(Split(token, ':')[1]) {
      var i := IndexOf(token, ':');
      assert name == token[..i];
      assert ':' !in name by {
        forall k | 0 <= k < |name| ensures name[k] != ':' {
          assert name[k] == token[k];
        }
      }
    }
  }

  /** The model of each non-blank line after the header of `stdout.strip().split('\n')`. */
  function ModelsOfLines(lines: seq<string>): seq<string>
  {
    if |lines| == 0 then [] else LineModel(lines[0]) + ModelsOfLines(lines[1..])
  }

  /** The model named by one line: none for a blank line. */
  function LineModel(line: string): seq<string>
  {
    var parts := Words(line);
    if |parts| > 0 then [NormalizeModelName(parts[0])] else []
  }

  function ParsedModels(stdout: string): seq<string>
  {
    ModelsOfLines(Split(Strip(stdout), '\n')[1..])
  }

  /** Every parsed name is whitespace free and is the first word of its line, or the part of it before the first `:`. */
  lemma {:induction false} ModelsOfLinesShape(lines: seq<string>)
    ensures forall m :: m in ModelsOfLines(lines) ==> NoSpace(m)
    ensures forall m :: m in ModelsOfLines(lines) ==>
      exists i :: 0 <= i < |lines| && |Words(lines[i])| > 0 && m <= Words(lines[i])[0]
    ensures |ModelsOfLines(lines)| <= |lines|
  {
    if |lines| > 0 {
      ModelsOfLinesShape(lines[1..]);
      var parts := Words(lines[0]);
      assert ModelsOfLines(lines) == LineModel(lines[0]) + ModelsOfLines(lines[1..]);
      if |parts| > 0 {
        var tok := parts[0];
        var m := NormalizeModelName(tok);
        assert LineModel(lines[0]) == [m];
        assert m <= tok;
        assert forall k :: 0 <= k < |m| ==> m[k] == tok[k];
      } else {
        assert LineModel(lines[0]) == [];
      }
      forall m | m in ModelsOfLines(lines)
        ensures exists i :: 0 <= i < |lines| && |Words(lines[i])| > 0 && m <= Words(lines[i])[0]
      {
        if |parts| > 0 && m == NormalizeModelName(parts[0]) {
          assert 0 < |lines| && |Words(lines[0])| > 0 && m <= Words(lines[0])[0];
        } else {
          assert m in ModelsOfLines(lines[1..]);
          var i :| 0 <= i < |lines[1..]| && |Words(lines[1..][i])| > 0 && m <= Words(lines[1..][i])[0];
          assert lines[i + 1] == lines[1..][i];
        }
      }
    }
  }

  /** The list parsing loop of `get_available_models`. */
  method ParseModels(stdout: string) returns (models: seq<string>)
    ensures models == ParsedModels(stdout)
    ensures forall m :: m in models ==> NoSpace(m)
  {
    var lines := Split(Strip(stdout), '\n');
    models := ParseLines(lines[1..]);
    ModelsOfLinesShape(lines[1..]);
  }

  method ParseLines(lines: seq<string>) returns (models: seq<string>)
    ensures models == ModelsOfLines(lines)
  {
    models := [];
    var i := 0;
    while i < |lines|
      invariant 0 <= i <= |lines|
      invariant models + ModelsOfLines(lines[i..]) == ModelsOfLines(lines)
    {
      assert lines[i..][1..] == lines[i + 1..];
      models := models + LineModel(lines[i]);
      i := i + 1;
    }
    assert lines[|lines|..] == [];
  }

  /** A recommended model counts as installed when its full name or its base name is listed. */
  predicate Installed(model: string, available: seq<string>)
  {
    model in available || BaseName(model) in available
  }

  predicate Distinct(xs: seq<string>)
  {
    forall i, j :: 0 <= i < j < |xs| ==> xs[i] != xs[j]
  }

  function FilterInstalled(models: seq<string>, available: seq<string>): (r: seq<string>)
    ensures forall m :: m in r <==> m in models && Installed(m, available)
    ensures |r| <= |models|
    ensures |available| == 0 ==> r == []
  {
    if |models| == 0 then []
    else (if Installed(models[0], available) then [models[0]] else []) + FilterInstalled(models[1..], available)
  }

  /** Filtering keeps names apart. */
  lemma {:induction false} FilterInstalledDistinct(models: seq<string>, available: seq<string>)
    requires Distinct(models)
    ensures Distinct(FilterInstalled(models, available))
  {
    if |models| > 0 {
      var rest := FilterInstalled(models[1..], available);
      assert Distinct(models[1..]) by {
        forall i, j | 0 <= i < j < |models[1..]| ensures models[1..][i] != models[1..][j] {
          assert models[i + 1] != models[j + 1];
        }
      }
      FilterInstalledDistinct(models[1..], available);
      assert models[0] !in models[1..] by {
        forall j | 0 <= j < |models[1..]| ensures models[1..][j] != models[0] {
          assert models[0] != models[j + 1];
        }
      }
      assert models[0] !in rest;
    }
  }

  /** Whether each model is installed. */
  function InstalledFlags(models: seq<string>, available: seq<string>): (f: seq<bool>)
  {
    seq(|models|, j requires 0 <= j < |models| => Installed(models[j], available))
  }

  /**
   * The recommended models kept are the list read, in increasing order, at
   * exactly the positions of installed models: the filter keeps the order.
   */
  lemma {:induction false} FilterInstalledInOrder(models: seq<string>, available: seq<string>)
    ensures PicksAt(FilterInstalled(models, available), models, TruePositions(InstalledFlags(models, available)))
    ensures forall j :: 0 <= j < |models| ==>
      (j in TruePositions(InstalledFlags(models, available)) <==> Installed(models[j], available))
  {
    var flags := InstalledFlags(models, available);
    if |models| > 0 {
      FilterInstalledInOrder(models[1..], available);
      assert flags[1..] == InstalledFlags(models[1..], available);
      PicksAtStep(FilterInstalled(models, available), FilterInstalled(models[1..], available), models, flags);
    } else {
      assert PicksAt([], models, []);
    }
    TruePositionsExact(flags);
  }

  /** The filtering loop of `get_recommended_available_models`. */
  method KeepInstalled(models: seq<string>, available: seq<string>) returns (kept: seq<string>)
    ensures kept == FilterInstalled(models, available)
  {
    kept := [];
    var i := 0;
    while i < |models|
      invariant 0 <= i <= |models|
      invariant kept + FilterInstalled(models[i..], available) == FilterInstalled(models, available)
    {
      assert models[i..][1..] == models[i + 1..];
      var model := models[i];
      var base := BaseName(model);
      var rest := FilterInstalled(models[i + 1..], available);
      assert FilterInstalled(models[i..], available) == (if Installed(model, available) then [model] else []) + rest;
      if model in available || base in available {
        assert kept + ([model] + rest) == (kept + [model]) + rest;
        kept := kept + [model];
      } else {
        assert [] + rest == rest;
      }
      i := i + 1;
    }
    assert models[|models|..] == [];
  }

  /** `max(1, 10 - usage)`. */
  function WeightFor(usage: int): int
  {
    if 10 - usage > 1 then 10 - usage else 1
  }

  function UsageOf(usage: map<string, int>, model: string): int
  {
    if model in usage then usage[model] else 0
  }

  /** `random.choice(xs)` as the element at a drawn index. */
  function Choose(xs: seq<string>, pick: nat): (x: string)
    requires |xs| > 0
    ensures x in xs
  {
    xs[pick % |xs|]
  }

  /** Every element can be drawn. */
  lemma ChooseCovers(xs: seq<string>, i: nat)
    requires i < |xs|
    ensures Choose(xs, i) == xs[i]
  {
  }

  /** `_is_cache_valid`: both the list and its time are set, and the list is younger than the TTL. */
  predicate CacheValid(models: Option<seq<string>>, time: Option<int>, ttlMinutes: int, now: int)
  {
    models.Some? && time.Some? && now - time.value < ttlMinutes * 60
  }

  /** The list `get_available_models()` answers with: the cache while it is valid, else the parsed listing, else nothing. */
  function Listed(models: Option<seq<string>>, time: Option<int>, ttlMinutes: int, now: int, listing: RunOutcome): (r: seq<string>)
    ensures CacheValid(models, time, ttlMinutes, now) ==> r == models.value
    ensures !CacheValid(models, time, ttlMinutes, now) && listing.Succeeded() ==> r == ParsedModels(listing.stdout)
    ensures !CacheValid(models, time, ttlMinutes, now) && !listing.Succeeded() ==> r == []
  {
    if CacheValid(models, time, ttlMinutes, now) then models.value
    else if listing.Succeeded() then ParsedModels(listing.stdout)
    else []
  }

  /** The cache after `get_available_models()`: a fresh listing is stored with the time it was read; otherwise it is kept. */
  function Refreshed(models: Option<seq<string>>, time: Option<int>, ttlMinutes: int, now: int, listing: RunOutcome)
    : (c: (Option<seq<string>>, Option<int>))
    ensures !CacheValid(models, time, ttlMinutes, now) && listing.Succeeded() ==> c == (Some(ParsedModels(listing.stdout)), Some(now))
    ensures CacheValid(models, time, ttlMinutes, now) || !listing.Succeeded() ==> c == (models, time)
    ensures CacheValid(c.0, c.1, ttlMinutes, now) <==> CacheValid(models, time, ttlMinutes, now) || (listing.Succeeded() && ttlMinutes > 0)
  {
    if !CacheValid(models, time, ttlMinutes, now) && listing.Succeeded() then (Some(ParsedModels(listing.stdout)), Some(now))
    else (models, time)
  }

  /**
   * Once a listing is cached, a later call still within the TTL answers from
   * the cache without reading its own listing: a listing stored at `now`
   * answers until `ttlMinutes` minutes have passed, and a cache that is still
   * valid at `later` answers as it did at `now`.
   */
  lemma RefreshedAnswers(models: Option<seq<string>>, time: Option<int>, ttlMinutes: int, now: int, later: int, listing: RunOutcome, again: RunOutcome)
    requires ttlMinutes > 0 && now <= later
    ensures var c := Refreshed(models, time, ttlMinutes, now, listing);
      listing.Succeeded() || CacheValid(models, time, ttlMinutes, now) ==>
        Listed(c.0, c.1, ttlMinutes, now, again) == Listed(models, time, ttlMinutes, now, listing)
    ensures var c := Refreshed(models, time, ttlMinutes, now, listing);
      !CacheValid(models, time, ttlMinutes, now) && listing.Succeeded() && later - now < ttlMinutes * 60 ==>
        Listed(c.0, c.1, ttlMinutes, later, again) == ParsedModels(listing.stdout)
    ensures var c := Refreshed(models, time, ttlMinutes, now, listing);
      CacheValid(models, time, ttlMinutes, later) ==>
        Listed(c.0, c.1, ttlMinutes, later, again) == Listed(models, time, ttlMinutes, now, listing) == models.value
  {
  }

  class OllamaModelManager {
    const cacheTtlMinutes: int
    /** `RECOMMENDED_MODELS`, in order of preference. */
    const recommendedModels: seq<string>
    var cachedModels: Option<seq<string>>
    var cacheTime: Option<int>
    var lastUsedModel: Option<string>
    var modelUsageCount: map<string, int>

    /** The recommended names are pairwise different, which the variety pick relies on. */
    predicate Valid()
      reads this
    {
      Distinct(recommendedModels)
    }

    constructor (cacheTtlMinutes: int)
      ensures Valid()
      ensures this.cacheTtlMinutes == cacheTtlMinutes && recommendedModels == RecommendedModels
      ensures cachedModels.None? && cacheTime.None? && lastUsedModel.None? && modelUsageCount == map[]
    {
      this.cacheTtlMinutes := cacheTtlMinutes;
      recommendedModels := RecommendedModels;
      cachedModels := None;
      cacheTime := None;
      lastUsedModel := None;
      modelUsageCount := map[];
    }

    /** `_is_cache_valid` on the current cache. */
    predicate IsCacheValid(now: int)
      reads this
    {
      CacheValid(cachedModels, cacheTime, cacheTtlMinutes, now)
    }

    /** What `get_available_models()` answers with on the current cache. */
    function ListingResult(now: int, listing: RunOutcome): seq<string>
      reads this
    {
      Listed(cachedModels, cacheTime, cacheTtlMinutes, now, listing)
    }

    /** The cache `get_available_models()` leaves behind, from the current one. */
    function CacheAfter(now: int, listing: RunOutcome): (Option<seq<string>>, Option<int>)
      reads this
    {
      Refreshed(cachedModels, cacheTime, cacheTtlMinutes, now, listing)
    }

    /** `get_available_models`. */
    method GetAvailableModels(refresh: bool, now: int, listing: RunOutcome) returns (models: seq<string>)
      modifies this`cachedModels, this`cacheTime
      ensures !refresh && old(IsCacheValid(now)) ==>
        models == old(cachedModels).value && cachedModels == old(cachedModels) && cacheTime == old(cacheTime)
      ensures (refresh || !old(IsCacheValid(now))) && listing.Succeeded() ==>
        models == ParsedModels(listing.stdout) && cachedModels == Some(models) && cacheTime == Some(now)
      ensures (refresh || !old(IsCacheValid(now))) && !(listing.Succeeded()) ==>
        models == [] && cachedModels == old(cachedModels) && cacheTime == old(cacheTime)
      ensures !refresh ==> models == old(ListingResult(now, listing)) && (cachedModels, cacheTime) == old(CacheAfter(now, listing))
    {
      if !refresh && IsCacheValid(now) {
        return cachedModels.value;
      }
      if listing.Succeeded() {
        models := ParseModels(listing.stdout);
        cachedModels := Some(models);
        cacheTime := Some(now);
        return;
      }
      models := [];
    }

    /** `get_recommended_available_models`: the recommended names, in their order, that are installed. */
    method GetRecommendedAvailableModels(now: int, listing: RunOutcome) returns (available: seq<string>, recommended: seq<string>)
      modifies this`cachedModels, this`cacheTime
      ensures available == old(ListingResult(now, listing))
      ensures (cachedModels, cacheTime) == old(CacheAfter(now, listing))
      ensures recommended == FilterInstalled(recommendedModels, available)
      ensures available == [] ==> recommended == []
      ensures forall m :: m in recommended <==> m in recommendedModels && (m in available || BaseName(m) in available)
    {
      available := GetAvailableModels(false, now, listing);
      if |available| == 0 {
        return available, [];
      }
      recommended := KeepInstalled(recommendedModels, available);
    }

    /** The weighting loop of `select_model`. */
    method Weights(choices: seq<string>) returns (weights: seq<int>)
      ensures weights == WeightsFor(choices, modelUsageCount)
    {
      weights := [];
      var i := 0;
      while i < |choices|
        invariant 0 <= i <= |choices|
        invariant |weights| == i
        invariant forall k :: 0 <= k < i ==> weights[k] == WeightFor(UsageOf(modelUsageCount, choices[k]))
      {
        var usage := if choices[i] in modelUsageCount then modelUsageCount[choices[i]] else 0;
        var weight := if 10 - usage > 1 then 10 - usage else 1;
        weights := weights + [weight];
        i := i + 1;
      }
    }

    /**
     * The variety branch of `select_model`: the last used model is left out of
     * the candidates and the rest are drawn with weights that favour rarely used models.
     */
    method PickVaried(recommended: seq<string>, weightedPick: (seq<string>, seq<int>) -> nat) returns (selected: string)
      requires Distinct(recommended) && |recommended| > 1
      ensures selected == WeightedChoice(Candidates(recommended, lastUsedModel), modelUsageCount, weightedPick)
      ensures selected in recommended
      ensures lastUsedModel.Some? ==> selected != lastUsedModel.value
    {
      var choices := recommended;
      if lastUsedModel.Some? && lastUsedModel.value in recommended {
        choices := Without(recommended, lastUsedModel.value);
      }
      assert choices == Candidates(recommended, lastUsedModel);
      var weights := Weights(choices);
      selected := choices[weightedPick(choices, weights) % |choices|];
    }

    /**
     * `select_model`. `firstListing` and `secondListing` are the two `ollama list`
     * runs it may cause, `pick` stands for `random.choice`, and `weightedPick` for
     * `random.choices(choices, weights)[0]` as an index.
     */
    method SelectModel(preferVariety: bool, now: int, firstListing: RunOutcome, secondListing: RunOutcome,
                       pick: nat, weightedPick: (seq<string>, seq<int>) -> nat)
      returns (selected: string, recommended: seq<string>, available: seq<string>)
      requires Valid()
      modifies this`cachedModels, this`cacheTime, this`lastUsedModel, this`modelUsageCount
      ensures Valid()
      ensures recommended == FilterInstalled(recommendedModels, old(ListingResult(now, firstListing)))
      ensures Distinct(recommended)
      ensures |recommended| > 0 ==>
        available == old(ListingResult(now, firstListing)) && (cachedModels, cacheTime) == old(CacheAfter(now, firstListing))
      ensures var c := old(CacheAfter(now, firstListing));
        |recommended| == 0 ==>
          && available == Listed(c.0, c.1, cacheTtlMinutes, now, secondListing)
          && (cachedModels, cacheTime) == Refreshed(c.0, c.1, cacheTtlMinutes, now, secondListing)
      ensures |recommended| == 0 ==>
        && selected == (if |available| > 0 then Choose(available, pick) else DefaultModel)
        && lastUsedModel == old(lastUsedModel) && modelUsageCount == old(modelUsageCount)
      ensures |recommended| > 0 && !(preferVariety && |recommended| > 1) ==> selected == Choose(recommended, pick)
      ensures |recommended| > 0 && preferVariety && |recommended| > 1 ==>
        selected == WeightedChoice(Candidates(recommended, old(lastUsedModel)), old(modelUsageCount), weightedPick)
      ensures |recommended| > 0 ==>
        && selected in recommended
        && (preferVariety && |recommended| > 1 && old(lastUsedModel).Some? ==> selected != old(lastUsedModel).value)
        && lastUsedModel == Some(selected)
        && modelUsageCount == old(modelUsageCount)[selected := UsageOf(old(modelUsageCount), selected) + 1]
    {
      var firstAvailable;
      firstAvailable, recommended := GetRecommendedAvailableModels(now, firstListing);
      FilterInstalledDistinct(recommendedModels, firstAvailable);
      if |recommended| == 0 {
        selected, available := PickAvailable(now, secondListing, pick);
      } else {
        available := firstAvailable;
        selected := PickRecommended(recommended, preferVariety, pick, weightedPick);
      }
    }

    /** Without a recommended model: any available model, else the default; nothing is tracked. */
    method PickAvailable(now: int, listing: RunOutcome, pick: nat) returns (selected: string, available: seq<string>)
      modifies this`cachedModels, this`cacheTime
      ensures available == old(ListingResult(now, listing))
      ensures (cachedModels, cacheTime) == old(CacheAfter(now, listing))
      ensures selected == (if |available| > 0 then Choose(available, pick) else DefaultModel)
    {
      available := GetAvailableModels(false, now, listing);
      selected := if |available| > 0 then Choose(available, pick) else DefaultModel;
    }

    /** The pick among recommended models, weighted for variety with two or more, and its bookkeeping. */
    method PickRecommended(recommended: seq<string>, preferVariety: bool, pick: nat,
                           weightedPick: (seq<string>, seq<int>) -> nat) returns (selected: string)
      requires Distinct(recommended) && |recommended| > 0
      modifies this`lastUsedModel, this`modelUsageCount
      ensures !(preferVariety && |recommended| > 1) ==> selected == Choose(recommended, pick)
      ensures preferVariety && |recommended| > 1 ==>
        selected == WeightedChoice(Candidates(recommended, old(lastUsedModel)), old(modelUsageCount), weightedPick)
      ensures selected in recommended
      ensures preferVariety && |recommended| > 1 && old(lastUsedModel).Some? ==> selected != old(lastUsedModel).value
      ensures lastUsedModel == Some(selected)
      ensures modelUsageCount == old(modelUsageCount)[selected := UsageOf(old(modelUsageCount), selected) + 1]
    {
      ghost var lastUsed, usage := lastUsedModel, modelUsageCount;
      if preferVariety && |recommended| > 1 {
        selected := PickVaried(recommended, weightedPick);
        assert selected == WeightedChoice(Candidates(recommended, lastUsed), usage, weightedPick);
      } else {
        selected := Choose(recommended, pick);
      }
      assert selected in recommended;
      Track(selected);
    }

    /** The bookkeeping after a pick among recommended models. */
    method Track(selected: string)
      modifies this`lastUsedModel, this`modelUsageCount
      ensures lastUsedModel == Some(selected)
      ensures modelUsageCount == old(modelUsageCount)[selected := UsageOf(old(modelUsageCount), selected) + 1]
    {
      lastUsedModel := Some(selected);
      var count := if selected in modelUsageCount then modelUsageCount[selected] + 1 else 1;
      modelUsageCount := modelUsageCount[selected := count];
    }

    /** The availability check of `ensure_model_available`: true when the name or its base name is listed; otherwise a pull would follow. */
    method IsModelAvailable(modelName: string, now: int, listing: RunOutcome) returns (available: bool)
      modifies this`cachedModels, this`cacheTime
      ensures available <==> Installed(modelName, old(ListingResult(now, listing)))
      ensures (cachedModels, cacheTime) == old(CacheAfter(now, listing))
    {
      var models := GetAvailableModels(false, now, listing);
      available := modelName in models || BaseName(modelName) in models;
    }
  }

  /** `[m for m in xs if m != x]`. */
  function Without(xs: seq<string>, x: string): (r: seq<string>)
    ensures forall m :: m in r <==> m in xs && m != x
    ensures x !in xs ==> r == xs
  {
    if |xs| == 0 then []
    else if xs[0] == x then Without(xs[1..], x)
    else [xs[0]] + Without(xs[1..], x)
  }

  /** Whether each element differs from `x`. */
  function OtherFlags(xs: seq<string>, x: string): (f: seq<bool>)
  {
    seq(|xs|, j requires 0 <= j < |xs| => xs[j] != x)
  }

  /** The comprehension keeps every other element, in order: `xs` read at exactly the positions not holding `x`. */
  lemma {:induction false} WithoutInOrder(xs: seq<string>, x: string)
    ensures PicksAt(Without(xs, x), xs, TruePositions(OtherFlags(xs, x)))
    ensures forall j :: 0 <= j < |xs| ==> (j in TruePositions(OtherFlags(xs, x)) <==> xs[j] != x)
  {
    var flags := OtherFlags(xs, x);
    if |xs| > 0 {
      WithoutInOrder(xs[1..], x);
      assert flags[1..] == OtherFlags(xs[1..], x);
      PicksAtStep(Without(xs, x), Without(xs[1..], x), xs, flags);
    } else {
      assert PicksAt([], xs, []);
    }
    TruePositionsExact(flags);
  }

  /**
   * The candidates of the variety pick: the recommended models without the last
   * used one when it is among them, else all of them.
   */
  function Candidates(recommended: seq<string>, lastUsed: Option<string>): (c: seq<string>)
    ensures forall m :: m in c ==> m in recommended
    ensures lastUsed.Some? && lastUsed.value in recommended ==> lastUsed.value !in c
    ensures lastUsed.Some? && lastUsed.value in recommended ==> forall m :: m in recommended && m != lastUsed.value ==> m in c
    ensures !(lastUsed.Some? && lastUsed.value in recommended) ==> c == recommended
    ensures Distinct(recommended) && |recommended| > 1 ==> |c| > 0
  {
    if lastUsed.Some? && lastUsed.value in recommended then
      var c := Without(recommended, lastUsed.value);
      assert |recommended| > 1 && Distinct(recommended) ==> recommended[0] in c || recommended[1] in c;
      c
    else recommended
  }

  /** The weights of the weighted pick, `max(1, 10 - usage)` for each candidate in turn. */
  function WeightsFor(choices: seq<string>, usage: map<string, int>): (w: seq<int>)
    ensures |w| == |choices|
    ensures forall i :: 0 <= i < |choices| ==> w[i] >= 1
    ensures forall i :: 0 <= i < |choices| && UsageOf(usage, choices[i]) <= 9 ==> w[i] == 10 - UsageOf(usage, choices[i])
    ensures forall i :: 0 <= i < |choices| && UsageOf(usage, choices[i]) >= 9 ==> w[i] == 1
    ensures forall i, j :: 0 <= i < |choices| && 0 <= j < |choices| && UsageOf(usage, choices[i]) <= UsageOf(usage, choices[j]) ==>
      w[i] >= w[j]
  {
    if |choices| == 0 then []
    else
      var rest := WeightsFor(choices[1..], usage);
      var w := [WeightFor(UsageOf(usage, choices[0]))] + rest;
      assert forall i :: 1 <= i < |choices| ==> w[i] == rest[i - 1] && choices[i] == choices[1..][i - 1];
      w
  }

  /** `random.choices(choices, weights)[0]`, with `weightedPick` giving the index drawn. */
  function WeightedChoice(choices: seq<string>, usage: map<string, int>, weightedPick: (seq<string>, seq<int>) -> nat): (m: string)
    requires |choices| > 0
    ensures m in choices
  {
    choices[weightedPick(choices, WeightsFor(choices, usage)) % |choices|]
  }
}
