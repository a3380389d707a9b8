/**
 * Jokes and quotes from public web services: the rules that turn each
 * service's JSON payload into a text, the random source order with
 * fallback to the next source, and the formatting of what was found.
 * Each payload is what `APIClient.get` returned for that service
 * (`None` for any failure); the shuffle and the `ollama run` result are
 * parameters.
 */
module ExternalApis {
  import opened Wrappers
  import opened Text
  import opened Json
  import opened Subprocess

  /** `data.get(key, default)` read as text; a value of another kind reads as "". */
  function TextField(data: Json, key: string, default: string): (t: string)
    ensures Member(data, key).None? ==> t == default
    ensures Member(data, key).Some? && Member(data, key).value.JStr? ==> t == Member(data, key).value.s
  {
    match Member(data, key)
    case None => default
    case Some(JStr(s)) => s
    case Some(_) => ""
  }

  /** `data and isinstance(data, list) and len(data) > 0`. */
  predicate IsListPayload(data: Option<Json>)
  {
    data.Some? && data.value.JArr? && |data.value.items| > 0
  }

  /**
   * `data.get(key, "")` of a dictionary payload and None for any other payload:
   * the reading shared by `get_dad_joke` (key `joke`) and `get_chuck_norris_joke` (key `value`).
   */
  function FieldJoke(data: Option<Json>, key: string): (joke: Option<string>)
    ensures joke.Some? <==> IsDictPayload(data)
    ensures joke.Some? && Member(data.value, key).None? ==> joke.value == ""
    ensures joke.Some? && Member(data.value, key).Some? && Member(data.value, key).value.JStr? ==>
      joke.value == Member(data.value, key).value.s
  {
    if IsDictPayload(data) then Some(TextField(data.value, key, "")) else None
  }

  /** `get_dad_joke`. */
  function DadJoke(data: Option<Json>): Option<string>
  {
    FieldJoke(data, "joke")
  }

  /** `get_chuck_norris_joke`. */
  function ChuckNorrisJoke(data: Option<Json>): Option<string>
  {
    FieldJoke(data, "value")
  }

  /** The JokeAPI payload settles the answer: a "single" joke, or a "twopart" one with both halves. */
  predicate JokeApiSettles(data: Option<Json>)
  {
    && IsDictPayload(data)
    && (|| Member(data.value, "type") == Some(JStr("single"))
        || (&& Member(data.value, "type") == Some(JStr("twopart"))
            && TextField(data.value, "setup", "") != ""
            && TextField(data.value, "delivery", "") != ""))
  }

  /** `get_programming_joke`: JokeAPI first; the Official Joke API only when JokeAPI did not settle it. */
  function ProgrammingJoke(jokeApi: Option<Json>, officialApi: Option<Json>): (joke: Option<string>)
  {
    if JokeApiSettles(jokeApi) then
      if Member(jokeApi.value, "type") == Some(JStr("single")) then Some(TextField(jokeApi.value, "joke", ""))
      else Some(TextField(jokeApi.value, "setup", "") + " " + TextField(jokeApi.value, "delivery", ""))
    else OfficialJoke(officialApi)
  }

  /** The first item of an Official Joke API payload has a non-empty setup and punchline. */
  predicate OfficialUsable(data: Option<Json>)
  {
    && IsListPayload(data) && data.value.items[0].JObj?
    && TextField(data.value.items[0], "setup", "") != ""
    && TextField(data.value.items[0], "punchline", "") != ""
  }

  /** The Official Joke API part: setup and punchline of the first list item when both are non-empty. */
  function OfficialJoke(data: Option<Json>): (joke: Option<string>)
    ensures joke.Some? <==> OfficialUsable(data)
    ensures joke.Some? ==>
      joke.value == TextField(data.value.items[0], "setup", "") + " " + TextField(data.value.items[0], "punchline", "")
  {
    if IsListPayload(data) && data.value.items[0].JObj? then
      var item := data.value.items[0];
      var setup := TextField(item, "setup", "");
      var punchline := TextField(item, "punchline", "");
      if setup != "" && punchline != "" then Some(setup + " " + punchline) else None
    else None
  }

  /** A "single" payload gives its joke, even an empty one, and the fallback payload plays no part. */
  lemma SingleJokeWins(jokeApi: Option<Json>, officialApi: Option<Json>)
    requires IsDictPayload(jokeApi) && Member(jokeApi.value, "type") == Some(JStr("single"))
    ensures ProgrammingJoke(jokeApi, officialApi) == Some(TextField(jokeApi.value, "joke", ""))
    ensures forall other :: ProgrammingJoke(jokeApi, other) == ProgrammingJoke(jokeApi, officialApi)
  {
  }

  /** A complete "twopart" payload joins setup and delivery with one space. */
  lemma TwoPartJoke(jokeApi: Option<Json>, officialApi: Option<Json>)
    requires IsDictPayload(jokeApi) && Member(jokeApi.value, "type") == Some(JStr("twopart"))
    requires TextField(jokeApi.value, "setup", "") != "" && TextField(jokeApi.value, "delivery", "") != ""
    ensures ProgrammingJoke(jokeApi, officialApi) ==
      Some(TextField(jokeApi.value, "setup", "") + " " + TextField(jokeApi.value, "delivery", ""))
  {
  }

  /** Otherwise the answer is the Official Joke API's, and None when that one is unusable too. */
  lemma ProgrammingJokeFallback(jokeApi: Option<Json>, officialApi: Option<Json>)
    requires !JokeApiSettles(jokeApi)
    ensures ProgrammingJoke(jokeApi, officialApi) == OfficialJoke(officialApi)
    ensures !IsListPayload(officialApi) ==> ProgrammingJoke(jokeApi, officialApi).None?
  {
  }

  /** A quote as `{"text": ..., "author": ...}`. */
  datatype Quote = Quote(text: string, author: string)

  /** The ZenQuotes payload is usable: a non-empty list whose first item is an object. */
  predicate ZenUsable(data: Option<Json>)
  {
    IsListPayload(data) && data.value.items[0].JObj?
  }

  /** The Quote Garden part: the first object of the `data` list of an object payload. */
  function GardenQuote(data: Option<Json>): Option<Quote>
  {
    if IsDictPayload(data) then
      var list := match Member(data.value, "data") case None => JArr([]) case Some(v) => v;
      if list.JArr? && |list.items| > 0 && list.items[0].JObj? then
        Some(Quote(TextField(list.items[0], "quoteText", ""), TextField(list.items[0], "quoteAuthor", "Unknown")))
      else None
    else None
  }

  /** `get_inspirational_quote`: ZenQuotes first (`q`, `a`), then Quote Garden. */
  function InspirationalQuote(zen: Option<Json>, garden: Option<Json>): (q: Option<Quote>)
    ensures ZenUsable(zen) ==>
      q == Some(Quote(TextField(zen.value.items[0], "q", ""), TextField(zen.value.items[0], "a", "Unknown")))
    ensures !ZenUsable(zen) ==> q == GardenQuote(garden)
    ensures !ZenUsable(zen) && !IsDictPayload(garden) ==> q.None?
  {
    if ZenUsable(zen) then
      var item := zen.value.items[0];
      Some(Quote(TextField(item, "q", ""), TextField(item, "a", "Unknown")))
    else GardenQuote(garden)
  }

  /** A usable ZenQuotes item with no `a` field is credited to "Unknown". */
  lemma ZenDefaultAuthor(zen: Option<Json>, garden: Option<Json>)
    requires ZenUsable(zen) && Member(zen.value.items[0], "a").None?
    ensures InspirationalQuote(zen, garden).Some? && InspirationalQuote(zen, garden).value.author == "Unknown"
  {
  }

  /** What each service's `APIClient.get` returned. */
  datatype Payloads = Payloads(
    dadJoke: Option<Json>, jokeApi: Option<Json>, officialJoke: Option<Json>,
    zenQuotes: Option<Json>, quoteGarden: Option<Json>, chuckNorris: Option<Json>)

  datatype Source = DadJokeSource | ProgrammingJokeSource | ChuckNorrisSource | InspirationalQuoteSource

  /** The dictionary `get_random_content` returns. */
  datatype Content = Content(content: string, contentType: string, author: Option<string>, source: string)

  /** The sources for a content type, before shuffling. */
  function SourcesFor(contentType: Option<string>): (sources: seq<Source>)
    ensures contentType == Some("joke") ==> InspirationalQuoteSource !in sources
    ensures contentType == Some("joke") ==> |sources| == 3 && forall s :: s in sources <==> s != InspirationalQuoteSource
    ensures contentType == Some("quote") ==> sources == [InspirationalQuoteSource]
    ensures contentType != Some("joke") && contentType != Some("quote") ==> |sources| == 4
  {
    if contentType == Some("joke") then
      var jokes := [DadJokeSource, ProgrammingJokeSource, ChuckNorrisSource];
      forall s: Source ensures s in jokes <==> s != InspirationalQuoteSource {
        if s.DadJokeSource? {
          assert jokes[0] == s;
        } else if s.ProgrammingJokeSource? {
          assert jokes[1] == s;
        } else if s.ChuckNorrisSource? {
          assert jokes[2] == s;
        }
      }
      jokes
    else if contentType == Some("quote") then [InspirationalQuoteSource]
    else [DadJokeSource, ProgrammingJokeSource, InspirationalQuoteSource, ChuckNorrisSource]
  }

  /** Any other content type draws from every source. */
  lemma SourcesForAny(contentType: Option<string>, s: Source)
    requires contentType != Some("joke") && contentType != Some("quote")
    ensures s in SourcesFor(contentType)
  {
    match s
    case DadJokeSource => assert SourcesFor(contentType)[0] == s;
    case ProgrammingJokeSource => assert SourcesFor(contentType)[1] == s;
    case InspirationalQuoteSource => assert SourcesFor(contentType)[2] == s;
    case ChuckNorrisSource => assert SourcesFor(contentType)[3] == s;
  }

  /** A joke the `if joke:` test lets through. */
  predicate Truthy(j: Option<string>)
  {
    j.Some? && j.value != ""
  }

  /** What one source contributes: a truthy joke, or a quote with non-empty text. */
  function ContentFrom(source: Source, p: Payloads): (c: Option<Content>)
    ensures source == DadJokeSource ==>
      (c.Some? <==> Truthy(DadJoke(p.dadJoke))) && (c.Some? ==> c.value.content == DadJoke(p.dadJoke).value)
    ensures source == ProgrammingJokeSource ==>
      && (c.Some? <==> Truthy(ProgrammingJoke(p.jokeApi, p.officialJoke)))
      && (c.Some? ==> c.value.content == ProgrammingJoke(p.jokeApi, p.officialJoke).value)
    ensures source == ChuckNorrisSource ==>
      (c.Some? <==> Truthy(ChuckNorrisJoke(p.chuckNorris))) && (c.Some? ==> c.value.content == ChuckNorrisJoke(p.chuckNorris).value)
    ensures source == InspirationalQuoteSource ==> var q := InspirationalQuote(p.zenQuotes, p.quoteGarden);
      && (c.Some? <==> q.Some? && q.value.text != "")
      && (c.Some? ==> c.value.content == q.value.text && c.value.author == Some(q.value.author))
    ensures c.Some? && source != InspirationalQuoteSource ==> c.value.author.None?
    ensures c.Some? ==> |c.value.content| > 0
    ensures c.Some? ==> (c.value.contentType == "quote" <==> source == InspirationalQuoteSource)
    ensures c.Some? ==> (c.value.contentType == "joke" || c.value.contentType == "quote")
  {
    match source
    case DadJokeSource =>
      var j := DadJoke(p.dadJoke);
      if j.Some? && j.value != "" then Some(Content(j.value, "joke", None, "Dad Joke")) else None
    case ProgrammingJokeSource =>
      var j := ProgrammingJoke(p.jokeApi, p.officialJoke);
      if j.Some? && j.value != "" then Some(Content(j.value, "joke", None, "Programming Joke")) else None
    case ChuckNorrisSource =>
      var j := ChuckNorrisJoke(p.chuckNorris);
      if j.Some? && j.value != "" then Some(Content(j.value, "joke", None, "Chuck Norris")) else None
    case InspirationalQuoteSource =>
      var q := InspirationalQuote(p.zenQuotes, p.quoteGarden);
      if q.Some? && q.value.text != "" then
        Some(Content(q.value.text, "quote", Some(q.value.author), "Inspirational Quote"))
      else None
  }

  /** The content of the first source, in the given order, that yields any. */
  function FirstContent(order: seq<Source>, p: Payloads): (c: Option<Content>)
    ensures c.None? <==> forall i :: 0 <= i < |order| ==> ContentFrom(order[i], p).None?
    ensures c.Some? ==> exists i :: (0 <= i < |order| && ContentFrom(order[i], p) == c &&
      forall k :: 0 <= k < i ==> ContentFrom(order[k], p).None?)
  {
    if |order| == 0 then None
    else if ContentFrom(order[0], p).Some? then ContentFrom(order[0], p)
    else
      var rest := FirstContent(order[1..], p);
      assert forall k :: 0 < k < |order| ==> order[k] == order[1..][k - 1];
      rest
  }

  /**
   * `get_random_content`: `shuffled` is the source list after `random.shuffle`;
   * the loop returns at the first source with content.
   */
  method GetRandomContent(contentType: Option<string>, shuffled: seq<Source>, p: Payloads) returns (content: Option<Content>)
    requires multiset(shuffled) == multiset(SourcesFor(contentType))
    ensures content == FirstContent(shuffled, p)
  {
    var i := 0;
    while i < |shuffled|
      invariant 0 <= i <= |shuffled|
      invariant FirstContent(shuffled[i..], p) == FirstContent(shuffled, p)
    {
      assert shuffled[i..][1..] == shuffled[i + 1..];
      var found := ContentFrom(shuffled[i], p);
      if found.Some? {
        content := found;
        return;
      }
      i := i + 1;
    }
    assert shuffled[|shuffled|..] == [];
    content := None;
  }

  /** A joke request never yields a quote, a quote request never a joke. */
  lemma {:induction false} RandomContentTypes(contentType: Option<string>, shuffled: seq<Source>, p: Payloads)
    requires multiset(shuffled) == multiset(SourcesFor(contentType))
    ensures FirstContent(shuffled, p).Some? && contentType == Some("joke") ==> FirstContent(shuffled, p).value.contentType == "joke"
    ensures FirstContent(shuffled, p).Some? && contentType == Some("quote") ==> FirstContent(shuffled, p).value.contentType == "quote"
  {
    var c := FirstContent(shuffled, p);
    if c.Some? {
      var i :| 0 <= i < |shuffled| && ContentFrom(shuffled[i], p) == c;
      assert shuffled[i] in multiset(SourcesFor(contentType));
    }
  }

  /** `"😄 " + text[:100]`. */
  function JokeMessage(text: string): (m: string)
    ensures m == "😄 " + Take(text, 100) && |m| <= 102
  {
    "😄 " + Take(text, 100)
  }

  /** `'💭 "' + text[:80] + '" - ' + author`. */
  function QuoteMessage(text: string, author: string): (m: string)
    ensures 7 + |author| <= |m| <= 87 + |author|
    ensures m[..3] == "💭 \"" && m[|m| - |author|..] == author
    ensures m[|m| - |author| - 4..|m| - |author|] == "\" - "
    ensures m[3..|m| - |author| - 4] == Take(text, 80)
    ensures |text| <= 80 ==> m[3..|m| - |author| - 4] == text
  {
    "💭 \"" + Take(text, 80) + "\" - " + author
  }

  // The pieces joined by `+` below spell the source's text; long literals are split only because the verifier handles short ones far more cheaply.
  const KeepCoding: string := "💫 Keep coding with " + "enthusiasm!"

  /** `enhance_with_ollama`: the first generated line when `ollama run` produced output, else the content itself. */
  function EnhanceWithOllama(content: Option<Content>, run: RunOutcome): (m: string)
    ensures content.None? ==> m == KeepCoding
    ensures content.Some? && run.Produced() ==> m == FirstLine(run.stdout)
    ensures content.Some? && !run.Produced() && content.value.contentType == "joke" ==>
      m == JokeMessage(content.value.content)
    ensures content.Some? && !run.Produced() && content.value.contentType != "joke" ==>
      m == QuoteMessage(content.value.content, content.value.author.GetOr(""))
  {
    if content.None? then KeepCoding
    else if run.Produced() then FirstLine(run.stdout)
    else if content.value.contentType == "joke" then JokeMessage(content.value.content)
    else QuoteMessage(content.value.content, content.value.author.GetOr(""))
  }

  /** `generate_external_message`. */
  function GenerateExternalMessage(contentType: Option<string>, useOllama: bool, shuffled: seq<Source>,
                                   p: Payloads, run: RunOutcome): (m: Option<string>)
    ensures m.None? <==> FirstContent(shuffled, p).None?
    ensures m.Some? && !useOllama && FirstContent(shuffled, p).value.contentType == "joke" ==>
      m.value == JokeMessage(FirstContent(shuffled, p).value.content)
    ensures m.Some? && !useOllama && FirstContent(shuffled, p).value.contentType != "joke" ==>
      m.value == QuoteMessage(FirstContent(shuffled, p).value.content, FirstContent(shuffled, p).value.author.GetOr("Unknown"))
    ensures m.Some? && useOllama ==> m.value == EnhanceWithOllama(FirstContent(shuffled, p), run)
  {
    var content := FirstContent(shuffled, p);
    if content.None? then None
    else if useOllama then Some(EnhanceWithOllama(content, run))
    else if content.value.contentType == "joke" then Some(JokeMessage(content.value.content))
    else Some(QuoteMessage(content.value.content, content.value.author.GetOr("Unknown")))
  }

  // The pieces joined by `+` spell the source's text; long literals are split only because the verifier handles short ones far more cheaply.
  const FallbackJokes: seq<string> := [
    "Why do programmers " + "prefer dark mode? " + "Because light attracts " + "bugs! 🐛",
    "A SQL query walks into " + "a bar, sees two tables " + "and asks: 'Can I join " + "you?' 🍺",
    "Why did the developer " + "quit? Because they " + "didn't get arrays! 💰",
    "How many programmers " + "does it take to change " + "a light bulb? None, " + "it's a hardware " + "problem! 💡",
    "Why do Java developers " + "wear glasses? Because " + "they can't C#! 👓",
    "There are only 10 types " + "of people: those who " + "understand binary and " + "those who don't! 🤓",
    "Why did the programmer " + "go broke? Because he " + "used up all his cache! 💸",
    "What's a programmer's " + "favorite hangout place? " + "The Foo Bar! 🍻",
    "Why was the JavaScript " + "developer sad? Because " + "they didn't Node how to " + "Express themselves! 😢",
    "How do you comfort a " + "JavaScript bug? You " + "console it! 🎮"
  ]

  // The pieces joined by `+` spell the source's text; long literals are split only because the verifier handles short ones far more cheaply.
  const FallbackQuotes: seq<string> := [
    "\"First, solve the " + "problem. Then, write " + "the code.\" - John " + "Johnson",
    "\"Experience is the name " + "everyone gives to their " + "mistakes.\" - Oscar Wilde",
    "\"The best way to " + "predict the future is " + "to implement it.\" - " + "David Heinemeier Hansson",
    "\"Code is like humor. " + "When you have to " + "explain it, it's bad.\" " + "- Cory House",
    "\"Programming is " + "thinking, not typing.\" " + "- Casey Patton"
  ]

  /** `get_fallback_external_message`: `pick` stands for `random.choice`. */
  function FallbackExternalMessage(contentType: Option<string>, pick: nat): (m: string)
    ensures contentType == Some("joke") ==> m in FallbackJokes
    ensures contentType == Some("quote") ==> m in FallbackQuotes
    ensures m in FallbackJokes || m in FallbackQuotes
  {
    if contentType == Some("joke") then FallbackJokes[pick % |FallbackJokes|]
    else if contentType == Some("quote") then FallbackQuotes[pick % |FallbackQuotes|]
    else
      var all := FallbackJokes + FallbackQuotes;
      var m := all[pick % |all|];
      assert m in FallbackJokes || m in FallbackQuotes by {
        var k := pick % |all|;
        if k < |FallbackJokes| { assert m == FallbackJokes[k]; } else { assert m == FallbackQuotes[k - |FallbackJokes|]; }
      }
      m
  }
}
