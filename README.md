# mood-lifter-hooks, modelled in Dafny

mood-lifter-hooks prints short encouraging messages when a coding
session starts, stops or notifies: ollama-generated text, fixed fallback
tables, jokes and quotes from public web services, stoic quotes and the
JW daily text, gated by a YAML configuration and a cooldown rate limiter.
This project models the deterministic decision logic behind that message
pipeline and proves what each step promises. The clock, the random draws,
the web services' answers and the `ollama` command's exit status and
output are all explicit parameters.

Layout, one module per source file, with shared helper modules:

- `wrappers.dfy` (`Option`), `text.dfy` (Python's `str` operations used by the
  source: `strip`, `split`, whitespace `split()`, slicing, tag removal),
  `json.dfy` (JSON values, dictionaries as association lists, truthiness),
  `clock.dfy` (dates, day ordinals, `isoformat`/`fromisoformat` for naive
  datetimes, day arithmetic, the hour buckets) and `subprocess.dfy` (the outcome of
  one `subprocess.run`, and the first-line cleanup of its output);
- `rate_limiter.dfy` (class `RateLimiter`), `api_client.dfy` (class `APIClient`),
  `config.dfy` (class `Config`), `ollama_models.dfy` (class `OllamaModelManager`):
  the stateful parts, as classes whose methods update their fields;
- `external_apis.dfy`, `jw_daily_text.dfy`, `stoic_quotes.dfy`,
  `message_generator.dfy`, `jw_text_command.dfy`, `joke_command.dfy`: the
  extractors, formatters and fallbacks, plus `ollama_cli.dfy` for the
  `ollama list` parsing and the preferred-model choice the two slash-command
  helpers share.

Conventions:

- `random.choice(xs)` is `xs[pick % |xs|]` for a parameter `pick`.
- `random.shuffle` is a parameter list that is a permutation of the original.
- `random.random()` is a real draw in [0, 1) and `random.randint` an integer
  draw within its bounds.
- `random.choices(choices, weights)` is an oracle function of both lists.
- A response that fails is `None`; `APIClient.get(url)` is a function `web`
  from URLs to optional JSON.

## Model

| member | source | states |
|---|---|---|
| RateLimiting.KeyForInjective | lib/rate_limiter.py:90 | distinct content types are stored under distinct `last_shown_` keys |
| RateLimiting.LoadSaveRoundTrip | lib/rate_limiter.py:44-77 | loading the saved file gives back the very state saved: timestamps come back as timestamps through their ISO strings, other values unchanged |
| RateLimiting.RateLimiter.constructor | lib/rate_limiter.py:24-60 | the state is what the loader makes of the file: parsable strings become timestamps, other values are kept, a missing file gives the empty state |
| RateLimiting.RateLimiter.SaveState | lib/rate_limiter.py:62-77 | each timestamp is written as its ISO string, every other value unchanged |
| RateLimiting.RateLimiter.ShouldShow | lib/rate_limiter.py:79-106 | true when the key is absent or holds no timestamp; otherwise true iff the time since the last showing is at least the cooldown |
| RateLimiting.RateLimiter.MarkShown | lib/rate_limiter.py:108-117 | only the type's key changes, to now; right afterwards the type is unavailable for every positive cooldown |
| RateLimiting.MarkShownIsolation | lib/rate_limiter.py:90-117 | marking one type changes neither the availability nor the waiting time of any other type |
| RateLimiting.RateLimiter.TimeUntilAvailable | lib/rate_limiter.py:119-146 | None exactly when `ShouldShow` would say true; otherwise the whole minutes left, rounded down, between 0 and the cooldown when the stored time is not in the future |
| RateLimiting.RateLimiter.Reset | lib/rate_limiter.py:148-163 | a non-empty type removes only its key; None or "" empties the whole state |
| RateLimiting.ShouldShowJwContent | lib/rate_limiter.py:177-198 | the JW content type is available under the given cooldown, else under the configured one |
| RateLimiting.MarkJwContentShown | lib/rate_limiter.py:201-204 | only the JW content key changes, to now |
| ApiIntegrations.SortPairsSorted | lib/api_integrations.py:74 | the pairs sorted by key, standing for `json.dumps(params, sort_keys=True)`, are ordered by key and a permutation of the parameters |
| ApiIntegrations.SortedUnique | lib/api_integrations.py:74 | two key-sorted lists of distinct keys with the same elements are equal |
| ApiIntegrations.PreHash | lib/api_integrations.py:70-75 | without params, or with empty ones, the string hashed is the URL itself; with params it is strictly longer and starts with the URL |
| ApiIntegrations.PreHashOrderInvariant | lib/api_integrations.py:70-75 | the order in which parameters are given does not change the key |
| ApiIntegrations.PreHashUrlInjective | lib/api_integrations.py:70-75 | for the same parameters, two different URLs never give the same string to hash, so they never share a key before the digest |
| ApiIntegrations.ResolveUrl | lib/api_integrations.py:115-119 | an absolute URL, or one with no base, is used unchanged; otherwise it is the base without trailing slashes, one `/`, and the URL without leading slashes |
| ApiIntegrations.FetchResult | lib/api_integrations.py:128-158 | a response is data iff it arrived with a status below 400 or at least 600; a text body is kept as text |
| ApiIntegrations.APIClient.constructor | lib/api_integrations.py:32-51 | the client keeps its base URL and TTL, and its cache starts empty |
| ApiIntegrations.APIClient.GetFromCache | lib/api_integrations.py:77-85 | an unexpired entry (valid up to and including its expiry) is returned and kept; an expired one is removed and gives None; an absent key gives None and changes nothing |
| ApiIntegrations.APIClient.AddToCache | lib/api_integrations.py:87-90 | stores one key, expiring at now plus the TTL; every other key is unchanged |
| ApiIntegrations.APIClient.ClearCache | lib/api_integrations.py:92-94 | the cache is empty |
| ApiIntegrations.APIClient.Get | lib/api_integrations.py:96-158 | without caching it fetches and leaves the cache alone; a hit returns the cached data without fetching; a miss fetches and stores a successful result under the key of the full URL and params; a failure stores nothing |
| ApiIntegrations.APIClient.Post | lib/api_integrations.py:160-210 | resolves the URL as `get` does and returns the response's data; the cache is not touched |
| ApiIntegrations.RepeatGetHits | lib/api_integrations.py:121-147 | after a fetch is stored, a repeated lookup before the TTL runs out is a hit on the same data |
| Configuration.MergeKeys | lib/config.py:110-129 | the merged keys are the union of both key sets |
| Configuration.MergeLookup | lib/config.py:110-129 | a key only in the base keeps its value; a key in the override gets the override's value, merged recursively when both sides are dictionaries |
| Configuration.MergeEmpty | lib/config.py:110-129 | merging with an empty override gives the base |
| Configuration.MergeConfigs | lib/config.py:110-129 | the merge loop computes the recursive merge |
| Configuration.WalkAt | lib/config.py:142-153 | the dotted-path walk gives the value at the path when every segment is present under a dictionary, else the default |
| Configuration.Config.Get | lib/config.py:131-153 | the value at the dotted path inside `mood_lifter_hooks`, even a falsy one; the default when a segment is missing or null or a step is not a dictionary |
| Configuration.KeysOf | lib/config.py:155-272 | every getter's path has at least one segment and no segment holds a dot |
| Configuration.PathKeys | lib/config.py:155-272 | splitting a getter's dotted path at the dots gives back its segments |
| Configuration.FallbackOllamaValues | lib/config.py:54-81 | the built-in ollama section: enabled, no variety, `phi3.5:3.8b` preferred, 5 second timeout |
| Configuration.FallbackOllamaFlags | lib/config.py:54-81 | with the built-in configuration ollama is enabled and variety is off, although the getter's own default is on |
| Configuration.FallbackOllamaModels | lib/config.py:54-81 | with the built-in configuration the preferred models are `["phi3.5:3.8b"]` and the timeout is 5 seconds |
| Configuration.FallbackOtherSettings | lib/config.py:54-81 | with the built-in configuration the hooks are enabled and the source weights are `{"default": 100}` |
| Configuration.FallbackJwSettings | lib/config.py:179-185 | with the built-in configuration the JW source is enabled with a 30 minute limit (the getters' defaults) |
| Configuration.FallbackExternalApis | lib/config.py:187-189 | with the built-in configuration the external APIs are enabled (the getter's default) |
| Configuration.FallbackTimePreferences | lib/config.py:222-224 | with the built-in configuration there are no time preferences (the getter's default) |
| Configuration.FallbackDebug | lib/config.py:270-272 | with the built-in configuration debugging is off (the getter's default) |
| Configuration.FallbackMaxLength | lib/config.py:258-260 | with the built-in configuration messages are at most 120 characters |
| Configuration.FallbackIncludeEmojis | lib/config.py:262-264 | with the built-in configuration emojis are included |
| Configuration.FallbackSuppressErrors | lib/config.py:266-268 | with the built-in configuration errors are suppressed |
| Configuration.ShowMessage | lib/config.py:203-220 | an event with no configuration is shown; a disabled event is not; an enabled one is shown iff the draw is below its probability (1.0 by default) |
| Configuration.ScanFirstMatch | lib/config.py:233-238 | the configured period found is the first, in order, with at least two hours whose range holds the hour; none is found iff no entry matches |
| Configuration.PeriodFallback | lib/config.py:240-246 | without time preferences the period is morning for 5 to 11, afternoon for 12 to 16, else evening |
| Configuration.Config.CurrentTimePeriod | lib/config.py:226-246 | the scan over the configured periods, then the fixed buckets |
| Configuration.ScannedEntryIsObject | lib/config.py:233-238 | the entry of a period the hour scan returned (found, or by falling back) is a dictionary, since reading any other entry raises |
| Configuration.PreferredSources | lib/config.py:248-256 | the `prefer_sources` of the configured entry of the period, `["default"]` when that entry has none or the period has no entry; None when finding the period raises |
| Configuration.Config.constructor | lib/config.py:27-52 | the defaults (or the built-in configuration), merged with the user file when it holds a dictionary |
| Configuration.Config.LoadUserConfig | lib/config.py:90-108 | a user dictionary is merged over the current configuration; anything else leaves it unchanged |
| OllamaModels.NormalizeModelName | lib/ollama_models.py:84-87 | a tag without a digit is dropped, leaving the base name; a tag with a digit, or no tag, keeps the name whole |
| OllamaModels.NormalizeIdempotent | lib/ollama_models.py:84-87 | normalising twice is normalising once |
| OllamaModels.ModelsOfLinesShape | lib/ollama_models.py:76-88 | every parsed name has no whitespace and is a prefix of a line's first word; at most one name per line |
| OllamaModels.ParseModels | lib/ollama_models.py:76-88 | the listing without its header is parsed line by line as specified |
| OllamaModels.ParseLines | lib/ollama_models.py:80-88 | the appending loop builds the first-word list of the non-blank lines |
| OllamaModels.FilterInstalled | lib/ollama_models.py:113-121 | keeps exactly the recommended models whose full or base name is available; nothing when nothing is available |
| OllamaModels.FilterInstalledInOrder | lib/ollama_models.py:113-121 | the kept models are the recommended list read, in increasing order, at exactly the positions of installed models |
| OllamaModels.FilterInstalledDistinct | lib/ollama_models.py:113-121 | filtering a list without repeats gives one without repeats |
| OllamaModels.KeepInstalled | lib/ollama_models.py:114-119 | the filtering loop computes that sub-list |
| OllamaModels.OllamaModelManager.constructor | lib/ollama_models.py:31-42 | an empty cache, no last-used model and no usage counts |
| OllamaModels.CacheValid | lib/ollama_models.py:44-50 | (predicate) both the list and its time are set and the list is younger than the TTL |
| OllamaModels.Listed | lib/ollama_models.py:62-100 | `get_available_models()` answers from a valid cache, else with the parsed listing, else with no models |
| OllamaModels.Refreshed | lib/ollama_models.py:62-100 | a successful listing on an invalid cache is stored with its time; otherwise the cache is kept; the cache is valid afterwards iff it was, or a listing was stored with a positive TTL |
| OllamaModels.RefreshedAnswers | lib/ollama_models.py:44-100 | a listing stored at `now` answers every later call until the TTL has passed, and a cache still valid at a later time answers as it did at `now`; neither reads the later call's listing |
| OllamaModels.OllamaModelManager.GetAvailableModels | lib/ollama_models.py:52-100 | a valid cache is returned unchanged unless refreshing; a successful listing is parsed and cached with its time; a failure gives no models and leaves the cache as it was |
| OllamaModels.OllamaModelManager.GetRecommendedAvailableModels | lib/ollama_models.py:102-121 | the available list is what `get_available_models()` answers, the cache is the one it leaves, and the result is the installed recommended models (in order, by FilterInstalledInOrder) |
| OllamaModels.OllamaModelManager.Weights | lib/ollama_models.py:151-157 | the weighting loop computes `WeightsFor` of the current usage counts |
| OllamaModels.WeightsFor | lib/ollama_models.py:152-157 | one weight per choice, at least 1: `10 - usage` up to a usage of 9, then 1; a less used choice never weighs less than a more used one |
| OllamaModels.Candidates | lib/ollama_models.py:146-149 | the last used model is dropped when it is recommended and every other recommended model stays; otherwise all are candidates; two or more distinct models leave at least one |
| OllamaModels.WeightedChoice | lib/ollama_models.py:160 | `random.choices(choices, weights)[0]` returns one of the choices |
| OllamaModels.OllamaModelManager.PickVaried | lib/ollama_models.py:144-160 | the weighted draw over the candidates with the current usage weights; so a recommended model other than the last used one |
| OllamaModels.OllamaModelManager.SelectModel | lib/ollama_models.py:123-169 | the recommended models are those installed according to the first listing call, and the cache is what that call (and, without recommended models, the second call) leaves; with no recommended model: `random.choice` of the available ones, else the default, and nothing tracked; otherwise the weighted draw over the candidates (variety with two or more) or `random.choice`, which becomes the last used model with only its count one higher |
| OllamaModels.OllamaModelManager.PickAvailable | lib/ollama_models.py:133-142 | without recommended models: `random.choice` of what `get_available_models()` answers, else the default model, and the cache it leaves |
| OllamaModels.OllamaModelManager.PickRecommended | lib/ollama_models.py:144-167 | the weighted variety draw with two or more recommended models, else `random.choice`; one of the recommended models, which is tracked as last used with its count one higher |
| OllamaModels.OllamaModelManager.Track | lib/ollama_models.py:165-167 | the selected model becomes the last used one and only its count goes up, by one |
| OllamaModels.OllamaModelManager.IsModelAvailable | lib/ollama_models.py:206-220 | true iff the full or base name is among the listed models; the cache is what the listing call leaves |
| OllamaModels.Choose | lib/ollama_models.py:139 | `random.choice` returns a member of the list |
| OllamaModels.ChooseCovers | lib/ollama_models.py:139 | every member of the list can be the one chosen |
| OllamaModels.Without | lib/ollama_models.py:147 | exactly the elements other than the last used model; the whole list when it is absent |
| OllamaModels.WithoutInOrder | lib/ollama_models.py:147 | the result is the list read, in increasing order, at exactly the positions not holding the last used model |
| ExternalApis.TextField | lib/external_apis.py:50 | a missing field reads as the default, a text field as its text |
| ExternalApis.FieldJoke | lib/external_apis.py:39-52 | the text under the key of a dictionary payload, "" when the key is missing; None for any other payload (also `get_chuck_norris_joke`, lines 115-128, with key `value`) |
| ExternalApis.SingleJokeWins | lib/external_apis.py:62-65 | a "single" joke is returned, even an empty one, and the second service plays no part |
| ExternalApis.TwoPartJoke | lib/external_apis.py:66-70 | a complete "twopart" joke is setup, a space and delivery |
| ExternalApis.ProgrammingJokeFallback | lib/external_apis.py:72-82 | otherwise the second service decides, and an unusable second payload gives None |
| ExternalApis.OfficialJoke | lib/external_apis.py:73-80 | a joke exactly when the first item of a non-empty list is a dictionary with a non-empty setup and punchline; it is the two joined by a space |
| ExternalApis.InspirationalQuote | lib/external_apis.py:84-113 | the first ZenQuotes item (`q`, and `a` defaulting to "Unknown") when usable, else Quote Garden's first item, else None |
| ExternalApis.ZenDefaultAuthor | lib/external_apis.py:98 | a ZenQuotes item without an author is credited to "Unknown" |
| ExternalApis.SourcesFor | lib/external_apis.py:140-145 | a joke request has exactly the three joke sources, a quote request only the quote source, any other request all four |
| ExternalApis.SourcesForAny | lib/external_apis.py:144-145 | any other request includes every source |
| ExternalApis.ContentFrom | lib/external_apis.py:150-175 | each source gives content exactly when its reader returns a non-empty text (a quote with non-empty text), and the content is that text, with the quote's author; only the quote source gives a quote |
| ExternalApis.FirstContent | lib/external_apis.py:148-180 | the content of the first source in order that yields any; None iff none does |
| ExternalApis.GetRandomContent | lib/external_apis.py:130-180 | the loop returns the content of the first source, in shuffled order, that yields any, and None when none does (`FirstContent`) |
| ExternalApis.RandomContentTypes | lib/external_apis.py:140-180 | for any shuffle, a joke request never yields a quote and a quote request never a joke |
| ExternalApis.JokeMessage | lib/external_apis.py:234-235 | "😄 " and at most 100 characters of the joke |
| ExternalApis.QuoteMessage | lib/external_apis.py:236-237 | opens with `💭 "`, ends with `" - ` and the author, and the part between the quotes is `text[:80]` (the whole text when it is at most 80 characters) |
| ExternalApis.EnhanceWithOllama | lib/external_apis.py:183-237 | no content gives the fixed message; produced output gives its first line; otherwise the joke or quote format |
| ExternalApis.GenerateExternalMessage | lib/external_apis.py:240-272 | None iff no content was found; else the enhanced text, or the joke format, or the quote format with "Unknown" as default author |
| ExternalApis.FallbackExternalMessage | lib/external_apis.py:298-306 | a fallback joke for "joke", a fallback quote for "quote", one of either otherwise |
| JwDailyText.DatePathDecodes | lib/jw_daily_text.py:50-54 | the date part of the URL is three unpadded decimal numbers that read back as year, month and day |
| JwDailyText.BuildUrlInjective | lib/jw_daily_text.py:37-54 | different days give different URLs |
| JwDailyText.ScriptureAndCommentary | lib/jw_daily_text.py:93-99 | empty content gives two empty parts; the scripture is one line; with a newline in the stripped content, scripture, newline and commentary rebuild it and the commentary is non-empty; with none, the scripture is the whole stripped content and the commentary empty |
| JwDailyText.FirstDailyTextItem | lib/jw_daily_text.py:78-81 | the index of the first item of "Examining the Scriptures Daily" with an "es" symbol |
| JwDailyText.DailyTextOf | lib/jw_daily_text.py:56-124 | a missing or non-dictionary payload, or one without items, gives None; a record carries the requested date |
| JwDailyText.DailyTextChoice | lib/jw_daily_text.py:78-122 | the first matching item is used; without one, the first item, with no scripture and its whole content as commentary |
| JwDailyText.FetchDailyText | lib/jw_daily_text.py:56-124 | the loop requests the URL of the date (today by default) and builds that record |
| JwDailyText.RandomPastDate | lib/jw_daily_text.py:126-137 | the date is between 1 and `days_back` days before now |
| JwDailyText.FetchForTimePeriod | lib/jw_daily_text.py:139-160 | the address and the daily text are those of `RequestedDay`: a past date for afternoon and evening with a draw below 0.3, today otherwise |
| JwDailyText.FetchedDay | lib/jw_daily_text.py:148-160 | the past date is 1 to 14 days back; morning, any other period and a draw of 0.3 or more ask for today |
| JwDailyText.FallbackEncouragements | lib/jw_daily_text.py:213-219 | five non-empty fallback templates; the two that quote the daily text hold at most 50 characters of its title and 40 of its scripture, so a fallback stays short whatever the text |
| JwDailyText.CreateDeveloperEncouragement | lib/jw_daily_text.py:163-221 | no daily text gives the fixed message; produced output gives its first line, at most 120 characters; otherwise one of the fallback templates |
| JwDailyText.GenerateJwMessage | lib/jw_daily_text.py:224-259 | the period comes from the hour when not given; None iff no daily text was found, else its encouragement |
| StoicQuotes.WithTheme | lib/stoic_quotes.py:212 | exactly the quotes of the theme |
| StoicQuotes.QuotePool | lib/stoic_quotes.py:211-219 | a non-empty pool of table quotes |
| StoicQuotes.GetStoicQuote | lib/stoic_quotes.py:201-224 | a text and author from the table, from the theme's quotes when a non-empty theme has any |
| StoicQuotes.QuotesWellFormed | lib/stoic_quotes.py:20-183 | every quote has more than 10 characters of text and an author |
| StoicQuotes.AngerQuotes | lib/stoic_quotes.py:20-183 | at least two anger quotes |
| StoicQuotes.ControlQuotes | lib/stoic_quotes.py:20-183 | at least two control quotes |
| StoicQuotes.PeaceQuotes | lib/stoic_quotes.py:20-183 | at least two peace quotes |
| StoicQuotes.ObstacleQuotes | lib/stoic_quotes.py:20-183 | at least two obstacles quotes |
| StoicQuotes.ThemesDistinct | lib/stoic_quotes.py:20-183 | the table has quotes of at least four different themes: anger, control, peace and obstacles |
| StoicQuotes.GeneralWisdom | lib/stoic_quotes.py:227-234 | a member of the general wisdom table |
| StoicQuotes.EnhanceStoicQuote | lib/stoic_quotes.py:237-264 | no quote gives the fixed message; text over 100 characters is cut to 97 and an ellipsis; otherwise quoted whole; always opens with "🧘 " |
| StoicQuotes.ThemeContext | lib/stoic_quotes.py:284-295 | anger, control, peace and obstacles have their own sentence; every other theme the generic one |
| StoicQuotes.ThemeContextDistinct | lib/stoic_quotes.py:284-295 | the four themed sentences differ from each other and from the generic one |
| StoicQuotes.PureStoicWisdom | lib/stoic_quotes.py:305-320 | the first line of produced output, else None |
| StoicQuotes.GenerateStoicMessage | lib/stoic_quotes.py:323-363 | general wisdom is prefixed and returned first; pure generation only with ollama and a draw below the ratio, and falls through when empty; then the enhanced quote, or the plain quoted form without ollama |
| StoicQuotes.PlainQuoteMessage | lib/stoic_quotes.py:359-363 | without ollama the message quotes a table entry in full |
| StoicQuotes.FallbackStoicMessage | lib/stoic_quotes.py:366-374 | a member of the fallback table, opening with one of the calm emoji |
| MessageGenerator.FallbackList | lib/message_generator.py:125 | the event's eight fallback messages, Notification's for an unknown event |
| MessageGenerator.Prompt | lib/message_generator.py:86-97 | SessionStart's prompt follows the time of day, Stop and Notification use their default; there is a prompt iff the event is known |
| MessageGenerator.GenerateWithOllama | lib/message_generator.py:75-120 | an unknown event gives None whatever ollama does; for a known one there is a message iff ollama produced output, at most 100 characters |
| MessageGenerator.GeneratedCut | lib/message_generator.py:108-114 | a first line of up to 100 characters is kept whole and has no newline; a longer one keeps 97 characters and an ellipsis |
| MessageGenerator.UnknownEventSkipsOllama | lib/message_generator.py:88-97 | an unknown event's result does not depend on the ollama outcome |
| MessageGenerator.FallbackMessage | lib/message_generator.py:123-126 | a non-empty member of the event's list; an unknown event uses the Notification list |
| MessageGenerator.GenerateMessage | lib/message_generator.py:129-147 | never empty; the generated text when ollama is used and gives some, else a fallback |
| MessageGenerator.FormatHookOutput | lib/message_generator.py:150-169 | for SessionStart exactly the keys `suppressOutput` (true) and `systemMessage` (the message); None for every other event |
| Clock.DayPeriod | lib/message_generator.py:64-72 | morning iff 5 to 11, afternoon iff 12 to 16, evening iff neither |
| Clock.IsoRoundTrip | lib/rate_limiter.py:51-56 | `fromisoformat(isoformat(t))` is `t` |
| Clock.MinusDays | lib/jw_daily_text.py:137 | subtracting days moves the day ordinal back by that many and keeps the time of day |
| OllamaCli.ListedModels | lib/joke_command.py:54-58 | the models are the first words of the non-empty lines after the header; None iff some non-empty line has no word |
| OllamaCli.ListedModelsInOrder | lib/joke_command.py:54-58 | the models are the first words read, in increasing order, at exactly the positions of the non-empty lines, one per line |
| OllamaCli.ParseListing | lib/jw_text_command.py:100-105 | the appending loop computes that list |
| OllamaCli.FirstMatching | lib/jw_text_command.py:112 | the first preferred model starting with the base name of a listed one; None iff there is none |
| OllamaCli.PickModel | lib/joke_command.py:64-65 | the first preferred model, in order, that matches a listed model; the first listed model when none matches |
| OllamaCli.ListedPreferredWins | lib/jw_text_command.py:111-112 | a preferred model that is listed makes a preferred model the choice |
| OllamaCli.Reply | lib/joke_command.py:43-94 | an answer iff the listing succeeded with at least one model and the picked model answered with more than whitespace; the answer is that output stripped |
| OllamaCli.Ask | lib/jw_text_command.py:88-132 | the listing, the parsing loop and the run compute that answer |
| OllamaCli.ReplyTrimmed | lib/jw_text_command.py:126-127 | the answer is non-empty and has no whitespace at either end |
| Text.CleanText | lib/jw_text_command.py:71-72 | `' '.join(s.strip().split())` has the words of `s`, and leaves a text without tags without tags |
| JwTextCommand.CleanFragment | lib/jw_text_command.py:70-72 | no tag is left, the words are those of the text with tags removed, no whitespace at either end, and none but single spaces inside |
| JwTextCommand.CleanBody | lib/jw_text_command.py:76-78 | at most 300 characters, a prefix of the cleaned text and all of it when that is short enough, no leading or doubled whitespace |
| JwTextCommand.FetchDailyText | lib/jw_text_command.py:50-84 | the page of today's URL; a part is present iff its search matched, cleaned; any failure gives neither part |
| JwTextCommand.GenerateDeveloperEncouragement | lib/jw_text_command.py:86-132 | "💻 " and the reply when there is one; else a member of the fallback encouragements |
| JwTextCommand.NoModelFallsBack | lib/jw_text_command.py:97-108 | a failed listing, or one without models, gives the fallback |
| JwTextCommand.ShowDailyText | lib/jw_text_command.py:143-159 | both parts non-empty: they are shown with an encouragement; otherwise a whole fallback entry |
| JwTextCommand.ShownTextBounded | lib/jw_text_command.py:143-159 | the text shown is at most 300 characters and a message is always shown |
| JokeCommand.GenerateJoke | lib/joke_command.py:39-94 | None iff there is no reply; else an emoji of the list, a space and the reply |
| JokeCommand.GeneratedJokeShape | lib/joke_command.py:85-89 | a joke opens with a listed emoji and a space, then text without whitespace at either end |
| JokeCommand.JokeOfTheMoment | lib/joke_command.py:96-103 | the generated joke, else a member of the fallback jokes; never empty |
| JokeCommand.NoModelGivesFixedJoke | lib/joke_command.py:50-61 | a failed listing, or one without models, gives a fallback joke |

## Left out

- Network I/O: the `requests` session, its retry and backoff adapter, timeouts and user agents. A fetch is a parameter: an `Outcome` for `APIClient`, a function from URL to optional JSON for the payloads, a function from URL to the page's captured fragments for the daily-text helper.
- MD5 in `_get_cache_key`: an abstract `digest` function, given to the client, applied to the string that would be hashed, which is modelled exactly for string keys and values (`json.dumps` with `ensure_ascii`: control characters, DEL and non-ASCII characters as `\u` escapes, surrogate pairs above U+FFFF).
- JSON encoding in the cache key: `json.dumps` of the sorted pairs is written out for string keys and values; other parameter value types are not modelled.
- `subprocess.run` of `ollama run`/`ollama list`: each outcome is a parameter (exit status and output); timeouts and a missing binary are outcomes that produced nothing. What `ollama run` answers does not depend on the prompt in the model. The prompt tables of the hooks' generator (`MessageGenerator.Prompt`) and the stoic theme contexts (`StoicQuotes.ThemeContext`) are modelled; the prompts built by `enhance_with_ollama`, the daily-text encouragement and the two slash-command helpers (with the joke helper's `random.choice` of a prompt) are not.
- `pull_model`, the pulling path of `ensure_model_available` and `generate_with_model` in `lib/ollama_models.py`: they only run subprocesses (the availability check is modelled).
- The regular-expression scraping of the daily-text page: the page is given as what its searches captured; only the cleanup afterwards is modelled.
- File I/O: reading YAML and JSON configuration, `save_user_config`, the rate-limiter state file and its directory. The configuration is given as parsed JSON values, the state file as a parsed dictionary, and saving returns the dictionary that would be written.
- The `get_config`/`get_rate_limiter` singletons and `reload_config`: the JW helpers take the limiter and the configured cooldown as arguments.
- `hooks/*.py`, `lib/constants.py` (values inlined) and the self-test printers `test_*`.
- The headings and dates `main` prints in the slash-command helpers: the model says what is shown, not how it is printed.
- Payload fields of a kind other than text (a number where a joke was expected, say) are read as "" where the source would pass the raw value through or raise.
- JwDailyText.DailyTextOf: an `items` field that is not a list is read as no items, where the source would iterate over it or raise.
- JwDailyText.FetchForTimePeriod: when a past date is drawn, requires the clock to be more than 14 days after 1 January of year 1, because the source's `datetime - timedelta` raises `OverflowError` there.
- OllamaModels.NormalizeModelName: the digit test of a tag accepts only `0`-`9`; Python's `str.isdigit` also accepts other Unicode digits (superscripts, other scripts), which the model reads as non-digits.
- JwDailyText.DailyTextOf: an element of `items` that is not a dictionary makes the source raise `AttributeError` at `item.get`; the model reads it as a non-matching item, or, taken as the first item, as a record with empty fields.
- JwDailyText.FetchDailyText: the record's `date` for today is a second `datetime.now()` reading in the source; the model uses the same instant as for the address.
- OllamaModels.OllamaModelManager.GetAvailableModels: the source stores `datetime.now()` after parsing and reads the clock again in `_is_cache_valid`; the model takes one clock reading per call, in whole seconds.
- ExternalApis.GetRandomContent: an exception inside a source is caught and the next source tried; in the model a failure is already a `None` payload, so the two coincide.
- RateLimiting.RateLimiter.ShouldShow: timestamps are naive datetimes to the microsecond; time zones and the full ISO 8601 grammar accepted by `fromisoformat` are not modelled, only the form `isoformat` writes.
- RateLimiting.RateLimiter.TimeUntilAvailable: `int(total_seconds() / 60)` is modelled as exact division rounded toward zero; the floating-point rounding of very large differences is not.
- Configuration.ShowMessage: probabilities and JSON numbers are exact reals, not IEEE doubles.
- ApiIntegrations.APIClient.Get: the clock is read twice (at lookup and at storing) and both readings are parameters; `datetime` values are whole seconds.
