/**
 * The on-demand daily-text helper: the cleanup of the scripture and the
 * body text scraped from today's page, the encouragement `ollama run`
 * writes for it, and what is shown when the page or the model fails.
 * Finding the fragments in the HTML is not modelled: the page is given as
 * what its two searches captured.
 */
module JwTextCommand {
  import opened Wrappers
  import opened Text
  import opened Clock
  import opened Subprocess
  import opened OllamaCli
  import JwDailyText

  // The pieces joined by `+` spell the source's text; long literals are split only because the verifier handles short ones far more cheaply.
  const FallbackEncouragement: seq<string> := [
    "💪 Keep coding with " + "wisdom and purpose!",
    "🌟 Your dedication to " + "quality code reflects " + "spiritual values!",
    "🎯 Focus on building " + "with integrity and " + "excellence!",
    "🔧 Every line of code " + "can be an act of love " + "and service!",
    "✨ Let wisdom guide your " + "development today!",
    "🙏 May your work glorify " + "the Creator through " + "excellence!",
    "📖 Apply scriptural " + "principles to create " + "meaningful software!",
    "🌱 Grow in skill while " + "maintaining spiritual " + "balance!"
  ]

  /** One entry of `FALLBACK_TEXTS`. */
  datatype DailyEntry = DailyEntry(date: string, scripture: string, text: string, message: string)

  // The pieces joined by `+` spell the source's text; long literals are split only because the verifier handles short ones far more cheaply.
  const FallbackTexts: seq<DailyEntry> := [
    DailyEntry(
      "Daily Wisdom",
      "Proverbs 2:6 - 'Jehovah " + "himself gives wisdom'",
      "True wisdom comes from " + "above. As developers, " + "we can seek divine " + "guidance in solving " + "complex problems.",
      "💻 Just as we seek " + "divine wisdom, pursue " + "clean, thoughtful code " + "that serves others well!"),
    DailyEntry(
      "Daily Encouragement",
      "Ecclesiastes 9:10 - " + "'Whatever your hand " + "finds to do, do with " + "all your might'",
      "Excellence in our work, " + "including coding, " + "brings honor to our " + "Creator.",
      "🚀 Code with excellence " + "and dedication - your " + "work reflects your " + "values!"),
    DailyEntry(
      "Daily Motivation",
      "Colossians 3:23 - " + "'Whatever you do, work " + "at it with all your " + "heart'",
      "Wholehearted effort in " + "our programming work " + "can be a form of " + "worship.",
      "✨ Every function you " + "write can be an act of " + "love and service to " + "users!")
  ]

  const PreferredModels: seq<string> := ["llama3.2:latest", "mistral:7b-instruct", "llama3.2:1b"]

  /** The limit on the body text. */
  const BodyLimit: nat := 300

  /**
   * What the searches on the page captured: the theme scripture and the body
   * text, each None when neither of its two patterns matched.
   */
  datatype PageMatches = PageMatches(theme: Option<string>, body: Option<string>)

  /** `' '.join(re.sub(r'<[^>]+>', '', group).strip().split())`. */
  function CleanFragment(group: string): (r: string)
    ensures NoTag(r)
    ensures Words(r) == Words(RemoveTags(group))
    ensures Tidy(r)
    ensures forall i :: 0 <= i < |r| && IsSpace(r[i]) ==> r[i] == ' '
  {
    RemoveTagsNoTag(group);
    CleanText(RemoveTags(group));
    CollapseTidy(Strip(RemoveTags(group)));
    Collapse(Strip(RemoveTags(group)))
  }

  /** The body text: the cleaned fragment cut to its first 300 characters, which can end in a space. */
  function CleanBody(group: string): (r: string)
    ensures |r| <= BodyLimit
    ensures r <= CleanFragment(group)
    ensures |CleanFragment(group)| <= BodyLimit ==> r == CleanFragment(group)
    ensures |r| > 0 ==> !IsSpace(r[0])
    ensures forall i :: 0 <= i < |r| - 1 ==> !(IsSpace(r[i]) && IsSpace(r[i + 1]))
  {
    var full := CleanFragment(group);
    var r := Take(full, BodyLimit);
    assert forall i :: 0 <= i < |r| ==> r[i] == full[i];
    r
  }

  /**
   * `fetch_daily_text`: the page for `today` is fetched from the same address
   * the daily-text source uses; `page` gives what its searches captured, or
   * None when fetching or decoding raised.
   */
  function FetchDailyText(today: Instant, page: string -> Option<PageMatches>): (r: (Option<string>, Option<string>))
    ensures page(JwDailyText.BuildUrl(today)).None? ==> r == (None, None)
    ensures r.0.Some? <==> page(JwDailyText.BuildUrl(today)).Some? && page(JwDailyText.BuildUrl(today)).value.theme.Some?
    ensures r.1.Some? <==> page(JwDailyText.BuildUrl(today)).Some? && page(JwDailyText.BuildUrl(today)).value.body.Some?
    ensures r.0.Some? ==> r.0.value == CleanFragment(page(JwDailyText.BuildUrl(today)).value.theme.value)
    ensures r.1.Some? ==> r.1.value == CleanBody(page(JwDailyText.BuildUrl(today)).value.body.value)
  {
    var matches := page(JwDailyText.BuildUrl(today));
    if matches.None? then (None, None)
    else
      var theme := if matches.value.theme.Some? then Some(CleanFragment(matches.value.theme.value)) else None;
      var body := if matches.value.body.Some? then Some(CleanBody(matches.value.body.value)) else None;
      (theme, body)
  }

  /**
   * `generate_developer_encouragement`: "💻 " and the trimmed answer of the
   * picked model, else `random.choice(FALLBACK_ENCOURAGEMENT)` (index `pick`).
   * The prompt, built from the scripture, is not modelled.
   */
  function GenerateDeveloperEncouragement(list: RunOutcome, answer: string -> RunOutcome, pick: nat): (m: string)
    ensures Reply(list, answer, PreferredModels).Some? ==> m == "💻 " + Reply(list, answer, PreferredModels).value
    ensures Reply(list, answer, PreferredModels).None? ==> m in FallbackEncouragement
  {
    var reply := Reply(list, answer, PreferredModels);
    if reply.Some? then "💻 " + reply.value
    else FallbackEncouragement[pick % |FallbackEncouragement|]
  }

  /** A failed `ollama list`, or one that lists no model, leaves only the fallback messages. */
  lemma NoModelFallsBack(list: RunOutcome, answer: string -> RunOutcome, pick: nat)
    requires !list.Succeeded() || ListedModels(ListingLines(list.stdout)) == Some([])
    ensures GenerateDeveloperEncouragement(list, answer, pick) == FallbackEncouragement[pick % |FallbackEncouragement|]
  {
  }

  /** What `main` shows under the date heading. */
  datatype Display = Display(scripture: string, text: string, message: string)

  /**
   * `main`: the fetched scripture and text with an encouragement when both are
   * non-empty, else the scripture, text and message of `random.choice(FALLBACK_TEXTS)`
   * (index `textPick`).
   */
  function ShowDailyText(fetched: (Option<string>, Option<string>), list: RunOutcome, answer: string -> RunOutcome,
                         encouragementPick: nat, textPick: nat): (d: Display)
    ensures fetched.0.Some? && fetched.0.value != "" && fetched.1.Some? && fetched.1.value != "" ==>
      d == Display(fetched.0.value, fetched.1.value, GenerateDeveloperEncouragement(list, answer, encouragementPick))
    ensures !(fetched.0.Some? && fetched.0.value != "" && fetched.1.Some? && fetched.1.value != "") ==>
      exists e :: e in FallbackTexts && d == Display(e.scripture, e.text, e.message)
  {
    if fetched.0.Some? && fetched.0.value != "" && fetched.1.Some? && fetched.1.value != "" then
      Display(fetched.0.value, fetched.1.value, GenerateDeveloperEncouragement(list, answer, encouragementPick))
    else
      var e := FallbackTexts[textPick % |FallbackTexts|];
      Display(e.scripture, e.text, e.message)
  }

  /** Every fallback entry has a text within the limit and a message. */
  lemma FallbackTextsShort(k: nat)
    requires k < |FallbackTexts|
    ensures |FallbackTexts[k].text| <= BodyLimit && |FallbackTexts[k].message| > 0
  {
  }

  lemma FallbackEncouragementShown(k: nat)
    requires k < |FallbackEncouragement|
    ensures |FallbackEncouragement[k]| > 0
  {
  }

  /** Whatever happens, the text shown is at most 300 characters long and a message is shown. */
  lemma ShownTextBounded(today: Instant, page: string -> Option<PageMatches>, list: RunOutcome,
                         answer: string -> RunOutcome, encouragementPick: nat, textPick: nat)
    ensures var d := ShowDailyText(FetchDailyText(today, page), list, answer, encouragementPick, textPick);
      |d.text| <= BodyLimit && |d.message| > 0
  {
    var fetched := FetchDailyText(today, page);
    if !(fetched.0.Some? && fetched.0.value != "" && fetched.1.Some? && fetched.1.value != "") {
      FallbackTextsShort(textPick % |FallbackTexts|);
    } else if Reply(list, answer, PreferredModels).None? {
      FallbackEncouragementShown(encouragementPick % |FallbackEncouragement|);
    }
  }
}
