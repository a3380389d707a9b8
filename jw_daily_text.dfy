/**
 * The daily text from wol.jw.org: the date URL, the choice of the
 * "Examining the Scriptures Daily" item from the JSON payload and its split
 * into scripture and commentary, the date choice by time of day, and the
 * developer encouragement built from it. `web(url)` is what
 * `APIClient.get(url)` returned; the clock, the random values and the
 * `ollama run` result are parameters.
 */
module JwDailyText {
  import opened Wrappers
  import opened Text
  import opened Json
  import opened Clock
  import opened Subprocess

  const BaseUrl: string := "https://wol.jw.org/wol/dt/r1/lp-e"
  // The pieces joined by `+` below spell the source's text; long literals are split only because the verifier handles short ones far more cheaply.
  const PublicationTitle: string := "Examining the " + "Scriptures Daily"

  /** `year/month/day` without zero padding. */
  function DatePath(date: Instant): string
  {
    Join([NatToString(date.year), NatToString(date.month), NatToString(date.day)], "/")
  }

  /** `_build_url`. */
  function BuildUrl(date: Instant): string
  {
    BaseUrl + "/" + DatePath(date)
  }

  /** The path reads back as the date: three `/`-separated decimal numbers. */
  lemma DatePathDecodes(date: Instant)
    ensures var parts := Split(DatePath(date), '/');
      && |parts| == 3
      && (forall k :: 0 <= k < 3 ==> forall i :: 0 <= i < |parts[k]| ==> IsAsciiDigit(parts[k][i]))
      && ParseNat(parts[0]) == date.year && ParseNat(parts[1]) == date.month && ParseNat(parts[2]) == date.day
  {
    var ps := [NatToString(date.year), NatToString(date.month), NatToString(date.day)];
    forall k | 0 <= k < 3 ensures '/' !in ps[k] {
      assert forall i :: 0 <= i < |ps[k]| ==> IsAsciiDigit(ps[k][i]);
    }
    JoinSplit(ps, '/');
    ParseNatToString(date.year);
    ParseNatToString(date.month);
    ParseNatToString(date.day);
  }

  /** Different days have different URLs. */
  lemma BuildUrlInjective(a: Instant, b: Instant)
    requires BuildUrl(a) == BuildUrl(b)
    ensures a.year == b.year && a.month == b.month && a.day == b.day
  {
    var prefix := BaseUrl + "/";
    assert BuildUrl(a)[|prefix|..] == DatePath(a);
    assert BuildUrl(b)[|prefix|..] == DatePath(b);
    DatePathDecodes(a);
    DatePathDecodes(b);
  }

  /** The record `fetch_daily_text` returns. */
  datatype DailyText = DailyText(
    date: Instant, title: string, reference: string, scripture: string,
    commentary: string, fullContent: string, publication: string)

  /** `data.get("items", [])`, when it is a list. */
  function Items(data: Json): seq<Json>
  {
    match Member(data, "items")
    case Some(JArr(xs)) => xs
    case _ => []
  }

  /** `item.get(key, "")` read as text. */
  function TextAt(item: Json, key: string): string
  {
    match Member(item, key)
    case Some(JStr(s)) => s
    case _ => ""
  }

  /** The item of the wanted publication: its symbol starts with "es" and its title names the publication. */
  predicate IsDailyTextItem(item: Json)
  {
    "es" <= TextAt(item, "englishSymbol") && Contains(TextAt(item, "publicationTitle"), PublicationTitle)
  }

  /** The first line of the stripped content, and the remaining lines joined by newlines. */
  function ScriptureAndCommentary(content: string): (r: (string, string))
    ensures content == "" ==> r == ("", "")
    ensures '\n' !in r.0
    ensures content != "" && '\n' in Strip(content) ==> r.0 + "\n" + r.1 == Strip(content)
    ensures content != "" && '\n' !in Strip(content) ==> r == (Strip(content), "")
    ensures content != "" ==> (r.1 != "" <==> '\n' in Strip(content))
  {
    if content == "" then ("", "")
    else
      var lines := Split(Strip(content), '\n');
      SplitJoin(Strip(content), '\n');
      var commentary := if |lines| > 1 then Join(lines[1..], "\n") else "";
      assert |lines| > 1 ==> Join(lines, "\n") == lines[0] + "\n" + commentary;
      assert '\n' !in Strip(content) ==> |lines| == 1 by {
        if '\n' !in Strip(content) { SplitNone(Strip(content), '\n'); }
      }
      assert '\n' in Strip(content) ==> commentary != "" by {
        if '\n' in Strip(content) && commentary == "" {
          StripSpec(content);
        }
      }
      (lines[0], commentary)
  }

  function FromMatch(item: Json, date: Instant): DailyText
  {
    var content := TextAt(item, "content");
    var parts := ScriptureAndCommentary(content);
    DailyText(date, TextAt(item, "title"), TextAt(item, "reference"), parts.0, parts.1, content, TextAt(item, "publicationTitle"))
  }

  function FromFirst(item: Json, date: Instant): DailyText
  {
    var content := TextAt(item, "content");
    DailyText(date, TextAt(item, "title"), TextAt(item, "reference"), "", content, content, TextAt(item, "publicationTitle"))
  }

  /** Index of the first daily-text item, or `|items|`. */
  function FirstDailyTextItem(items: seq<Json>): (i: nat)
    ensures i <= |items|
    ensures forall k :: 0 <= k < i ==> !IsDailyTextItem(items[k])
    ensures i < |items| ==> IsDailyTextItem(items[i])
  {
    if |items| == 0 || IsDailyTextItem(items[0]) then 0 else 1 + FirstDailyTextItem(items[1..])
  }

  /** What `fetch_daily_text` makes of a payload for `date`. */
  function DailyTextOf(data: Option<Json>, date: Instant): (r: Option<DailyText>)
    ensures !IsDictPayload(data) ==> r.None?
    ensures IsDictPayload(data) && |Items(data.value)| == 0 ==> r.None?
    ensures r.Some? ==> r.value.date == date
  {
    if !IsDictPayload(data) then None
    else
      var items := Items(data.value);
      var i := FirstDailyTextItem(items);
      if i < |items| then Some(FromMatch(items[i], date))
      else if |items| > 0 then Some(FromFirst(items[0], date))
      else None
  }

  /** With a matching item, the first one is used; without one, the first item gives its content as commentary. */
  lemma DailyTextChoice(data: Option<Json>, date: Instant)
    requires IsDictPayload(data)
    ensures var items := Items(data.value);
      && (forall i :: 0 <= i < |items| && IsDailyTextItem(items[i]) && (forall k :: 0 <= k < i ==> !IsDailyTextItem(items[k])) ==>
            DailyTextOf(data, date) == Some(FromMatch(items[i], date)))
      && ((forall k :: 0 <= k < |items| ==> !IsDailyTextItem(items[k])) && |items| > 0 ==>
            && DailyTextOf(data, date) == Some(FromFirst(items[0], date))
            && DailyTextOf(data, date).value.scripture == ""
            && DailyTextOf(data, date).value.commentary == DailyTextOf(data, date).value.fullContent)
  {
    var items := Items(data.value);
    var j := FirstDailyTextItem(items);
    forall i | 0 <= i < |items| && IsDailyTextItem(items[i]) && (forall k :: 0 <= k < i ==> !IsDailyTextItem(items[k]))
      ensures DailyTextOf(data, date) == Some(FromMatch(items[i], date))
    {
      assert i == j;
    }
  }

  /** `fetch_daily_text(date)`: the URL it requests and the record it builds from the answer. */
  method FetchDailyText(date: Option<Instant>, now: Instant, web: string -> Option<Json>) returns (url: string, text: Option<DailyText>)
    ensures url == BuildUrl(date.GetOr(now))
    ensures text == DailyTextOf(web(url), date.GetOr(now))
  {
    var day := date.GetOr(now);
    url := BuildUrl(day);
    var data := web(url);
    if !IsDictPayload(data) {
      return url, None;
    }
    var items := Items(data.value);
    var i := 0;
    while i < |items|
      invariant 0 <= i <= |items|
      invariant forall k :: 0 <= k < i ==> !IsDailyTextItem(items[k])
    {
      var item := items[i];
      if IsDailyTextItem(item) {
        FirstIndex(items, i);
        assert DailyTextOf(data, day) == Some(FromMatch(item, day));
        return url, Some(FromMatch(item, day));
      }
      i := i + 1;
    }
    FirstIndex(items, |items|);
    if |items| > 0 {
      assert DailyTextOf(data, day) == Some(FromFirst(items[0], day));
      return url, Some(FromFirst(items[0], day));
    }
    return url, None;
  }

  /** An index below which no item matches, and that matches or is the end, is the first match. */
  lemma FirstIndex(items: seq<Json>, i: nat)
    requires i <= |items|
    requires forall k :: 0 <= k < i ==> !IsDailyTextItem(items[k])
    requires i < |items| ==> IsDailyTextItem(items[i])
    ensures FirstDailyTextItem(items) == i
  {
  }

  /** `get_random_past_date`: `days` is the `random.randint(1, daysBack)` draw. */
  function RandomPastDate(now: Instant, daysBack: int, days: int): (d: Instant)
    requires 1 <= days <= daysBack
    requires Ordinal(now) > daysBack
    ensures 1 <= Ordinal(now) - Ordinal(d) <= daysBack
  {
    MinusDays(now, days)
  }

  /** Whether `fetch_for_time_period` draws a past date: afternoon and evening with a draw below 0.3. */
  predicate DrawsPastDate(timePeriod: string, draw: real)
  {
    (timePeriod == "afternoon" || timePeriod == "evening") && draw < 0.3
  }

  /** The day `fetch_for_time_period` asks for: a past date when one is drawn, else today. */
  function RequestedDay(timePeriod: string, draw: real, days: int, now: Instant): Instant
    requires 1 <= days <= 14
    requires DrawsPastDate(timePeriod, draw) ==> Ordinal(now) > 14
  {
    if DrawsPastDate(timePeriod, draw) then RandomPastDate(now, 14, days) else now
  }

  /** `fetch_for_time_period`: `draw` is `random.random()` and `days` the `randint(1, 14)` draw. */
  method FetchForTimePeriod(timePeriod: string, draw: real, days: int, now: Instant, web: string -> Option<Json>)
    returns (url: string, text: Option<DailyText>)
    requires 0.0 <= draw < 1.0 && 1 <= days <= 14
    requires DrawsPastDate(timePeriod, draw) ==> Ordinal(now) > 14
    ensures url == BuildUrl(RequestedDay(timePeriod, draw, days, now))
    ensures text == DailyTextOf(web(url), RequestedDay(timePeriod, draw, days, now))
  {
    if timePeriod == "morning" {
      url, text := FetchDailyText(None, now, web);
    } else if timePeriod == "afternoon" || timePeriod == "evening" {
      if draw < 0.3 {
        var past := RandomPastDate(now, 14, days);
        url, text := FetchDailyText(Some(past), now, web);
      } else {
        url, text := FetchDailyText(None, now, web);
      }
    } else {
      url, text := FetchDailyText(None, now, web);
    }
  }

  /** A past date is one to fourteen days back; morning, unknown periods and a draw of 0.3 or more ask for today. */
  lemma FetchedDay(timePeriod: string, draw: real, days: int, now: Instant)
    requires 0.0 <= draw < 1.0 && 1 <= days <= 14
    requires DrawsPastDate(timePeriod, draw) ==> Ordinal(now) > 14
    ensures (timePeriod == "afternoon" || timePeriod == "evening") && draw < 0.3 ==>
      1 <= Ordinal(now) - Ordinal(RequestedDay(timePeriod, draw, days, now)) <= 14
    ensures !((timePeriod == "afternoon" || timePeriod == "evening") && draw < 0.3) ==>
      RequestedDay(timePeriod, draw, days, now) == now
  {
  }

  // The pieces joined by `+` below spell the source's text; long literals are split only because the verifier handles short ones far more cheaply.
  const NoTextMessage: string := "💫 Keep coding with " + "purpose and dedication!"

  /** The five fallback encouragements for a title and a scripture. */
  function FallbackEncouragements(title: string, scripture: string): (ms: seq<string>)
    ensures |ms| == 5
    ensures forall k :: 0 <= k < |ms| ==> |ms[k]| > 0
    ensures |ms[0]| <= |"📖 Today's wisdom: ... Apply it in your code!"| + 50
    ensures |ms[2]| <= |"🌟 Reflect on: ... while you create!"| + 40
  {
    [ "📖 Today's wisdom: " + Take(title, 50) + "... Apply it in " + "your code!",
      "💡 Like today's text " + "teaches, persevere in " + "your coding journey!",
      "🌟 Reflect on: " + Take(scripture, 40) + "... while you create!",
      "💪 Draw strength from " + "today's text as you " + "tackle challenges!",
      "🎯 Apply today's " + "lesson: Code with " + "purpose and integrity!" ]
  }

  /** `create_developer_encouragement`: `pick` stands for `random.choice`. */
  function CreateDeveloperEncouragement(dailyText: Option<DailyText>, useOllama: bool, run: RunOutcome, pick: nat): (m: string)
    ensures dailyText.None? ==> m == NoTextMessage
    ensures dailyText.Some? && useOllama && run.Produced() ==> m == Shorten(FirstLine(run.stdout), 120) && |m| <= 120
    ensures dailyText.Some? && !(useOllama && run.Produced()) ==>
      m in FallbackEncouragements(Strip(dailyText.value.title), Strip(dailyText.value.scripture))
  {
    if dailyText.None? then NoTextMessage
    else
      var scripture := Strip(dailyText.value.scripture);
      var title := Strip(dailyText.value.title);
      if useOllama && run.Produced() then Shorten(FirstLine(run.stdout), 120)
      else
        var ms := FallbackEncouragements(title, scripture);
        ms[pick % |ms|]
  }

  /** `generate_jw_message`: the period comes from the hour when none is given; no daily text gives no message. */
  method GenerateJwMessage(timePeriod: Option<string>, hour: int, useOllama: bool, draw: real, days: int,
                           now: Instant, web: string -> Option<Json>, run: RunOutcome, pick: nat)
    returns (message: Option<string>)
    requires 0.0 <= draw < 1.0 && 1 <= days <= 14
    requires DrawsPastDate(timePeriod.GetOr(DayPeriod(hour)), draw) ==> Ordinal(now) > 14
    ensures var day := RequestedDay(timePeriod.GetOr(DayPeriod(hour)), draw, days, now);
      var text := DailyTextOf(web(BuildUrl(day)), day);
      && (message.None? <==> text.None?)
      && (message.Some? ==> message.value == CreateDeveloperEncouragement(text, useOllama, run, pick))
  {
    var period := if timePeriod.Some? then timePeriod.value else DayPeriod(hour);
    var url, text := FetchForTimePeriod(period, draw, days, now, web);
    if text.None? {
      return None;
    }
    message := Some(CreateDeveloperEncouragement(text, useOllama, run, pick));
  }
}
