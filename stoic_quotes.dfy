/**
 * Stoic quotes: the quote table with its themes, the theme filter, the
 * quote formatter, the theme sentence of the generation prompt, and the
 * branching of `generate_stoic_message`. Random choices are indices, the
 * random draw is a parameter, and `ollama run` is its outcome.
 */
module StoicQuotes {
  import opened Wrappers
  import opened Text
  import opened Subprocess

  datatype StoicQuote = StoicQuote(text: string, author: string, theme: string)

  /** The dictionary `get_stoic_quote` returns: exactly a text and an author. */
  datatype Quote = Quote(text: string, author: string)

  // The pieces joined by `+` spell the source's text; long literals are split only because the verifier handles short ones far more cheaply.
  const StoicQuotes: seq<StoicQuote> := [
    StoicQuote("You have power over " + "your mind - not outside " + "events. Realize this, " + "and you will find " + "strength.",
      "Marcus Aurelius", "control"),
    StoicQuote("The best revenge is not " + "to be like your enemy.",
      "Marcus Aurelius", "anger"),
    StoicQuote("How much more harmful " + "are the consequences of " + "anger than the causes " + "of it.",
      "Marcus Aurelius", "anger"),
    StoicQuote("The happiness of your " + "life depends upon the " + "quality of your " + "thoughts.",
      "Marcus Aurelius", "peace"),
    StoicQuote("If you are distressed " + "by anything external, " + "the pain is not due to " + "the thing itself, but " + "to your estimate of it.",
      "Marcus Aurelius", "peace"),
    StoicQuote("The impediment to " + "action advances action. " + "What stands in the way " + "becomes the way.",
      "Marcus Aurelius", "obstacles"),
    StoicQuote("Very little is needed " + "to make a happy life; " + "it is all within " + "yourself, in your way " + "of thinking.",
      "Marcus Aurelius", "peace"),
    StoicQuote("Confine yourself to the " + "present.",
      "Marcus Aurelius", "focus"),
    StoicQuote("It's not what happens " + "to you, but how you " + "react to it that " + "matters.",
      "Epictetus", "control"),
    StoicQuote("Any person capable of " + "angering you becomes " + "your master.",
      "Epictetus", "anger"),
    StoicQuote("He is a wise man who " + "does not grieve for the " + "things which he has " + "not, but rejoices for " + "those which he has.",
      "Epictetus", "peace"),
    StoicQuote("First say to yourself " + "what you would be; and " + "then do what you have " + "to do.",
      "Epictetus", "discipline"),
    StoicQuote("If anyone tells you " + "that a certain person " + "speaks ill of you, do " + "not make excuses, but " + "answer: 'He does not " + "know my other faults, " + "or he would not have " + "mentioned only these.'",
      "Epictetus", "criticism"),
    StoicQuote("Don't seek for " + "everything to happen as " + "you wish it would, but " + "rather wish that " + "everything happens as " + "it actually will—then " + "your life will flow " + "well.",
      "Epictetus", "acceptance"),
    StoicQuote("No person is free who " + "is not master of " + "himself.",
      "Epictetus", "control"),
    StoicQuote("The greatest remedy for " + "anger is delay.",
      "Seneca", "anger"),
    StoicQuote("We suffer more often in " + "imagination than in " + "reality.",
      "Seneca", "worry"),
    StoicQuote("Difficulties strengthen " + "the mind, as labor does " + "the body.",
      "Seneca", "obstacles"),
    StoicQuote("True happiness is to " + "enjoy the present, " + "without anxious " + "dependence upon the " + "future.",
      "Seneca", "peace"),
    StoicQuote("The mind that is " + "anxious about future " + "events is miserable.",
      "Seneca", "worry"),
    StoicQuote("If a person doesn't " + "know to which port they " + "sail, no wind is " + "favorable.",
      "Seneca", "purpose"),
    StoicQuote("Hang on to your " + "youthful enthusiasms — " + "you'll be able to use " + "them better when you're " + "older.",
      "Seneca", "enthusiasm"),
    StoicQuote("Every new beginning " + "comes from some other " + "beginning's end.",
      "Seneca", "change"),
    StoicQuote("The obstacle is the way.",
      "Ryan Holiday", "obstacles"),
    StoicQuote("Waste no more time " + "arguing about what a " + "good person should be. " + "Be one.",
      "Marcus Aurelius", "action"),
    StoicQuote("When another person " + "makes you suffer, it is " + "because they suffer " + "deeply within " + "themselves.",
      "Thich Nhat Hanh " + "(Stoic-aligned)", "compassion"),
    StoicQuote("Between stimulus and " + "response there is a " + "space. In that space is " + "our power to choose our " + "response.",
      "Viktor Frankl " + "(Stoic-aligned)", "control"),
    StoicQuote("The tranquility that " + "comes when you stop " + "caring what they say. " + "Or think, or do. Only " + "what you do.",
      "Marcus Aurelius", "peace"),
    StoicQuote("Choose not to be harmed " + "— and you won't feel " + "harmed. Don't feel " + "harmed — and you " + "haven't been.",
      "Marcus Aurelius", "resilience"),
    StoicQuote("Anger is an acid that " + "can do more harm to the " + "vessel in which it is " + "stored than to anything " + "on which it is poured.",
      "Mark Twain " + "(Stoic-aligned)", "anger"),
    StoicQuote("For every minute you " + "remain angry, you give " + "up sixty seconds of " + "peace of mind.",
      "Ralph Waldo Emerson " + "(Stoic-aligned)", "anger")
  ]

  // The pieces joined by `+` spell the source's text; long literals are split only because the verifier handles short ones far more cheaply.
  const GeneralStoicWisdom: seq<string> := [
    "The obstacle is not " + "against you; it simply " + "is. Your reaction " + "determines your growth.",
    "Control your emotions, " + "not others' opinions.",
    "Difficulties are " + "inevitable. Your calm " + "response is optional.",
    "The challenge doesn't " + "care about your " + "frustration. Handle it " + "with clarity.",
    "Master your anxiety, " + "and you master your " + "life.",
    "Failure reveals truth. " + "Your anger at it " + "reveals weakness.",
    "Your circumstances do " + "not control your inner " + "peace. Your discipline " + "does.",
    "The situation is what " + "it is. Your approach to " + "it defines you.",
    "Others' words don't " + "create your reality. " + "Your interpretation " + "does.",
    "Life's lessons are " + "teachers, not enemies. " + "Learn without anger."
  ]

  /** `[q for q in quotes if q.get("theme") == theme]`. */
  function WithTheme(quotes: seq<StoicQuote>, theme: string): (r: seq<StoicQuote>)
    ensures forall q :: q in r <==> q in quotes && q.theme == theme
    ensures |r| <= |quotes|
  {
    if |quotes| == 0 then []
    else (if quotes[0].theme == theme then [quotes[0]] else []) + WithTheme(quotes[1..], theme)
  }

  /** The quotes `get_stoic_quote` draws from: the theme's when a non-empty theme has any, else all of them. */
  function QuotePool(theme: Option<string>): (pool: seq<StoicQuote>)
    ensures |pool| > 0
    ensures forall q :: q in pool ==> q in StoicQuotes
  {
    if theme.Some? && theme.value != "" && |WithTheme(StoicQuotes, theme.value)| > 0 then WithTheme(StoicQuotes, theme.value)
    else StoicQuotes
  }

  /** `get_stoic_quote`: `pick` stands for `random.choice`. */
  function GetStoicQuote(theme: Option<string>, pick: nat): (q: Quote)
    ensures exists e :: e in StoicQuotes && q == Quote(e.text, e.author)
    ensures theme.Some? && theme.value != "" && |WithTheme(StoicQuotes, theme.value)| > 0 ==>
      exists e :: e in StoicQuotes && e.theme == theme.value && q == Quote(e.text, e.author)
  {
    var pool := QuotePool(theme);
    var e := pool[pick % |pool|];
    assert e in pool;
    Quote(e.text, e.author)
  }

  /** Every quote has real text and an author. */
  lemma {:induction false} QuotesWellFormed()
    ensures forall i :: 0 <= i < |StoicQuotes| ==> |StoicQuotes[i].text| > 10 && StoicQuotes[i].author != ""
  {
    forall i | 0 <= i < |StoicQuotes| ensures |StoicQuotes[i].text| > 10 && StoicQuotes[i].author != "" {
    }
  }

  /** Each of the four themes the prompt knows about has at least two quotes. */
  lemma AngerQuotes()
    ensures |WithTheme(StoicQuotes, "anger")| >= 2
  {
    assert |StoicQuotes[1].text| != |StoicQuotes[2].text|;
    TwoWithTheme(StoicQuotes, "anger", 1, 2);
  }

  lemma ControlQuotes()
    ensures |WithTheme(StoicQuotes, "control")| >= 2
  {
    assert |StoicQuotes[0].text| != |StoicQuotes[8].text|;
    TwoWithTheme(StoicQuotes, "control", 0, 8);
  }

  lemma PeaceQuotes()
    ensures |WithTheme(StoicQuotes, "peace")| >= 2
  {
    assert |StoicQuotes[3].text| != |StoicQuotes[4].text|;
    TwoWithTheme(StoicQuotes, "peace", 3, 4);
  }

  lemma ObstacleQuotes()
    ensures |WithTheme(StoicQuotes, "obstacles")| >= 2
  {
    assert |StoicQuotes[5].text| != |StoicQuotes[17].text|;
    TwoWithTheme(StoicQuotes, "obstacles", 5, 17);
  }

  /** The themes some quote of `quotes` carries. */
  function Themes(quotes: seq<StoicQuote>): (ts: set<string>)
    ensures forall i :: 0 <= i < |quotes| ==> quotes[i].theme in ts
    ensures forall t :: t in ts ==> exists i :: 0 <= i < |quotes| && quotes[i].theme == t
  {
    if |quotes| == 0 then {}
    else
      var rest := Themes(quotes[1..]);
      assert forall i :: 1 <= i < |quotes| ==> quotes[1..][i - 1] == quotes[i];
      {quotes[0].theme} + rest
  }

  /** The table covers more than three themes: anger, control, peace and obstacles each have a quote. */
  lemma ThemesDistinct()
    ensures {"anger", "control", "peace", "obstacles"} <= Themes(StoicQuotes)
    ensures |Themes(StoicQuotes)| >= 4
  {
    AngerQuotes();
    ControlQuotes();
    PeaceQuotes();
    ObstacleQuotes();
    KnownThemes(StoicQuotes);
    FourThemes(Themes(StoicQuotes));
  }

  lemma KnownThemes(quotes: seq<StoicQuote>)
    requires |WithTheme(quotes, "anger")| > 0 && |WithTheme(quotes, "control")| > 0
    requires |WithTheme(quotes, "peace")| > 0 && |WithTheme(quotes, "obstacles")| > 0
    ensures "anger" in Themes(quotes) && "control" in Themes(quotes)
    ensures "peace" in Themes(quotes) && "obstacles" in Themes(quotes)
  {
    ThemeOfPool(quotes, "anger");
    ThemeOfPool(quotes, "control");
    ThemeOfPool(quotes, "peace");
    ThemeOfPool(quotes, "obstacles");
  }

  lemma FourThemes(ts: set<string>)
    requires "anger" in ts && "control" in ts && "peace" in ts && "obstacles" in ts
    ensures {"anger", "control", "peace", "obstacles"} <= ts
    ensures |ts| >= 4
  {
    KnownThemesSize();
    SubsetSize({"anger", "control", "peace", "obstacles"}, ts);
  }

  lemma ThemeOfPool(quotes: seq<StoicQuote>, t: string)
    requires |WithTheme(quotes, t)| > 0
    ensures t in Themes(quotes)
  {
    var q := WithTheme(quotes, t)[0];
    assert q in WithTheme(quotes, t);
    var i :| 0 <= i < |quotes| && quotes[i] == q;
  }

  lemma KnownThemesSize()
    ensures |{"anger", "control", "peace", "obstacles"}| == 4
  {
    assert "anger"[0] != "peace"[0];
  }

  lemma SubsetSize(a: set<string>, b: set<string>)
    requires a <= b
    ensures |a| <= |b|
  {
    assert b == a + (b - a);
  }

  /** Two different entries of one theme make the theme's list at least two long. */
  lemma TwoWithTheme(quotes: seq<StoicQuote>, theme: string, i: nat, j: nat)
    requires i < |quotes| && j < |quotes| && quotes[i] != quotes[j]
    requires quotes[i].theme == theme && quotes[j].theme == theme
    ensures |WithTheme(quotes, theme)| >= 2
  {
    var r := WithTheme(quotes, theme);
    assert quotes[i] in r && quotes[j] in r;
    var a :| 0 <= a < |r| && r[a] == quotes[i];
    var b :| 0 <= b < |r| && r[b] == quotes[j];
    assert a != b;
  }

  /** `get_general_stoic_wisdom`. */
  function GeneralWisdom(pick: nat): (w: string)
    ensures w in GeneralStoicWisdom
  {
    GeneralStoicWisdom[pick % |GeneralStoicWisdom|]
  }

  // The pieces joined by `+` below spell the source's text; long literals are split only because the verifier handles short ones far more cheaply.
  const StayCalm: string := "🧘 Stay calm and carry " + "on."

  /** `enhance_stoic_quote_with_ollama`: the quote in quotation marks, its text cut to 97 characters and an ellipsis when longer than 100. */
  function EnhanceStoicQuote(quote: Option<Quote>): (m: string)
    ensures "🧘 " <= m
    ensures quote.None? ==> m == StayCalm
    ensures quote.Some? && |quote.value.text| <= 100 ==> m == "🧘 \"" + quote.value.text + "\" - " + quote.value.author
    ensures quote.Some? && |quote.value.text| > 100 ==>
      m == "🧘 \"" + quote.value.text[..97] + "...\" - " + quote.value.author
    ensures quote.Some? ==> |m| <= 107 + |quote.value.author|
  {
    if quote.None? then StayCalm
    else if |quote.value.text| > 100 then "🧘 \"" + quote.value.text[..97] + "...\" - " + quote.value.author
    else "🧘 \"" + quote.value.text + "\" - " + quote.value.author
  }

  /** The theme sentence of the pure-generation prompt. */
  function ThemeContext(theme: Option<string>): (c: string)
    ensures theme == Some("anger") ==> c == "Focus on managing anger and maintaining composure."
    ensures theme == Some("control") ==> c == "Focus on what we can control versus what we cannot."
    ensures theme == Some("peace") ==> c == "Focus on finding inner peace and tranquility."
    ensures theme == Some("obstacles") ==> c == "Focus on viewing obstacles as opportunities for growth."
    ensures theme !in {Some("anger"), Some("control"), Some("peace"), Some("obstacles")} ==> c == "Focus on timeless stoic wisdom."
  {
    if theme == Some("anger") then "Focus on managing anger and maintaining composure."
    else if theme == Some("control") then "Focus on what we can control versus what we cannot."
    else if theme == Some("peace") then "Focus on finding inner peace and tranquility."
    else if theme == Some("obstacles") then "Focus on viewing obstacles as opportunities for growth."
    else "Focus on timeless stoic wisdom."
  }

  /** Different known themes get different sentences, and each differs from the generic one. */
  lemma ThemeContextDistinct(a: Option<string>, b: Option<string>)
    requires a in {Some("anger"), Some("control"), Some("peace"), Some("obstacles")}
    requires a != b
    ensures ThemeContext(a) != ThemeContext(b)
  {
  }

  /** `generate_pure_stoic_wisdom`: the first line of the output, or None when `ollama run` produced nothing. */
  function PureStoicWisdom(run: RunOutcome): (w: Option<string>)
    ensures w.Some? <==> run.Produced()
    ensures w.Some? ==> w.value == FirstLine(run.stdout)
  {
    if run.Produced() then Some(FirstLine(run.stdout)) else None
  }

  /** Pure generation is tried only with `ollama` and a draw below the ratio; an empty answer does not count. */
  predicate PureGenerationUsed(useOllama: bool, draw: real, ratio: real, run: RunOutcome)
  {
    useOllama && draw < ratio && PureStoicWisdom(run).Some? && PureStoicWisdom(run).value != ""
  }

  /**
   * `generate_stoic_message`: `draw` is `random.random()`, `wisdomPick` and
   * `quotePick` the `random.choice` indices, `run` the pure-generation call.
   */
  function GenerateStoicMessage(useOllama: bool, theme: Option<string>, useGeneralWisdom: bool, ratio: real,
                                draw: real, run: RunOutcome, wisdomPick: nat, quotePick: nat): (m: string)
    requires 0.0 <= draw < 1.0
    ensures useGeneralWisdom ==> exists w :: w in GeneralStoicWisdom && m == "🧘 " + w
    ensures !useGeneralWisdom && PureGenerationUsed(useOllama, draw, ratio, run) ==> m == PureStoicWisdom(run).value
    ensures !useGeneralWisdom && !PureGenerationUsed(useOllama, draw, ratio, run) && useOllama ==>
      m == EnhanceStoicQuote(Some(GetStoicQuote(theme, quotePick)))
    ensures !useGeneralWisdom && !useOllama ==>
      m == "🧘 \"" + GetStoicQuote(theme, quotePick).text + "\" - " + GetStoicQuote(theme, quotePick).author
  {
    if useGeneralWisdom then "🧘 " + GeneralWisdom(wisdomPick)
    else if PureGenerationUsed(useOllama, draw, ratio, run) then PureStoicWisdom(run).value
    else
      var quote := GetStoicQuote(theme, quotePick);
      if useOllama then EnhanceStoicQuote(Some(quote))
      else "🧘 \"" + quote.text + "\" - " + quote.author
  }

  /** Without `ollama` and general wisdom, the message quotes a table entry in full. */
  lemma PlainQuoteMessage(theme: Option<string>, ratio: real, draw: real, run: RunOutcome, wisdomPick: nat, quotePick: nat)
    requires 0.0 <= draw < 1.0
    ensures exists e :: (e in StoicQuotes &&
      GenerateStoicMessage(false, theme, false, ratio, draw, run, wisdomPick, quotePick) == "🧘 \"" + e.text + "\" - " + e.author)
  {
    QuotedEntry(GenerateStoicMessage(false, theme, false, ratio, draw, run, wisdomPick, quotePick),
      GetStoicQuote(theme, quotePick), StoicQuotes);
  }

  /** A message quoting a quote taken from a table quotes an entry of that table. */
  lemma QuotedEntry(m: string, q: Quote, table: seq<StoicQuote>)
    requires exists e :: e in table && q == Quote(e.text, e.author)
    requires m == "🧘 \"" + q.text + "\" - " + q.author
    ensures exists e :: e in table && m == "🧘 \"" + e.text + "\" - " + e.author
  {
    var e :| e in table && q == Quote(e.text, e.author);
    assert m == "🧘 \"" + e.text + "\" - " + e.author;
  }

  const ZenEmoji: seq<string> := ["🧘", "💭", "🌊", "⚖️", "🎯"]

  // The pieces joined by `+` spell the source's text; long literals are split only because the verifier handles short ones far more cheaply.
  const FallbackStoicMessages: seq<string> := [
    "🧘" + " Control what you can: " + "your code, your " + "response, your calm.",
    "💭" + " The bug will pass. " + "Your composure is " + "permanent.",
    "🌊" + " Like water around a " + "rock, flow around " + "obstacles in your code.",
    "⚖️" + " Balance your ambition " + "with acceptance of what " + "is.",
    "🎯" + " Focus on the present " + "line of code, not " + "yesterday's bugs or " + "tomorrow's deadlines."
  ]

  /** `get_fallback_stoic_message`: every message opens with one of the calm emoji. */
  function FallbackStoicMessage(pick: nat): (m: string)
    ensures m in FallbackStoicMessages
    ensures exists e :: e in ZenEmoji && e <= m
  {
    var i := pick % |FallbackStoicMessages|;
    FallbackEmoji();
    assert ZenEmoji[i] in ZenEmoji && ZenEmoji[i] <= FallbackStoicMessages[i];
    FallbackStoicMessages[i]
  }

  lemma FallbackEmoji()
    ensures forall k :: 0 <= k < 5 ==> ZenEmoji[k] <= FallbackStoicMessages[k]
  {
  }
}
