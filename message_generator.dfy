/**
 * The core message generator: the prompt for an event at a time of day,
 * the cleanup and length cap of what `ollama run` answers, the fallback
 * message tables, and the hook output for SessionStart. The hour, the
 * `ollama run` outcome and the `random.choice` index are parameters.
 */
module MessageGenerator {
  import opened Wrappers
  import opened Text
  import opened Json
  import opened Clock
  import opened Subprocess

  // The pieces joined by `+` spell the source's text; long literals are split only because the verifier handles short ones far more cheaply.
  const SessionStartMessages: seq<string> := [
    "🚀 Ready to create " + "something amazing today!",
    "💻 Your code journey " + "begins - let's make it " + "great!",
    "✨ Every expert was once " + "a beginner. Keep coding!",
    "🌟 Time to turn ideas " + "into reality through " + "code!",
    "💪 You've got this! " + "Let's write some " + "awesome code!",
    "🎯 Focus, create, and " + "enjoy the process!",
    "🔥 Another day, another " + "opportunity to level up!",
    "🌈 Your creativity + " + "code = endless " + "possibilities!"
  ]

  // The pieces joined by `+` spell the source's text; long literals are split only because the verifier handles short ones far more cheaply.
  const StopMessages: seq<string> := [
    "🎉 Great work! Your " + "efforts today matter!",
    "✅ Progress made! Every " + "line counts!",
    "🌟 Well done! Rest and " + "come back stronger!",
    "💯 You crushed it! Be " + "proud of what you built!",
    "🚀 Mission accomplished! " + "Your code looks great!",
    "🎯 Target hit! You're " + "getting better every " + "day!",
    "✨ Fantastic session! " + "Your dedication shows!",
    "💪 Strong finish! Your " + "future self will thank " + "you!"
  ]

  // The pieces joined by `+` spell the source's text; long literals are split only because the verifier handles short ones far more cheaply.
  const NotificationMessages: seq<string> := [
    "💡 Keep going! You're on " + "the right track!",
    "🌟 Your persistence is " + "your superpower!",
    "🚀 Every bug fixed is a " + "lesson learned!",
    "💪 Challenge accepted, " + "solution incoming!",
    "✨ You're doing great! " + "Keep up the momentum!",
    "🎯 Stay focused - " + "breakthrough is near!",
    "🔥 Your code is taking " + "shape beautifully!",
    "🌈 Remember: progress, " + "not perfection!"
  ]

  /** `FALLBACK_MESSAGES.get(event_type, FALLBACK_MESSAGES["Notification"])`. */
  function FallbackList(eventType: string): (ms: seq<string>)
    ensures |ms| == 8
    ensures forall i :: 0 <= i < |ms| ==> |ms[i]| > 0
  {
    if eventType == "SessionStart" then SessionStartMessages
    else if eventType == "Stop" then StopMessages
    else NotificationMessages
  }

  // The pieces joined by `+` below spell the source's text; long literals are split only because the verifier handles short ones far more cheaply.
  /** The texts of `OLLAMA_PROMPTS`. */
  const MorningPrompt: string := "Generate a brief, " + "encouraging morning " + "message for a developer " + "starting their coding " + "session. Include one " + "emoji. Maximum 15 " + "words. Be positive and " + "energizing."
  const AfternoonPrompt: string := "Generate a brief, " + "encouraging afternoon " + "message for a developer " + "continuing their work. " + "Include one emoji. " + "Maximum 15 words. Be " + "motivating and focused."
  const EveningPrompt: string := "Generate a brief, " + "encouraging evening " + "message for a developer " + "working late. Include " + "one emoji. Maximum 15 " + "words. Be supportive " + "and appreciative."
  const StopPrompt: string := "Generate a brief, " + "congratulatory message " + "for a developer " + "finishing their coding " + "work. Include one " + "emoji. Maximum 15 " + "words. Celebrate their " + "effort and progress."
  const NotificationPrompt: string := "Generate a brief, " + "encouraging message for " + "a developer in the " + "middle of coding. " + "Include one emoji. " + "Maximum 15 words. Be " + "supportive and " + "motivating."

  /** `OLLAMA_PROMPTS.get(event_type, {}).get(key, "")`: the prompt table; "" for a missing entry. */
  function PromptEntry(eventType: string, key: string): string
  {
    if eventType == "SessionStart" then
      if key == "morning" then MorningPrompt
      else if key == "afternoon" then AfternoonPrompt
      else if key == "evening" then EveningPrompt
      else ""
    else if eventType == "Stop" then
      if key == "default" then StopPrompt
      else ""
    else if eventType == "Notification" then
      if key == "default" then NotificationPrompt
      else ""
    else ""
  }

  predicate KnownEvent(eventType: string)
  {
    eventType == "SessionStart" || eventType == "Stop" || eventType == "Notification"
  }

  /**
   * The prompt `generate_with_ollama` sends; None (an empty prompt) means no call is made.
   * SessionStart looks up its part of the day (falling back to a "default" entry it does
   * not have); the other events look up "default".
   */
  function Prompt(eventType: string, hour: int): (p: Option<string>)
    ensures eventType == "SessionStart" && 5 <= hour < 12 ==> p == Some(MorningPrompt)
    ensures eventType == "SessionStart" && 12 <= hour < 17 ==> p == Some(AfternoonPrompt)
    ensures eventType == "SessionStart" && !(5 <= hour < 17) ==> p == Some(EveningPrompt)
    ensures eventType == "Stop" ==> p == Some(StopPrompt)
    ensures eventType == "Notification" ==> p == Some(NotificationPrompt)
    ensures p.Some? <==> KnownEvent(eventType)
  {
    var prompt :=
      if eventType == "SessionStart" then
        var entry := PromptEntry(eventType, DayPeriod(hour));
        if entry != "" then entry else PromptEntry(eventType, "default")
      else PromptEntry(eventType, "default");
    if prompt == "" then None else Some(prompt)
  }

  /** `generate_with_ollama`: the first line of the answer, at most 100 characters. */
  function GenerateWithOllama(eventType: string, hour: int, run: RunOutcome): (m: Option<string>)
    ensures !KnownEvent(eventType) ==> m.None?
    ensures KnownEvent(eventType) ==> (m.Some? <==> run.Produced())
    ensures m.Some? ==> m.value == Shorten(FirstLine(run.stdout), 100) && |m.value| <= 100
  {
    if Prompt(eventType, hour).None? then None
    else if run.Produced() then Some(Shorten(FirstLine(run.stdout), 100))
    else None
  }

  /** An answer of at most 100 characters is its trimmed first line; a longer one keeps 97 characters of it and an ellipsis. */
  lemma GeneratedCut(eventType: string, hour: int, run: RunOutcome)
    requires GenerateWithOllama(eventType, hour, run).Some?
    ensures var line := FirstLine(run.stdout); var m := GenerateWithOllama(eventType, hour, run).value;
      && (|line| <= 100 ==> m == line && '\n' !in m)
      && (|line| > 100 ==> m == line[..97] + "..." && '\n' !in line[..97])
  {
    FirstLineShape(run.stdout);
    var line := FirstLine(run.stdout);
    if |line| > 100 {
      assert forall k :: 0 <= k < 97 ==> line[..97][k] == line[k];
    }
  }

  /** An unknown event gets no prompt, so the `ollama run` result plays no part. */
  lemma UnknownEventSkipsOllama(eventType: string, hour: int, a: RunOutcome, b: RunOutcome)
    requires !KnownEvent(eventType)
    ensures GenerateWithOllama(eventType, hour, a) == GenerateWithOllama(eventType, hour, b) == None
  {
  }

  /** `get_fallback_message`: `pick` stands for `random.choice`. */
  function FallbackMessage(eventType: string, pick: nat): (m: string)
    ensures m in FallbackList(eventType) && |m| > 0
    ensures eventType != "SessionStart" && eventType != "Stop" ==> m in NotificationMessages
  {
    var ms := FallbackList(eventType);
    ms[pick % |ms|]
  }

  /** `generate_message`: a non-empty generated message, else a fallback; never empty. */
  function GenerateMessage(eventType: string, useOllama: bool, hour: int, run: RunOutcome, pick: nat): (m: string)
    ensures |m| > 0
    ensures useOllama && GenerateWithOllama(eventType, hour, run).Some? && GenerateWithOllama(eventType, hour, run).value != "" ==>
      m == GenerateWithOllama(eventType, hour, run).value
    ensures !(useOllama && GenerateWithOllama(eventType, hour, run).Some? && GenerateWithOllama(eventType, hour, run).value != "") ==>
      m == FallbackMessage(eventType, pick)
    ensures !useOllama ==> m in FallbackList(eventType)
  {
    if useOllama then
      var message := GenerateWithOllama(eventType, hour, run);
      if message.Some? && message.value != "" then message.value else FallbackMessage(eventType, pick)
    else FallbackMessage(eventType, pick)
  }

  /** `format_hook_output`: a JSON object for SessionStart, nothing for the other events. */
  function FormatHookOutput(message: string, eventType: string): (out: Option<Json>)
    ensures out.Some? <==> eventType == "SessionStart"
    ensures out.Some? ==> (&& Member(out.value, "suppressOutput") == Some(JBool(true))
                           && Member(out.value, "systemMessage") == Some(JStr(message))
                           && Keys(out.value.fields) == {"suppressOutput", "systemMessage"})
  {
    if eventType == "SessionStart" then
      var fs: Fields := [("suppressOutput", JBool(true)), ("systemMessage", JStr(message))];
      assert fs[1..][1..] == [];
      assert Lookup(fs, "systemMessage") == Lookup(fs[1..], "systemMessage");
      assert Keys(fs) == {"suppressOutput"} + Keys(fs[1..]);
      Some(JObj(fs))
    else None
  }
}
