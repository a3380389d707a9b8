/**
 * The on-demand joke helper: a joke from `ollama run` on the picked model
 * with a random emoji in front, else one of the fixed developer jokes.
 */
module JokeCommand {
  import opened Wrappers
  import opened Text
  import opened Subprocess
  import opened OllamaCli

  // The pieces joined by `+` spell the source's text; long literals are split only because the verifier handles short ones far more cheaply.
  const FallbackJokes: seq<string> := [
    "🎭 Why do programmers " + "prefer dark mode? " + "Because light attracts " + "bugs! 🐛",
    "☕ A SQL query walks " + "into a bar, walks up to " + "two tables and asks: " + "'Can I join you?' 🍻",
    "🔍 Why did the developer " + "go broke? Because he " + "used up all his cache! 💰",
    "🐛 99 little bugs in the " + "code, 99 little bugs. " + "Take one down, patch it " + "around... 127 little " + "bugs in the code! 🎪",
    "🤖 How many programmers " + "does it take to change " + "a light bulb? None. " + "It's a hardware " + "problem! 💡",
    "🎨 CSS is like a good " + "joke - if you have to " + "explain it, it's not " + "that good! 🎭",
    "⚡ Why do Java " + "developers wear " + "glasses? Because they " + "don't C#! 👓",
    "🔧 'It works on my " + "machine' - Famous last " + "words! 💻",
    "🎯 There are only 10 " + "types of people: those " + "who understand binary " + "and those who don't! 🔢",
    "🚀 Programming is like " + "writing a book... " + "except if you miss a " + "semicolon, the whole " + "thing makes no sense! 📚",
    "🎪 A programmer's spouse " + "asks: 'Would you go to " + "the store and pick up a " + "loaf of bread? And if " + "they have eggs, get a " + "dozen.' The programmer " + "returns with 12 loaves " + "of bread. 🍞",
    "🏃 Why did the " + "programmer quit his " + "job? Because he didn't " + "get arrays! 📊",
    "🎯 Algorithm: A word " + "used by programmers " + "when they don't want to " + "explain what they did! 🤫",
    "🐍 Python programmers " + "don't byte, they just " + "nibble a bit! 🍰",
    "🎮 Real programmers " + "count from 0. 💯",
    "🔄 Recursion (n): See " + "'Recursion' 🔁",
    "☕ I don't have a " + "problem with caffeine. " + "I have a problem " + "without it! ☕",
    "💾 There's no place like " + "127.0.0.1 🏠",
    "🎯 Programming is 10% " + "writing code and 90% " + "figuring out why it " + "doesn't work! 🔍",
    "🎪 My code doesn't have " + "bugs. It just develops " + "random features! ✨",
    "🚨 A good programmer is " + "someone who always " + "looks both ways before " + "crossing a one-way " + "street! 🚦",
    "📝 Documentation? We " + "don't need " + "documentation. The code " + "is self-documenting! " + "(Famous last words) 📚",
    "🎭 I told my wife I'd be " + "home in a minute. That " + "was before I started " + "debugging... ⏰",
    "🔨 When all you have is " + "a hammer, everything " + "looks like a nail. When " + "all you know is " + "JavaScript, everything " + "looks like a JSON! 🔧",
    "🌟 The best thing about " + "a Boolean is that even " + "if you're wrong, you're " + "only off by a bit! 💡"
  ]

  const PreferredModels: seq<string> := ["phi3.5:3.8b", "mistral:7b-instruct", "llama3.2:1b", "gemma2:2b"]

  const Emojis: seq<string> := ["😄", "🎭", "😂", "🤓", "💻", "🐛", "🚀", "☕", "🤖", "🎪", "✨"]

  /** Every emoji is a single code point. */
  lemma EmojisSingle(k: nat)
    requires k < |Emojis|
    ensures |Emojis[k]| == 1
  {
  }

  /**
   * `generate_joke_with_ollama`: `random.choice(emojis)` (index `emojiPick`),
   * a space and the trimmed answer; None when there is no answer. The prompt,
   * itself a random choice, is not modelled.
   */
  function GenerateJoke(list: RunOutcome, answer: string -> RunOutcome, emojiPick: nat): (j: Option<string>)
    ensures j.None? <==> Reply(list, answer, PreferredModels).None?
    ensures j.Some? ==> exists e :: e in Emojis && j.value == e + " " + Reply(list, answer, PreferredModels).value
  {
    var reply := Reply(list, answer, PreferredModels);
    if reply.None? then None
    else
      var e := Emojis[emojiPick % |Emojis|];
      assert e in Emojis;
      Some(e + " " + reply.value)
  }

  /** One character, a space and a trimmed non-empty answer. */
  lemma PrefixedShape(e: string, reply: string)
    requires |e| == 1 && |reply| > 0 && !IsSpace(reply[0]) && !IsSpace(reply[|reply| - 1])
    ensures var j := e + " " + reply;
      |j| >= 3 && j[1] == ' ' && !IsSpace(j[2]) && !IsSpace(j[|j| - 1]) && j[..1] == e
  {
    var j := e + " " + reply;
    assert j[..1] == e && j[2] == reply[0] && j[|j| - 1] == reply[|reply| - 1];
  }

  /** A generated joke is one emoji, a space, then the answer with no whitespace at either end. */
  lemma GeneratedJokeShape(list: RunOutcome, answer: string -> RunOutcome, emojiPick: nat)
    requires GenerateJoke(list, answer, emojiPick).Some?
    ensures var j := GenerateJoke(list, answer, emojiPick).value;
      && |j| >= 3 && j[1] == ' ' && !IsSpace(j[2]) && !IsSpace(j[|j| - 1])
      && j[..1] in Emojis
  {
    var reply := Reply(list, answer, PreferredModels).value;
    ReplyTrimmed(list, answer, PreferredModels);
    assert |reply| > 0 && !IsSpace(reply[0]) && !IsSpace(reply[|reply| - 1]);
    var k := emojiPick % |Emojis|;
    EmojisSingle(k);
    assert GenerateJoke(list, answer, emojiPick).value == Emojis[k] + " " + reply;
    PrefixedShape(Emojis[k], reply);
  }

  /** `main`: the generated joke, else `random.choice(FALLBACK_JOKES)` (index `fallbackPick`). */
  function JokeOfTheMoment(list: RunOutcome, answer: string -> RunOutcome, emojiPick: nat, fallbackPick: nat): (j: string)
    ensures GenerateJoke(list, answer, emojiPick).Some? ==> j == GenerateJoke(list, answer, emojiPick).value
    ensures GenerateJoke(list, answer, emojiPick).None? ==> j in FallbackJokes
    ensures |j| > 0
  {
    var joke := GenerateJoke(list, answer, emojiPick);
    if joke.None? || joke.value == "" then
      var f := FallbackJokes[fallbackPick % |FallbackJokes|];
      assert |f| > 0;
      f
    else joke.value
  }

  /** A failed `ollama list`, or one that lists no model, always gives a fixed joke. */
  lemma NoModelGivesFixedJoke(list: RunOutcome, answer: string -> RunOutcome, emojiPick: nat, fallbackPick: nat)
    requires !list.Succeeded() || ListedModels(ListingLines(list.stdout)) == Some([])
    ensures JokeOfTheMoment(list, answer, emojiPick, fallbackPick) == FallbackJokes[fallbackPick % |FallbackJokes|]
  {
  }
}
