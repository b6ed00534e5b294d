/**
 * What the bot hands to the remote chat model and how it reads the answer:
 * the mood-aware system prompt (`build_system_prompt`), the message list of
 * `get_groq_response`, and the reduction of the model's raw answer to a reply.
 * The HTTP exchange itself is an oracle: the caller supplies its raw content.
 */
module Completion {
  import opened Wrappers
  import opened Text
  import opened Settings
  import opened History

  /** The text between the base persona and the tone in every system prompt. */
  const MoodLinePrefix: string := "\nMood hiện tại: "

  /** The tone a mood key selects; a key without a tone falls back to the default mood's tone. */
  function ToneOf(mood: string): string {
    if mood in MoodTones then MoodTones[mood] else MoodTones[DefaultMood]
  }

  /** The system prompt for a chat whose mood is `mood`: the persona, then a line naming the tone. */
  function SystemPromptFor(mood: string): (p: string)
    ensures |p| == |SystemPrompt| + |MoodLinePrefix| + |ToneOf(mood)|
    ensures StartsWith(p, SystemPrompt)
    ensures p[|SystemPrompt| + |MoodLinePrefix|..] == ToneOf(mood)
  {
    var p := SystemPrompt + MoodLinePrefix + ToneOf(mood);
    assert p[..|SystemPrompt|] == SystemPrompt;
    assert p[|SystemPrompt| + |MoodLinePrefix|..] == ToneOf(mood);
    p
  }

  /** An unknown mood key gets the default mood's prompt. */
  lemma UnknownMoodUsesDefault(mood: string)
    requires mood !in MoodTones
    ensures SystemPromptFor(mood) == SystemPromptFor(DefaultMood)
  {
  }

  /** Different known moods give different prompts: the mood always reaches the model. */
  lemma PromptTellsMoodsApart(m1: string, m2: string)
    requires m1 in MoodTones && m2 in MoodTones && m1 != m2
    ensures SystemPromptFor(m1) != SystemPromptFor(m2)
  {
    var k := |SystemPrompt| + |MoodLinePrefix|;
    assert SystemPromptFor(m1)[k..] == MoodTones[m1];
    assert SystemPromptFor(m2)[k..] == MoodTones[m2];
    assert |MoodTones["vui"]| == 52 && |MoodTones["lem_linh"]| == 61 && |MoodTones["cau_gat"]| == 65;
  }

  /** The message list sent to the model: the system prompt, the history, then the user's text. */
  function Request(text: string, prompt: string, history: seq<Entry>): (r: seq<Entry>)
    ensures |r| == |history| + 2
    ensures r[0] == Entry(System, prompt) && r[|r| - 1] == Entry(User, text)
    ensures r[1..|r| - 1] == history
  {
    [Entry(System, prompt)] + history + [Entry(User, text)]
  }

  /**
   * The value `get_groq_response` returns for the model's raw answer content:
   * the stripped content, or None when the call failed (`raw` is None) or the
   * content is blank.
   */
  function CompletionText(raw: Option<string>): (r: Option<string>)
    ensures r.None? <==> raw.None? || AllSpace(raw.value)
    ensures r.Some? ==> r.value == Strip(raw.value) && r.value != []
  {
    match raw
    case None => None
    case Some(content) =>
      StripEmptyIff(content);
      var reply := Strip(content);
      if reply == [] then None else Some(reply)
  }
}
