/**
 * The slash-command router as a specification: how a text is read as a
 * command, which reply each command gives, and which single change of chat
 * state it asks for. `ChatStore.HandleCommand` performs it.
 */
module Commands {
  import opened Wrappers
  import opened Text
  import opened Settings

  /** A command token (lower-cased, `@bot` suffix dropped) and the words after it. */
  datatype Invocation = Invocation(name: string, args: seq<string>)

  /** The one state change a command asks for; validation errors ask for none. */
  datatype Effect = NoEffect | SetMute(minutes: int) | SetMood(key: string) | SetMode(mode: Mode)

  /** "Not a command" (Python's None) versus a reply with its state change. */
  datatype Outcome = NotHandled | Handled(reply: string, effect: Effect)

  const KnownCommands: set<string> := {"/alive", "/help", "/start", "/mute", "/mood", "/autoreply"}

  /**
   * The stripped text must start with '/'; its first word, lower-cased and cut
   * at the first '@', is the command name and the other words are its arguments.
   */
  function ParseInvocation(text: string): (r: Option<Invocation>)
    ensures r.Some? <==> StartsWith(Strip(text), "/")
    ensures r.Some? ==> StartsWith(r.value.name, "/") && '@' !in r.value.name
    ensures r.Some? ==> forall k :: 0 <= k < |r.value.args| ==> r.value.args[k] != []
  {
    var t := Strip(text);
    if !StartsWith(t, "/") then None
    else
      FirstWordIsCommand(t);
      var parts := Words(t);
      if parts == [] then None
      else
        Some(Invocation(CommandName(parts[0]), parts[1..]))
  }

  /** Uptime as shown by `/alive`: whole seconds below a minute, else whole minutes. */
  function UptimeText(uptime: int): string {
    if uptime < 60 then IntToString(uptime) + " giây" else IntToString(uptime / 60) + " phút"
  }

  function AliveReply(uptime: int, apiKeyConfigured: bool): string {
    "Bot vẫn sống khỏe (" + UptimeText(uptime) + "). Groq "
    + (if apiKeyConfigured then "đã sẵn sàng" else "chưa có GROQ_API_KEY") + "."
  }

  const MuteInvalidReply: string := "Vui lòng nhập số phút hợp lệ, ví dụ /mute 10."
  const MuteNotPositiveReply: string := "Số phút phải lớn hơn 0."
  const MuteConfirmationPrefix: string := "Đã im lặng trong "
  const MuteConfirmationSuffix: string := " phút."

  function MuteConfirmation(minutes: int): string {
    MuteConfirmationPrefix + IntToString(minutes) + MuteConfirmationSuffix
  }

  function MoodStatusReply(current: string): string {
    "Mood hiện tại: " + current + ". Mood khả dụng: " + MoodOptionsText + "."
  }

  const MoodInvalidReply: string := "Mood không hợp lệ. Chọn một trong: " + MoodOptionsText + "."

  function MoodConfirmation(key: string): string
    requires key in MoodTones
  {
    "Đã chuyển mood sang " + key + ". " + MoodTones[key]
  }

  function AutoReplyStatus(mode: Mode): string {
    "Auto-reply hiện tại: " + ModeName(mode) + " (all/mention)."
  }

  const AutoReplyInvalidReply: string := "Chỉ chấp nhận 'all' hoặc 'mention'. Ví dụ: /autoreply mention"

  function AutoReplyConfirmation(mode: Mode): string {
    match mode
    case All => "Bot sẽ trả lời tất cả tin nhắn văn bản."
    case MentionOnly => "Bot sẽ chỉ trả lời khi được nhắc tên hoặc lệnh."
  }

  /** `/mood` arguments joined by spaces, stripped, lower-cased, spaces turned into underscores. */
  function NormalizeMoodKey(args: seq<string>): string {
    ReplaceChar(Lower(Strip(Join(args, " "))), ' ', "_")
  }

  /** The mode an `/autoreply` argument names, if it names one. */
  function ModeNamed(arg: string): (m: Option<Mode>)
    ensures m.Some? ==> ModeName(m.value) == Lower(arg)
    ensures m.None? ==> Lower(arg) != "all" && Lower(arg) != "mention"
  {
    var mode := Lower(arg);
    if mode == "all" then Some(All)
    else if mode == "mention" then Some(MentionOnly)
    else None
  }

  /** `/mute [minutes]`: 10 minutes by default; a count that is not an integer, or not positive, is refused. */
  function MuteOutcome(args: seq<string>): (out: Outcome)
    ensures out.Handled? && out.reply != []
    ensures out.effect.SetMute? ==> out.effect.minutes > 0
    ensures out.effect.SetMood? == false && out.effect.SetMode? == false
  {
    var minutes := if |args| > 0 then PyInt(args[0]) else Some(10);
    if minutes.None? then Handled(MuteInvalidReply, NoEffect)
    else if minutes.value <= 0 then Handled(MuteNotPositiveReply, NoEffect)
    else Handled(MuteConfirmation(minutes.value), SetMute(minutes.value))
  }

  /** `/mood [words]`: report the current mood, or select the mood the words name. */
  function MoodOutcome(args: seq<string>, mood: string): (out: Outcome)
    ensures out.Handled? && out.reply != []
    ensures out.effect.SetMood? ==> out.effect.key in MoodTones
    ensures out.effect.SetMute? == false && out.effect.SetMode? == false
  {
    if |args| == 0 then Handled(MoodStatusReply(mood), NoEffect)
    else
      var key := NormalizeMoodKey(args);
      if key !in MoodTones then Handled(MoodInvalidReply, NoEffect)
      else Handled(MoodConfirmation(key), SetMood(key))
  }

  /** `/autoreply [all|mention]`: report the current mode, or select the mode named. */
  function AutoReplyOutcome(args: seq<string>, mode: Mode): (out: Outcome)
    ensures out.Handled? && out.reply != []
    ensures out.effect.SetMute? == false && out.effect.SetMood? == false
  {
    if |args| == 0 then Handled(AutoReplyStatus(mode), NoEffect)
    else
      match ModeNamed(args[0])
      case None => Handled(AutoReplyInvalidReply, NoEffect)
      case Some(m) => Handled(AutoReplyConfirmation(m), SetMode(m))
  }

  /**
   * The reply and state change of one recognised command, given the chat's
   * current mood and mode, the uptime in seconds and the configuration.
   */
  function Run(inv: Invocation, mood: string, mode: Mode, uptime: int, cfg: Config): (out: Outcome)
    ensures out.Handled? <==> inv.name in KnownCommands
    ensures out.Handled? && inv.name != "/help" && inv.name != "/start" ==> out.reply != []
  {
    var name, args := inv.name, inv.args;
    if name == "/alive" then
      Handled(AliveReply(uptime, cfg.apiKeyConfigured), NoEffect)
    else if name == "/help" || name == "/start" then
      Handled(Strip(cfg.helpText), NoEffect)
    else if name == "/mute" then MuteOutcome(args)
    else if name == "/mood" then MoodOutcome(args, mood)
    else if name == "/autoreply" then AutoReplyOutcome(args, mode)
    else NotHandled
  }

  /**
   * Only `/mute`, `/mood` and `/autoreply` ever ask for a state change, and
   * only with a validated value: a positive minute count or a known mood key.
   */
  lemma RunEffects(inv: Invocation, mood: string, mode: Mode, uptime: int, cfg: Config)
    ensures var out := Run(inv, mood, mode, uptime, cfg);
      && (out.Handled? && out.effect.SetMute? ==> inv.name == "/mute" && out.effect.minutes > 0)
      && (out.Handled? && out.effect.SetMood? ==> inv.name == "/mood" && out.effect.key in MoodTones)
      && (out.Handled? && out.effect.SetMode? ==> inv.name == "/autoreply")
  {
  }

  /** `handle_command(text)` as a specification: not a command, or a recognised one run. */
  function Evaluate(text: string, mood: string, mode: Mode, uptime: int, cfg: Config): (out: Outcome)
    ensures out.Handled? <==> ParseInvocation(text).Some? && ParseInvocation(text).value.name in KnownCommands
    ensures !StartsWith(Strip(text), "/") ==> out == NotHandled
  {
    match ParseInvocation(text)
    case None => NotHandled
    case Some(inv) => Run(inv, mood, mode, uptime, cfg)
  }

  /**
   * `/help` and `/start` give the same text, whatever their arguments and the
   * chat state: the command summary without its final line break.
   */
  lemma HelpEqualsStart(a: seq<string>, b: seq<string>, mood: string, mode: Mode, uptime: int, cfg: Config)
    requires WellConfigured(cfg)
    ensures Run(Invocation("/help", a), mood, mode, uptime, cfg) == Run(Invocation("/start", b), mood, mode, uptime, cfg)
    ensures Run(Invocation("/help", a), mood, mode, uptime, cfg) == Handled(HelpReply(cfg.botUsername), NoEffect)
  {
    HelpTextStripped(cfg.botUsername);
  }

  /** With the help text built at start-up, every recognised command has a visible reply. */
  lemma RunRepliesVisible(inv: Invocation, mood: string, mode: Mode, uptime: int, cfg: Config)
    requires WellConfigured(cfg)
    ensures var out := Run(inv, mood, mode, uptime, cfg);
      out.Handled? ==> out.reply != []
  {
    if inv.name == "/help" || inv.name == "/start" {
      HelpTextStripped(cfg.botUsername);
    }
  }

  /** The same for a whole message text. */
  lemma CommandRepliesVisible(text: string, mood: string, mode: Mode, uptime: int, cfg: Config)
    requires WellConfigured(cfg)
    ensures var out := Evaluate(text, mood, mode, uptime, cfg);
      out.Handled? ==> out.reply != []
  {
    match ParseInvocation(text)
    case None =>
    case Some(inv) =>
      assert Evaluate(text, mood, mode, uptime, cfg) == Run(inv, mood, mode, uptime, cfg);
      RunRepliesVisible(inv, mood, mode, uptime, cfg);
  }

  /** With the help text built at start-up, a text naming a known command is answered, and not with an empty text. */
  lemma KnownCommandAnswered(text: string, mood: string, mode: Mode, uptime: int, cfg: Config)
    requires WellConfigured(cfg)
    requires ParseInvocation(text).Some? && ParseInvocation(text).value.name in KnownCommands
    ensures var out := Evaluate(text, mood, mode, uptime, cfg);
      out.Handled? && out.reply != []
  {
    CommandRepliesVisible(text, mood, mode, uptime, cfg);
  }

  /**
   * `/alive` reports seconds below one minute and whole minutes from then on,
   * says whether the Groq key is configured, and changes nothing.
   */
  lemma AliveReportsUptime(args: seq<string>, mood: string, mode: Mode, uptime: int, cfg: Config)
    ensures var out := Run(Invocation("/alive", args), mood, mode, uptime, cfg);
      && out.Handled? && out.effect == NoEffect
      && StartsWith(out.reply, "Bot vẫn sống khỏe (" + UptimeText(uptime) + "). Groq ")
      && (EndsWith(out.reply, "đã sẵn sàng.") <==> cfg.apiKeyConfigured)
      && (EndsWith(out.reply, "chưa có GROQ_API_KEY.") <==> !cfg.apiKeyConfigured)
      && (uptime < 60 ==> UptimeText(uptime) == IntToString(uptime) + " giây")
      && (uptime >= 60 ==> exists m: nat :: UptimeText(uptime) == IntToString(m) + " phút" && 60 * m <= uptime < 60 * m + 60)
  {
    AliveReplyStatus(uptime, cfg.apiKeyConfigured);
    if uptime >= 60 {
      var m: nat := uptime / 60;
      assert UptimeText(uptime) == IntToString(m) + " phút";
    }
  }

  /** The `/alive` text: the uptime first, then whether the Groq key is configured. */
  lemma AliveReplyStatus(uptime: int, apiKeyConfigured: bool)
    ensures var reply := AliveReply(uptime, apiKeyConfigured);
      && StartsWith(reply, "Bot vẫn sống khỏe (" + UptimeText(uptime) + "). Groq ")
      && (EndsWith(reply, "đã sẵn sàng.") <==> apiKeyConfigured)
      && (EndsWith(reply, "chưa có GROQ_API_KEY.") <==> !apiKeyConfigured)
  {
    var head := "Bot vẫn sống khỏe (" + UptimeText(uptime) + "). Groq ";
    var reply := AliveReply(uptime, apiKeyConfigured);
    var ready, missing := "đã sẵn sàng", "chưa có GROQ_API_KEY";
    if apiKeyConfigured {
      assert reply == head + (ready + ".");
      assert reply[|reply| - 2] == 'g' != 'Y';
    } else {
      assert reply == head + (missing + ".");
      assert reply[|reply| - 2] == 'Y' != 'g';
    }
    assert reply[..|head|] == head;
  }

  /**
   * `/mute`: a missing argument means 10 minutes; an argument that is not an
   * integer, or is not positive, gets its own error and changes nothing; a
   * positive count is applied and echoed back.
   */
  lemma MuteValidation(args: seq<string>, mood: string, mode: Mode, uptime: int, cfg: Config)
    ensures var out := Run(Invocation("/mute", args), mood, mode, uptime, cfg);
      && (args == [] ==> out == Handled(MuteConfirmation(10), SetMute(10)))
      && (args != [] && PyInt(args[0]).None? ==> out == Handled(MuteInvalidReply, NoEffect))
      && (args != [] && PyInt(args[0]).Some? && PyInt(args[0]).value <= 0 ==> out == Handled(MuteNotPositiveReply, NoEffect))
      && (args != [] && PyInt(args[0]).Some? && PyInt(args[0]).value > 0 ==>
            out == Handled(MuteConfirmation(PyInt(args[0]).value), SetMute(PyInt(args[0]).value)))
  {
  }

  /** The `/mute` confirmation carries the minute count, which reads back as the same number. */
  lemma MuteConfirmationEchoes(minutes: int)
    ensures var s := MuteConfirmation(minutes);
      var n := |s| - |MuteConfirmationPrefix| - |MuteConfirmationSuffix|;
      && n > 0
      && ParseInt(s[|MuteConfirmationPrefix|..|MuteConfirmationPrefix| + n]) == Some(minutes)
  {
    var s := MuteConfirmation(minutes);
    var p := |MuteConfirmationPrefix|;
    assert s[p..p + |IntToString(minutes)|] == IntToString(minutes);
    IntRoundTrip(minutes);
  }

  /**
   * `/mood <words>`: the words are normalised; an unknown key gets an error
   * listing the moods and changes nothing; a known key is stored and its tone
   * is described. Without words the current mood is reported.
   */
  lemma MoodValidation(args: seq<string>, mood: string, mode: Mode, uptime: int, cfg: Config)
    ensures var out := Run(Invocation("/mood", args), mood, mode, uptime, cfg);
      && (args == [] ==> out == Handled(MoodStatusReply(mood), NoEffect))
      && (args != [] && NormalizeMoodKey(args) !in MoodTones ==> out == Handled(MoodInvalidReply, NoEffect))
      && (args != [] && NormalizeMoodKey(args) in MoodTones ==>
            out == Handled(MoodConfirmation(NormalizeMoodKey(args)), SetMood(NormalizeMoodKey(args))))
  {
    assert Run(Invocation("/mood", args), mood, mode, uptime, cfg) == MoodOutcome(args, mood);
  }

  /**
   * Mood names are matched ignoring letter case and with the space between
   * two words read as an underscore: `/mood Lem LINH` selects `lem_linh`.
   */
  lemma MoodKeyOfTwoWords(a: string, b: string)
    requires a != [] && b != []
    requires forall i :: 0 <= i < |a| ==> !IsSpace(a[i])
    requires forall i :: 0 <= i < |b| ==> !IsSpace(b[i])
    ensures NormalizeMoodKey([a, b]) == Lower(a) + "_" + Lower(b)
  {
    var joined := a + " " + b;
    assert Join([a, b], " ") == joined by {
      assert Join([b], " ") == b;
    }
    StripUnchanged(joined);
    LowerReplaceSpaced(a, b, "_");
  }

  /**
   * `/autoreply <mode>`: only `all` and `mention` (in any letter case) are
   * accepted and stored; anything else gets an error and changes nothing.
   * Without an argument the current mode is reported.
   */
  lemma AutoReplyValidation(args: seq<string>, mood: string, mode: Mode, uptime: int, cfg: Config)
    ensures var out := Run(Invocation("/autoreply", args), mood, mode, uptime, cfg);
      && (args == [] ==> out == Handled(AutoReplyStatus(mode), NoEffect))
      && (args != [] && Lower(args[0]) == "all" ==> out == Handled(AutoReplyConfirmation(All), SetMode(All)))
      && (args != [] && Lower(args[0]) == "mention" ==> out == Handled(AutoReplyConfirmation(MentionOnly), SetMode(MentionOnly)))
      && (args != [] && Lower(args[0]) != "all" && Lower(args[0]) != "mention" ==> out == Handled(AutoReplyInvalidReply, NoEffect))
  {
  }

  /** The command name read from a single word: lower-cased and cut at the first '@'. */
  function CommandName(word: string): (name: string)
    ensures '@' !in name
    ensures |name| <= |word| && name == Lower(word)[..|name|]
    ensures |name| < |word| ==> Lower(word)[|name|] == '@'
  {
    var command := Lower(word);
    if '@' in command then BeforeFirst(command, '@') else command
  }

  /** A text that starts with '/' has a first word, and it names a command that starts with '/'. */
  lemma FirstWordIsCommand(t: string)
    requires StartsWith(t, "/")
    ensures Words(t) != [] && StartsWith(CommandName(Words(t)[0]), "/")
  {
    assert t[0] == '/';
    WordsOfVisible(t);
    CommandNameOfSlash(Words(t)[0]);
  }

  /** A word that starts with '/' names a command that starts with '/'. */
  lemma CommandNameOfSlash(word: string)
    requires word != [] && word[0] == '/'
    ensures StartsWith(CommandName(word), "/")
  {
    var name := CommandName(word);
    assert Lower(word)[0] == '/';
    assert |name| > 0;
    assert name[0] == '/';
  }

  /** A text that is one word starting with '/' is a command with no arguments. */
  lemma ParseSingleWord(w: string)
    requires w != [] && w[0] == '/'
    requires forall i :: 0 <= i < |w| ==> !IsSpace(w[i])
    ensures ParseInvocation(w) == Some(Invocation(CommandName(w), []))
  {
    assert StartsWith(w, "/");
    SingleWord(w);
  }

  /**
   * A command word, a space and more text: the word names the command and the
   * words of the rest are its arguments.
   */
  lemma ParseWordThenRest(w: string, rest: string)
    requires w != [] && w[0] == '/'
    requires forall i :: 0 <= i < |w| ==> !IsSpace(w[i])
    ensures ParseInvocation(w + " " + rest) == Some(Invocation(CommandName(w), Words(rest)))
  {
    var s := w + " " + rest;
    CommandWordThenRest(w, rest);
    ParseOfWords(s);
    var parts := Words(Strip(s));
    assert parts[0] == w && parts[1..] == Words(rest);
  }

  /** `ParseWordThenRest` before parsing: the stripped text starts with '/' and splits into the word and the rest. */
  lemma CommandWordThenRest(w: string, rest: string)
    requires w != [] && w[0] == '/'
    requires forall i :: 0 <= i < |w| ==> !IsSpace(w[i])
    ensures var t := Strip(w + " " + rest);
      StartsWith(t, "/") && Words(t) == [w] + Words(rest)
  {
    var s := w + " " + rest;
    var t := Strip(s);
    StripWordThenRest(w, rest);
    assert t[..1] == [t[0]];
    WordsOfStrip(s);
    WordsOfWordThenRest(w, rest);
  }

  /** Stripping a word, a space and more text keeps the word at the front. */
  lemma StripWordThenRest(w: string, rest: string)
    requires w != [] && forall i :: 0 <= i < |w| ==> !IsSpace(w[i])
    ensures var t := Strip(w + " " + rest);
      t != [] && t[0] == w[0]
  {
    var s := w + " " + rest;
    assert s[0] == w[0];
    assert LStrip(s) == s;
    var t := RStrip(s);
    assert s[|w| - 1] == w[|w| - 1];
  }

  /** A stripped text that starts with '/' is read word by word. */
  lemma ParseOfWords(text: string)
    requires StartsWith(Strip(text), "/")
    ensures var parts := Words(Strip(text));
      parts != [] && ParseInvocation(text) == Some(Invocation(CommandName(parts[0]), parts[1..]))
  {
    WordsOfVisible(Strip(text));
  }

  /**
   * The command token is read ignoring letter case and any `@botname` suffix:
   * `/ALIVE@MyBot` and `/Alive` both name `/alive`.
   */
  lemma CommandNameNormalised(cmd: string, bot: string)
    requires cmd != [] && cmd[0] == '/' && '@' !in cmd
    requires forall i :: 0 <= i < |cmd| ==> !IsSpace(cmd[i])
    requires forall i :: 0 <= i < |bot| ==> !IsSpace(bot[i])
    ensures ParseInvocation(cmd) == Some(Invocation(Lower(cmd), []))
    ensures ParseInvocation(cmd + "@" + bot) == Some(Invocation(Lower(cmd), []))
  {
    LowerKeepsAbsent(cmd, '@');
    ParseSingleWord(cmd);
    var w := cmd + "@" + bot;
    assert ParseInvocation(w) == Some(Invocation(CommandName(w), [])) by {
      VisibleAround(cmd, '@', bot);
      ParseSingleWord(w);
    }
    CommandNameBeforeAt(cmd, bot);
  }

  /** A `@botname` suffix is cut off the command name. */
  lemma CommandNameBeforeAt(cmd: string, bot: string)
    requires '@' !in cmd
    ensures CommandName(cmd + "@" + bot) == Lower(cmd)
  {
    var w := cmd + "@" + bot;
    LowerKeepsAbsent(cmd, '@');
    LowerAround(cmd, '@', bot);
    assert Lower(w)[|cmd|] == '@';
    BeforeFirstOfConcat(Lower(cmd), '@', Lower(bot));
  }
}
