/**
 * The bot's fixed texts and tables, and the process configuration read from
 * the environment at start-up.
 */
module Settings {
  import opened Wrappers
  import opened Text

  /** Base persona handed to the remote model. */
  const SystemPrompt: string :=
    "Bạn là bot chat vui vẻ trong group. Trả lời ngắn gọn, vui nhộn, và thân thiện. Không vượt quá 2 câu."

  /** Canned replies used when the remote model gives nothing. */
  const FallbackMessages: seq<string> := [
    "Haha nghe vui à nha 😆",
    "Ủa gì zợ? 😂 kể nghe coi",
    "Bot xỉu ngang 🤣",
    "Ghê zợ ông bạn 😜",
    "Cái này coi bộ căng à nha 😆",
    "Cười chết mệ 😂",
    "Đó là một trò đùa tuyệt vời!",
    "Hahahaha, bạn làm tôi cười 🤣",
    "Quá hài hước rồi!",
    "Đừng làm tôi cười nữa, bụng đau rồi 😆",
    "Ơi hay quá, hay quá!",
    "Bạn thật là một người hài hước 😄",
    "Mình thích điều đó! 👍",
    "Hehe, bạn biết cách làm vui lòng người ta 😉"
  ]

  /** The mood keys, in the order the mood table lists them. */
  const MoodKeys: seq<string> := ["vui", "lem_linh", "cau_gat"]

  /** Tone description for each mood key. */
  const MoodTones: map<string, string> := map[
    "vui" := "Luôn vui vẻ, thân thiện, dùng nhiều emoji dễ thương.",
    "lem_linh" := "Lém lỉnh, cà khịa nhẹ, tung hứng dí dỏm nhưng không xúc phạm.",
    "cau_gat" := "Giả vờ cáu gắt, càm ràm nhưng vẫn hài hước và không quá khó chịu."
  ]

  const DefaultMood: string := "vui"

  /** The listed mood keys are exactly the keys of the tone table, each listed once, the default among them. */
  lemma MoodKeysAreTones()
    ensures forall k :: k in MoodKeys <==> k in MoodTones
    ensures forall i, j :: 0 <= i < j < |MoodKeys| ==> MoodKeys[i] != MoodKeys[j]
    ensures DefaultMood in MoodTones
  {
  }

  /** The mood keys joined by ", ". */
  const MoodOptionsText: string := Join(MoodKeys, ", ")

  /** Weekday names, Monday first (index = `datetime.weekday()`). */
  const ViDayNames: seq<string> := ["Thứ Hai", "Thứ Ba", "Thứ Tư", "Thứ Năm", "Thứ Sáu", "Thứ Bảy", "Chủ Nhật"]

  /** Reply to a bare mention of the bot. */
  const MentionPingReply: string := "Có mặt! Bạn cần gì nè?"

  /** Auto-reply mode of a chat: answer everything, or only mentions and commands. */
  datatype Mode = All | MentionOnly

  /** The stored spelling of a mode, as `/autoreply` accepts and reports it. */
  function ModeName(m: Mode): string {
    match m
    case All => "all"
    case MentionOnly => "mention"
  }

  /**
   * What the process reads from its environment once, at start-up: the bot
   * username used for mentions (already without leading `@`), the help text
   * built from it, whether a remote API key is set, the bot's own user id, and
   * the start time in seconds.
   */
  datatype Config = Config(
    botUsername: string,
    helpText: string,
    apiKeyConfigured: bool,
    botUserId: Option<int>,
    startTime: int)

  /** The fixed lines of the command summary, without the final line break. */
  const HelpLines: string :=
    "Danh sách lệnh:\n"
    + "/alive - Kiểm tra bot còn hoạt động.\n"
    + "/mute <phút> - Tạm im lặng trong nhóm.\n"
    + "/help - Hiển thị các lệnh điều khiển.\n"
    + "/mood <tên> - Đổi mood bot (" + MoodOptionsText + ").\n"
    + "/autoreply <all|mention> - Bật tắt chế độ trả lời tất cả hay chỉ khi được nhắc."

  /** The line that tells how to call the bot by name. */
  function MentionLine(botUsername: string): string {
    "\nNhắc @" + botUsername + " để gọi bot xác nhận."
  }

  /**
   * The command summary without its final line break, with the mention line
   * only when a bot username is configured.
   */
  function HelpReply(botUsername: string): string {
    HelpLines + (if botUsername != [] then MentionLine(botUsername) else "")
  }

  /** The help text as the process builds it at start-up: every line ends with a line break. */
  function HelpText(botUsername: string): string {
    HelpReply(botUsername) + "\n"
  }

  /** The command summary starts with a letter and ends with a full stop. */
  lemma HelpReplyEnds(botUsername: string)
    ensures var r := HelpReply(botUsername);
      |r| > 1 && r[0] == 'D' && r[|r| - 1] == '.'
  {
    var r := HelpReply(botUsername);
    var tail := if botUsername != [] then MentionLine(botUsername) else "";
    assert HelpLines[0] == 'D';
    assert HelpLines[|HelpLines| - 1] == '.';
    if botUsername != [] {
      assert tail[|tail| - 1] == '.';
    }
  }

  /** `/help` answers the help text stripped, which is exactly the reply without the final line break. */
  lemma HelpTextStripped(botUsername: string)
    ensures Strip(HelpText(botUsername)) == HelpReply(botUsername)
    ensures HelpReply(botUsername) != []
  {
    HelpReplyEnds(botUsername);
    StripTrailingSpace(HelpReply(botUsername), "\n");
  }

  /** `s.lstrip('@')` */
  function LStripAt(s: string): (u: string)
    ensures u == [] || u[0] != '@'
    ensures |u| <= |s| && u == s[|s| - |u|..]
    ensures forall i :: 0 <= i < |s| - |u| ==> s[i] == '@'
  {
    if s != [] && s[0] == '@' then LStripAt(s[1..]) else s
  }

  /** `(raw or '').lstrip('@')`: the configured bot username without leading `@`. */
  function BotUsername(raw: Option<string>): string {
    LStripAt(raw.GetOr(""))
  }

  /**
   * The history bound: `max(0, int(raw))`, with "0" when the variable is
   * unset and 0 when it does not parse.
   */
  function HistoryLength(raw: Option<string>): nat {
    match PyInt(raw.GetOr("0"))
    case Some(n) => if n > 0 then n else 0
    case None => 0
  }

  /**
   * The bot's own user id: the integer before the first ':' of the token,
   * or None when there is no token, no ':' or the prefix does not parse.
   */
  function BotUserId(token: Option<string>): Option<int> {
    match token
    case None => None
    case Some(t) => if t != [] && ':' in t then PyInt(BeforeFirst(t, ':')) else None
  }

  /** The help text of a configuration is the one built from its bot username. */
  predicate WellConfigured(cfg: Config) {
    cfg.helpText == HelpText(cfg.botUsername)
  }

  /**
   * The configuration read from the raw environment values (`BOT_USERNAME`,
   * `GROQ_API_KEY`, `TELEGRAM_TOKEN`) and the start-up time.
   */
  function StartupConfig(usernameVar: Option<string>, apiKey: Option<string>, token: Option<string>, startTime: int): (cfg: Config)
    ensures WellConfigured(cfg)
    ensures cfg.botUsername == [] || cfg.botUsername[0] != '@'
    ensures cfg.apiKeyConfigured <==> apiKey.Some? && apiKey.value != []
    ensures cfg.botUsername == BotUsername(usernameVar)
    ensures cfg.botUserId == BotUserId(token)
    ensures cfg.startTime == startTime
  {
    var username := BotUsername(usernameVar);
    Config(username, HelpText(username), apiKey.Some? && apiKey.value != [], BotUserId(token), startTime)
  }

  /** A numeral without whitespace at either end is its own strip. */
  lemma StripNumeral(n: int)
    ensures Strip(IntToString(n)) == IntToString(n)
  {
    var s := IntToString(n);
    assert !IsSpace(s[0]) && !IsSpace(s[|s| - 1]);
  }

  /** A positive history length is read back as given; zero or a negative one gives 0. */
  lemma HistoryLengthOfNumeral(n: int)
    ensures HistoryLength(Some(IntToString(n))) == if n > 0 then n else 0
  {
    StripNumeral(n);
    IntRoundTrip(n);
  }

  /** An unset or unparsable history length gives 0. */
  lemma HistoryLengthDefault(raw: Option<string>)
    requires raw.None? || PyInt(raw.value).None?
    ensures HistoryLength(raw) == 0
  {
    if raw.None? {
      StripNumeral(0);
      assert IntToString(0) == "0";
      IntRoundTrip(0);
    }
  }

  /** A token "<id>:<secret>" yields the bot user id <id>. */
  lemma BotUserIdOfToken(id: int, secret: string)
    ensures BotUserId(Some(IntToString(id) + ":" + secret)) == Some(id)
  {
    var p := IntToString(id);
    assert ':' !in p;
    BeforeFirstOfConcat(p, ':', secret);
    assert p + ":" + secret == p + [':'] + secret;
    StripNumeral(id);
    IntRoundTrip(id);
  }
}
