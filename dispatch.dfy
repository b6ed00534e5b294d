/**
 * `process_message`: the decision chain that turns one incoming update into
 * at most one reply, and the state changes it makes on the way. The clock,
 * the calendar, the remote model's answer and the random fallback pick are
 * inputs (a `World`); the reply goes out as an `Outgoing` value instead of an
 * HTTP call.
 */
module Dispatch {
  import opened Wrappers
  import opened Text
  import opened Settings
  import opened Markdown
  import opened Mention
  import opened Intent
  import opened History
  import opened Commands
  import opened Completion
  import opened ChatState

  /** `message["from"]`; a field the update leaves out is None. */
  datatype Sender = Sender(id: Option<int>, isBot: bool, username: Option<string>, firstName: Option<string>)

  /**
   * The fields of `update["message"]` that are read: the chat id, the message
   * id, the sender, the text (None when the message has no text) and the id
   * of the sender of the message replied to (None when there is none).
   */
  datatype Message = Message(
    chatId: Option<int>,
    messageId: Option<int>,
    sender: Sender,
    text: Option<string>,
    replyToSenderId: Option<int>)

  /** Everything the handler reads from outside the update and the tables. */
  datatype World = World(now: int, clock: DateTime, remote: Option<string>, pick: nat)

  /** The clock reading is a real date and the fallback pick names one of the messages. */
  predicate ValidWorld(w: World) {
    ValidDateTime(w.clock) && w.pick < |FallbackMessages|
  }

  /** Why an update gets no reply. */
  datatype Reason = NoText | FromBot | NotAddressed | Incomplete | Muted

  /** Which branch produced a reply; the remote branches carry the message list sent to the model. */
  datatype Kind =
    | Ping
    | QuickReply
    | CommandReply
    | LocalReply
    | ModelReply(request: seq<Entry>)
    | FallbackReply(request: seq<Entry>)

  /** What the handler did: nothing, or a reply recorded in the history after the user's entry. */
  datatype Decision =
    | Ignore(reason: Reason)
    | Reply(kind: Kind, userEntry: string, reply: string)

  /** The message sent back: `send_telegram_message(chat_id, final_message, message_id)`. */
  datatype Outgoing = Outgoing(chatId: Option<int>, text: string, replyTo: Option<int>)

  /** What the handler does once the sender and the text are known. */
  datatype Screen =
    | Drop(reason: Reason)
    | PingBack(userEntry: string)
    | Quick(userEntry: string)
    | Pass(text: string)

  /** A Python value's truth: a missing id and the id 0 are both false. */
  predicate Truthy(x: Option<int>) {
    x.Some? && x.value != 0
  }

  /** `username or first_name or "User"`: an empty name counts as missing. */
  function DisplayName(s: Sender): (name: string)
    ensures name != []
    ensures name == s.username.GetOr("") || name == s.firstName.GetOr("") || name == "User"
    ensures s.username.Some? && s.username.value != [] ==> name == s.username.value
    ensures s.username.GetOr("") == [] && s.firstName.Some? && s.firstName.value != [] ==> name == s.firstName.value
    ensures s.username.GetOr("") == [] && s.firstName.GetOr("") == [] ==> name == "User"
  {
    if s.username.Some? && s.username.value != [] then s.username.value
    else if s.firstName.Some? && s.firstName.value != [] then s.firstName.value
    else "User"
  }

  /** How an f-string prints an id: its decimal digits, or "None". */
  function IdText(id: Option<int>): string {
    match id
    case None => "None"
    case Some(n) => IntToString(n)
  }

  /** `f"[{safe_username}](tg://user?id={user_id}) {safe_reply}"` with both parts escaped. */
  function ReplyText(name: string, userId: Option<int>, reply: string): string {
    "[" + Escaped(name) + "](tg://user?id=" + IdText(userId) + ") " + Escaped(reply)
  }

  /** The message is a reply to one of the bot's own messages (the bot's id is known and non-zero). */
  predicate IsReplyToBot(m: Message, cfg: Config) {
    Truthy(cfg.botUserId) && m.replyToSenderId == cfg.botUserId
  }

  /**
   * The checks between reading the text and running a command: a bare
   * mention is answered at once; otherwise the mention is cut out, a chat in
   * mention-only mode drops plain text that does not mention the bot, and a
   * message without chat id, message id, sender id or text is dropped.
   */
  function Screening(m: Message, original: string, mode: Mode, cfg: Config): (s: Screen)
    ensures s.Pass? ==> s.text != [] && Truthy(m.chatId) && Truthy(m.messageId) && Truthy(m.sender.id)
  {
    var (cleaned, hasMention) := ExtractTextWithoutMention(original, cfg.botUsername);
    if hasMention && cleaned == [] then
      var entry := if Strip(original) != [] then Strip(original)
        else if cfg.botUsername != [] then "@" + cfg.botUsername
        else Strip(original);
      PingBack(entry)
    else
      var text := if hasMention then cleaned else Strip(original);
      if !hasMention && mode == MentionOnly && !StartsWith(text, "/") then Drop(NotAddressed)
      else Checked(m, original, text, cfg)
  }

  /**
   * The checks on an addressed text: a message without chat id, message id,
   * sender id or text is dropped; an empty reply to the bot gets the quick reply.
   */
  function Checked(m: Message, original: string, text: string, cfg: Config): (s: Screen)
    ensures s.Pass? ==> s.text == text && text != [] && Truthy(m.chatId) && Truthy(m.messageId) && Truthy(m.sender.id)
    ensures s.Drop? ==> s.reason == Incomplete
  {
    if !(Truthy(m.chatId) && Truthy(m.messageId) && Truthy(m.sender.id) && text != []) then Drop(Incomplete)
    else if IsReplyToBot(m, cfg) && Strip(original) == [] then Quick(Strip(original))
    else Pass(text)
  }

  /**
   * The remote branch: the message list for the model (the prompt for the
   * chat's mood, the recent history, the text) and the model's answer, or a
   * fallback message when there is none.
   */
  function Remote(t: Tables, bound: nat, c: ChatKey, text: string, w: World): (r: (Decision, Tables))
    requires ValidWorld(w)
    ensures r.0.Reply? && r.0.userEntry == text
    ensures r.0.kind.ModelReply? || r.0.kind.FallbackReply?
  {
    var request := Request(text, SystemPromptFor(MoodOf(t, c)), Recent(HistoryOf(t, c), bound));
    match CompletionText(w.remote)
    case Some(answer) => (Reply(ModelReply(request), text, answer), WithTurn(t, c, text, answer, bound))
    case None =>
      var fallback := FallbackMessages[w.pick];
      (Reply(FallbackReply(request), text, fallback), WithTurn(t, c, text, fallback, bound))
  }

  /**
   * After the command step: a muted chat gets nothing; otherwise the mute
   * check has removed an expired deadline and the text is answered.
   */
  function Unmuted(t: Tables, bound: nat, c: ChatKey, text: string, w: World): (r: (Decision, Tables))
    requires ValidWorld(w)
  {
    if MutedAt(t, c, w.now) then (Ignore(Muted), t)
    else LocalOrRemote(AfterMuteCheck(t, c, w.now), bound, c, text, w)
  }

  /** A local answer to a time or date question, else the remote branch. */
  function LocalOrRemote(t: Tables, bound: nat, c: ChatKey, text: string, w: World): (r: (Decision, Tables))
    requires ValidWorld(w)
  {
    match LocalIntentReply(text, w.clock)
    case Some(local) => (Reply(LocalReply, text, local), WithTurn(t, c, text, local, bound))
    case None => Remote(t, bound, c, text, w)
  }

  /**
   * The answer to a text that passed the screening: a command's non-empty
   * reply (with the command's state change), else what `Unmuted` decides on
   * the tables the command left.
   */
  function Response(t: Tables, bound: nat, c: ChatKey, text: string, w: World, cfg: Config): (Decision, Tables)
    requires ValidWorld(w)
  {
    AfterCommand(bound, c, text, w, CommandStep(t, c, text, w.now, cfg))
  }

  /** What follows `handle_command`, given its reply and the tables it left. */
  function AfterCommand(bound: nat, c: ChatKey, text: string, w: World, command: (Option<string>, Tables)): (Decision, Tables)
    requires ValidWorld(w)
  {
    var (commandReply, t1) := command;
    if commandReply.Some? && commandReply.value != [] then
      (Reply(CommandReply, text, commandReply.value), WithTurn(t1, c, text, commandReply.value, bound))
    else Unmuted(t1, bound, c, text, w)
  }

  /** `process_message(update)` on the tables, with `bound` the history length. */
  function Step(t: Tables, bound: nat, update: Option<Message>, w: World, cfg: Config): (Decision, Tables)
    requires ValidWorld(w)
  {
    match update
    case None => (Ignore(NoText), t)
    case Some(m) =>
      if m.text.None? then (Ignore(NoText), t)
      else if m.sender.isBot then (Ignore(FromBot), t)
      else Screened(t, bound, m, w, cfg)
  }

  /** What a screening result leads to: a drop, the ping or quick reply, or the answer to the text. */
  function Act(t: Tables, bound: nat, m: Message, s: Screen, w: World, cfg: Config): (Decision, Tables)
    requires ValidWorld(w)
  {
    match s
    case Drop(reason) => (Ignore(reason), t)
    case PingBack(entry) => (Reply(Ping, entry, MentionPingReply), WithTurn(t, m.chatId, entry, MentionPingReply, bound))
    case Quick(entry) => (Reply(QuickReply, entry, MentionPingReply), WithTurn(t, m.chatId, entry, MentionPingReply, bound))
    case Pass(text) => Response(t, bound, m.chatId, text, w, cfg)
  }

  /** The steps after the sender check, for a message with text from a person. */
  function Screened(t: Tables, bound: nat, m: Message, w: World, cfg: Config): (Decision, Tables)
    requires ValidWorld(w) && m.text.Some?
  {
    Act(t, bound, m, Screening(m, m.text.value, ModeOf(t, m.chatId), cfg), w, cfg)
  }

  /** The message sent for a decision: a reply goes to the update's chat, quoting its message. */
  function Outbound(update: Option<Message>, d: Decision): Option<Outgoing> {
    match update
    case None => None
    case Some(m) =>
      if d.Ignore? then None
      else Some(Outgoing(m.chatId, ReplyText(DisplayName(m.sender), m.sender.id, d.reply), m.messageId))
  }

  /** The message for a reply: the sender's name and the reply, both escaped, under a link to the sender. */
  method Compose(m: Message, name: string, reply: string) returns (o: Outgoing)
    ensures o == Outgoing(m.chatId, ReplyText(name, m.sender.id, reply), m.messageId)
  {
    var safeName := EscapeMarkdown(name);
    var safeReply := EscapeMarkdown(reply);
    o := Outgoing(m.chatId, "[" + safeName + "](tg://user?id=" + IdText(m.sender.id) + ") " + safeReply, m.messageId);
  }

  /** What goes back for a decision on message `m`: nothing when it is ignored, else the composed reply. */
  method Send(m: Message, d: Decision) returns (out: Option<Outgoing>)
    ensures out == Outbound(Some(m), d)
  {
    if d.Ignore? {
      return None;
    }
    var o := Compose(m, DisplayName(m.sender), d.reply);
    return Some(o);
  }

  /**
   * `process_message(update)` against the bot's tables: the decision taken
   * and the message sent, with the tables changed as `Step` says.
   */
  method ProcessMessage(store: ChatStore, update: Option<Message>, w: World, cfg: Config)
    returns (d: Decision, out: Option<Outgoing>)
    requires store.Valid() && ValidWorld(w)
    modifies store
    ensures store.Valid()
    ensures (d, store.Snapshot()) == Step(old(store.Snapshot()), store.H, update, w, cfg)
    ensures out == Outbound(update, d)
  {
    if update.None? || update.value.text.None? {
      return Ignore(NoText), None;
    }
    var m := update.value;
    if m.sender.isBot {
      return Ignore(FromBot), None;
    }
    d := HandleText(store, m, w, cfg);
    out := Send(m, d);
  }

  /** `process_message` for a message with text from a person: the screening, then the answer. */
  method HandleText(store: ChatStore, m: Message, w: World, cfg: Config) returns (d: Decision)
    requires store.Valid() && ValidWorld(w) && m.text.Some?
    modifies store
    ensures store.Valid()
    ensures (d, store.Snapshot()) == Screened(old(store.Snapshot()), store.H, m, w, cfg)
  {
    ghost var t0 := store.Snapshot();
    var chatId := m.chatId;
    var original := m.text.value;
    var messageText := Strip(original);
    var (cleaned, hasMention) := ExtractTextWithoutMention(original, cfg.botUsername);
    var mode := store.GetAutoReplyMode(chatId);
    ghost var screen := Screening(m, original, mode, cfg);
    assert mode == ModeOf(t0, m.chatId);
    assert Screened(t0, store.H, m, w, cfg) == Act(t0, store.H, m, screen, w, cfg);
    if hasMention {
      if cleaned == [] {
        var entry := if Strip(original) != [] then Strip(original)
          else if cfg.botUsername != [] then "@" + cfg.botUsername
          else Strip(original);
        assert screen == PingBack(entry);
        assert Act(t0, store.H, m, screen, w, cfg) == (Reply(Ping, entry, MentionPingReply), WithTurn(t0, chatId, entry, MentionPingReply, store.H));
        store.RecordConversationTurn(chatId, entry, MentionPingReply);
        return Reply(Ping, entry, MentionPingReply);
      }
      messageText := cleaned;
    } else if mode == MentionOnly {
      if !StartsWith(messageText, "/") {
        assert screen == Drop(NotAddressed);
        return Ignore(NotAddressed);
      }
    }
    assert screen == Checked(m, original, messageText, cfg);
    d := CheckAndAnswer(store, m, original, messageText, w, cfg);
  }

  /** `process_message` once the text is known to be addressed to the bot: validation, quick reply, answer. */
  method CheckAndAnswer(store: ChatStore, m: Message, original: string, messageText: string, w: World, cfg: Config)
    returns (d: Decision)
    requires store.Valid() && ValidWorld(w)
    modifies store
    ensures store.Valid()
    ensures (d, store.Snapshot()) == Act(old(store.Snapshot()), store.H, m, Checked(m, original, messageText, cfg), w, cfg)
  {
    ghost var t0 := store.Snapshot();
    ghost var screen := Checked(m, original, messageText, cfg);
    var chatId := m.chatId;
    var replyToBot := IsReplyToBot(m, cfg);
    if !(Truthy(chatId) && Truthy(m.messageId) && Truthy(m.sender.id) && messageText != []) {
      assert screen == Drop(Incomplete);
      return Ignore(Incomplete);
    }
    if replyToBot && Strip(original) == [] {
      assert screen == Quick(Strip(original));
      store.RecordConversationTurn(chatId, Strip(original), MentionPingReply);
      return Reply(QuickReply, Strip(original), MentionPingReply);
    }
    assert screen == Pass(messageText);
    d := Answer(store, chatId, messageText, w, cfg);
  }

  /** The part of `process_message` after the screening: command, mute check, local answer, remote answer. */
  method Answer(store: ChatStore, chatId: ChatKey, text: string, w: World, cfg: Config) returns (d: Decision)
    requires store.Valid() && ValidWorld(w)
    modifies store
    ensures store.Valid()
    ensures (d, store.Snapshot()) == Response(old(store.Snapshot()), store.H, chatId, text, w, cfg)
  {
    ghost var t0 := store.Snapshot();
    var commandReply := store.HandleCommand(text, chatId, w.now, cfg);
    assert Response(t0, store.H, chatId, text, w, cfg) == AfterCommand(store.H, chatId, text, w, (commandReply, store.Snapshot()));
    if commandReply.Some? && commandReply.value != [] {
      store.RecordConversationTurn(chatId, text, commandReply.value);
      return Reply(CommandReply, text, commandReply.value);
    }
    ghost var t1 := store.Snapshot();
    var muted := store.IsChatMuted(chatId, w.now);
    if muted {
      return Ignore(Muted);
    }
    var local := LocalIntentReply(text, w.clock);
    if local.Some? {
      store.RecordConversationTurn(chatId, text, local.value);
      return Reply(LocalReply, text, local.value);
    }
    ghost var t2 := store.Snapshot();
    assert Unmuted(t1, store.H, chatId, text, w) == LocalOrRemote(t2, store.H, chatId, text, w);
    assert LocalOrRemote(t2, store.H, chatId, text, w) == Remote(t2, store.H, chatId, text, w);
    var prompt := store.BuildSystemPrompt(chatId);
    var history := store.GetChatHistoryMessages(chatId);
    var request := Request(text, prompt, history);
    var answer := CompletionText(w.remote);
    if answer.Some? {
      store.RecordConversationTurn(chatId, text, answer.value);
      return Reply(ModelReply(request), text, answer.value);
    }
    var fallback := FallbackMessages[w.pick];
    store.RecordConversationTurn(chatId, text, fallback);
    return Reply(FallbackReply(request), text, fallback);
  }

  /** An update without a text message, or a message from a bot, gets no reply and changes nothing. */
  lemma IgnoredUpdates(t: Tables, bound: nat, update: Option<Message>, w: World, cfg: Config)
    requires ValidWorld(w)
    requires update.None? || update.value.text.None? || update.value.sender.isBot
    ensures Step(t, bound, update, w, cfg).0.Ignore? && Step(t, bound, update, w, cfg).1 == t
    ensures Outbound(update, Step(t, bound, update, w, cfg).0) == None
  {
  }

  /**
   * A message that is nothing but a mention of the bot gets the ping reply,
   * whatever the chat's mode, mute or ids, and the stripped text is recorded
   * as the user's side of the turn.
   */
  lemma MentionPingAlways(t: Tables, bound: nat, m: Message, w: World, cfg: Config)
    requires ValidWorld(w) && m.text.Some? && !m.sender.isBot
    requires ExtractTextWithoutMention(m.text.value, cfg.botUsername).1
    requires ExtractTextWithoutMention(m.text.value, cfg.botUsername).0 == []
    ensures var entry := Strip(m.text.value);
      && entry != []
      && Step(t, bound, Some(m), w, cfg) == (Reply(Ping, entry, MentionPingReply), WithTurn(t, m.chatId, entry, MentionPingReply, bound))
  {
    assert Step(t, bound, Some(m), w, cfg) == Screened(t, bound, m, w, cfg);
    ScreenedPing(t, bound, m, w, cfg);
  }

  /** `MentionPingAlways` for the steps after the sender check. */
  lemma ScreenedPing(t: Tables, bound: nat, m: Message, w: World, cfg: Config)
    requires ValidWorld(w) && m.text.Some?
    requires ExtractTextWithoutMention(m.text.value, cfg.botUsername).1
    requires ExtractTextWithoutMention(m.text.value, cfg.botUsername).0 == []
    ensures var entry := Strip(m.text.value);
      && entry != []
      && Screened(t, bound, m, w, cfg) == (Reply(Ping, entry, MentionPingReply), WithTurn(t, m.chatId, entry, MentionPingReply, bound))
  {
    var s := Screening(m, m.text.value, ModeOf(t, m.chatId), cfg);
    PingScreening(m, m.text.value, ModeOf(t, m.chatId), cfg);
    assert Screened(t, bound, m, w, cfg) == Act(t, bound, m, s, w, cfg);
    assert Act(t, bound, m, s, w, cfg) == (Reply(Ping, s.userEntry, MentionPingReply), WithTurn(t, m.chatId, s.userEntry, MentionPingReply, bound));
  }

  /** A bare mention is screened as the ping, with the stripped text, which is never blank, as the user's entry. */
  lemma PingScreening(m: Message, original: string, mode: Mode, cfg: Config)
    requires ExtractTextWithoutMention(original, cfg.botUsername).1
    requires ExtractTextWithoutMention(original, cfg.botUsername).0 == []
    ensures Strip(original) != []
    ensures Screening(m, original, mode, cfg) == PingBack(Strip(original))
  {
    MentionIsVisible(original, cfg.botUsername);
  }

  /**
   * In mention-only mode a chat gets a reply only to a message that mentions
   * the bot or looks like a command; any other text is dropped unchanged.
   */
  lemma MentionOnlyDropsPlainText(t: Tables, bound: nat, m: Message, w: World, cfg: Config)
    requires ValidWorld(w) && m.text.Some? && !m.sender.isBot
    requires ModeOf(t, m.chatId) == MentionOnly
    ensures var hasMention := ExtractTextWithoutMention(m.text.value, cfg.botUsername).1;
      !hasMention && !StartsWith(Strip(m.text.value), "/") ==>
        Step(t, bound, Some(m), w, cfg) == (Ignore(NotAddressed), t)
    ensures Step(t, bound, Some(m), w, cfg).0.Reply? ==>
      ExtractTextWithoutMention(m.text.value, cfg.botUsername).1 || StartsWith(Strip(m.text.value), "/")
  {
    var original := m.text.value;
    var (cleaned, hasMention) := ExtractTextWithoutMention(original, cfg.botUsername);
    if !hasMention && !StartsWith(Strip(original), "/") {
      assert Screening(m, original, MentionOnly, cfg) == Drop(NotAddressed);
    }
  }

  /**
   * The quick reply to an empty reply to the bot never happens: a text that
   * passes the validation is never blank once stripped.
   */
  lemma QuickReplyUnreachable(t: Tables, bound: nat, update: Option<Message>, w: World, cfg: Config)
    requires ValidWorld(w)
    ensures !(Step(t, bound, update, w, cfg).0.Reply? && Step(t, bound, update, w, cfg).0.kind == QuickReply)
  {
    if update.Some? && update.value.text.Some? && !update.value.sender.isBot {
      var m := update.value;
      assert Step(t, bound, update, w, cfg) == Screened(t, bound, m, w, cfg);
      ScreeningNeverQuick(m, m.text.value, ModeOf(t, m.chatId), cfg);
      ScreenedNeverQuick(t, bound, m, w, cfg);
    }
  }

  /** The screening never chooses the quick reply. */
  lemma ScreeningNeverQuick(m: Message, original: string, mode: Mode, cfg: Config)
    ensures !Screening(m, original, mode, cfg).Quick?
  {
    if ExtractTextWithoutMention(original, cfg.botUsername).1 {
      MentionIsVisible(original, cfg.botUsername);
    }
  }

  /** An answer to a text that passed the screening is never the quick reply. */
  lemma ScreenedNeverQuick(t: Tables, bound: nat, m: Message, w: World, cfg: Config)
    requires ValidWorld(w) && m.text.Some?
    requires !Screening(m, m.text.value, ModeOf(t, m.chatId), cfg).Quick?
    ensures !(Screened(t, bound, m, w, cfg).0.Reply? && Screened(t, bound, m, w, cfg).0.kind == QuickReply)
  {
    var s := Screening(m, m.text.value, ModeOf(t, m.chatId), cfg);
    if s.Pass? {
      ResponseKinds(t, bound, m.chatId, s.text, w, cfg);
    }
  }

  /** The kinds of answer a screened text can get: a command's, a local, a model or a fallback reply. */
  lemma ResponseKinds(t: Tables, bound: nat, c: ChatKey, text: string, w: World, cfg: Config)
    requires ValidWorld(w)
    ensures var d := Response(t, bound, c, text, w, cfg).0;
      d.Reply? ==> d.userEntry == text && d.kind != Ping && d.kind != QuickReply
    ensures var (d, t2) := Response(t, bound, c, text, w, cfg);
      d.Ignore? ==> d.reason == Muted && MutedAt(t, c, w.now) && t2 == t
    ensures var d := Response(t, bound, c, text, w, cfg).0;
      MutedAt(t, c, w.now) && d.Reply? ==> d.kind == CommandReply
  {
    var (commandReply, t1) := CommandStep(t, c, text, w.now, cfg);
    if !(commandReply.Some? && commandReply.value != []) {
      CommandStepShape(t, c, text, w.now, cfg);
      assert t1 == t;
      assert Response(t, bound, c, text, w, cfg) == Unmuted(t, bound, c, text, w);
      UnmutedKinds(t, bound, c, text, w);
    }
  }

  /** After the command step a text gets nothing for a muted chat, else a local, a model or a fallback reply. */
  lemma UnmutedKinds(t: Tables, bound: nat, c: ChatKey, text: string, w: World)
    requires ValidWorld(w)
    ensures var d := Unmuted(t, bound, c, text, w).0;
      && (d.Ignore? <==> MutedAt(t, c, w.now))
      && (d.Ignore? ==> d.reason == Muted && Unmuted(t, bound, c, text, w).1 == t)
      && (d.Reply? ==> d.userEntry == text && (d.kind == LocalReply || d.kind.ModelReply? || d.kind.FallbackReply?))
  {
    if !MutedAt(t, c, w.now) {
      var t1 := AfterMuteCheck(t, c, w.now);
      assert Unmuted(t, bound, c, text, w) == LocalOrRemote(t1, bound, c, text, w);
      if LocalIntentReply(text, w.clock).None? {
        assert LocalOrRemote(t1, bound, c, text, w) == Remote(t1, bound, c, text, w);
      }
    }
  }

  /**
   * An update that gets no reply changes nothing: a dropped message, and a
   * text in a muted chat, leave every table (the mute deadlines included) as
   * they were.
   */
  lemma IgnoredChangesNothing(t: Tables, bound: nat, update: Option<Message>, w: World, cfg: Config)
    requires ValidWorld(w)
    ensures Step(t, bound, update, w, cfg).0.Ignore? ==> Step(t, bound, update, w, cfg).1 == t
  {
    if update.Some? && update.value.text.Some? && !update.value.sender.isBot {
      var m := update.value;
      var s := Screening(m, m.text.value, ModeOf(t, m.chatId), cfg);
      assert Step(t, bound, update, w, cfg) == Act(t, bound, m, s, w, cfg);
      ActKinds(t, bound, m, s, w, cfg);
    }
  }

  /**
   * A muted chat hears from the bot only in answer to a bare mention or to a
   * command; every other text gets nothing.
   */
  lemma MutedChatHearsOnlyCommands(t: Tables, bound: nat, m: Message, w: World, cfg: Config)
    requires ValidWorld(w) && MutedAt(t, m.chatId, w.now)
    ensures var d := Step(t, bound, Some(m), w, cfg).0;
      d.Reply? ==> d.kind == Ping || d.kind == CommandReply
  {
    QuickReplyUnreachable(t, bound, Some(m), w, cfg);
    if m.text.Some? && !m.sender.isBot {
      var s := Screening(m, m.text.value, ModeOf(t, m.chatId), cfg);
      assert Step(t, bound, Some(m), w, cfg) == Act(t, bound, m, s, w, cfg);
      ActKinds(t, bound, m, s, w, cfg);
    }
  }

  /** What each screening result can lead to, with or without a mute. */
  lemma ActKinds(t: Tables, bound: nat, m: Message, s: Screen, w: World, cfg: Config)
    requires ValidWorld(w)
    ensures var (d, t2) := Act(t, bound, m, s, w, cfg);
      && (d.Ignore? ==> t2 == t)
      && (MutedAt(t, m.chatId, w.now) && d.Reply? ==> d.kind == Ping || d.kind == QuickReply || d.kind == CommandReply)
  {
    if s.Pass? {
      assert Act(t, bound, m, s, w, cfg) == Response(t, bound, m.chatId, s.text, w, cfg);
      ResponseKinds(t, bound, m.chatId, s.text, w, cfg);
    }
  }

  /**
   * A command is answered even in a muted chat: a text that passes the
   * screening and gets a non-empty command reply (every known command does,
   * by `KnownCommandAnswered`) is answered with that reply, whatever the mute
   * deadline.
   */
  lemma CommandAnsweredWhileMuted(t: Tables, bound: nat, m: Message, text: string, w: World, cfg: Config)
    requires ValidWorld(w) && m.text.Some? && !m.sender.isBot
    requires Screening(m, m.text.value, ModeOf(t, m.chatId), cfg) == Pass(text)
    requires CommandStep(t, m.chatId, text, w.now, cfg).0.Some? && CommandStep(t, m.chatId, text, w.now, cfg).0.value != []
    ensures Step(t, bound, Some(m), w, cfg).0 == Reply(CommandReply, text, CommandStep(t, m.chatId, text, w.now, cfg).0.value)
  {
    var s := Screening(m, m.text.value, ModeOf(t, m.chatId), cfg);
    assert Step(t, bound, Some(m), w, cfg) == Act(t, bound, m, s, w, cfg);
    CommandAnswered(t, bound, m.chatId, text, w, cfg);
  }

  /**
   * A question the bot answers locally (the time, the date, the weekday)
   * never reaches the remote model: the outcome is the same whatever the
   * model would say and whichever fallback would be picked, and it is the
   * local answer unless a command answered first or the chat is muted.
   */
  lemma LocalIntentPreempts(t: Tables, bound: nat, m: Message, text: string, w: World, w2: World, cfg: Config)
    requires ValidWorld(w) && ValidWorld(w2) && w2.now == w.now && w2.clock == w.clock
    requires m.text.Some? && !m.sender.isBot
    requires Screening(m, m.text.value, ModeOf(t, m.chatId), cfg) == Pass(text)
    requires LocalIntentReply(text, w.clock).Some?
    ensures Step(t, bound, Some(m), w, cfg) == Step(t, bound, Some(m), w2, cfg)
    ensures var d := Step(t, bound, Some(m), w, cfg).0;
      d.Reply? ==> d.kind == CommandReply || (d.kind == LocalReply && d.reply == LocalIntentReply(text, w.clock).value)
  {
    var c := m.chatId;
    var s := Screening(m, m.text.value, ModeOf(t, c), cfg);
    assert Step(t, bound, Some(m), w, cfg) == Act(t, bound, m, s, w, cfg);
    assert Step(t, bound, Some(m), w2, cfg) == Act(t, bound, m, s, w2, cfg);
    assert Act(t, bound, m, s, w, cfg) == Response(t, bound, c, text, w, cfg);
    assert Act(t, bound, m, s, w2, cfg) == Response(t, bound, c, text, w2, cfg);
    ResponsePreempted(t, bound, c, text, w, w2, cfg);
  }

  /** `LocalIntentPreempts` for a text that passed the screening. */
  lemma ResponsePreempted(t: Tables, bound: nat, c: ChatKey, text: string, w: World, w2: World, cfg: Config)
    requires ValidWorld(w) && ValidWorld(w2) && w2.now == w.now && w2.clock == w.clock
    requires LocalIntentReply(text, w.clock).Some?
    ensures Response(t, bound, c, text, w, cfg) == Response(t, bound, c, text, w2, cfg)
    ensures var d := Response(t, bound, c, text, w, cfg).0;
      d.Reply? ==> d.kind == CommandReply || (d.kind == LocalReply && d.reply == LocalIntentReply(text, w.clock).value)
  {
    var command := CommandStep(t, c, text, w.now, cfg);
    assert Response(t, bound, c, text, w, cfg) == AfterCommand(bound, c, text, w, command);
    assert Response(t, bound, c, text, w2, cfg) == AfterCommand(bound, c, text, w2, command);
    var (reply, t1) := command;
    if !(reply.Some? && reply.value != []) {
      assert AfterCommand(bound, c, text, w, command) == Unmuted(t1, bound, c, text, w);
      assert AfterCommand(bound, c, text, w2, command) == Unmuted(t1, bound, c, text, w2);
      UnmutedPreempted(t1, bound, c, text, w, w2);
    }
  }

  /** `LocalIntentPreempts` after the command step. */
  lemma UnmutedPreempted(t: Tables, bound: nat, c: ChatKey, text: string, w: World, w2: World)
    requires ValidWorld(w) && ValidWorld(w2) && w2.now == w.now && w2.clock == w.clock
    requires LocalIntentReply(text, w.clock).Some?
    ensures Unmuted(t, bound, c, text, w) == Unmuted(t, bound, c, text, w2)
    ensures var d := Unmuted(t, bound, c, text, w).0;
      d.Reply? ==> d.kind == LocalReply && d.reply == LocalIntentReply(text, w.clock).value
  {
  }

  /**
   * The message sent for a reply quotes the update's message in its chat,
   * and the reply part, once its backslashes are removed, reads back as the
   * reply itself.
   */
  lemma OutboundReadsBack(m: Message, d: Decision)
    requires d.Reply?
    ensures var o := Outbound(Some(m), d);
      var head := "[" + Escaped(DisplayName(m.sender)) + "](tg://user?id=" + IdText(m.sender.id) + ") ";
      && o.Some? && o.value.chatId == m.chatId && o.value.replyTo == m.messageId
      && |head| <= |o.value.text| && o.value.text[..|head|] == head
      && Unescape(o.value.text[|head|..]) == d.reply
  {
    var head := "[" + Escaped(DisplayName(m.sender)) + "](tg://user?id=" + IdText(m.sender.id) + ") ";
    var text := ReplyText(DisplayName(m.sender), m.sender.id, d.reply);
    assert text == head + Escaped(d.reply);
    assert text[|head|..] == Escaped(d.reply);
    UnescapeEscaped(d.reply);
  }

  /**
   * Every reply can be traced to its source: a model reply is the model's
   * stripped answer, a fallback reply is the picked fallback message and
   * comes only when the model gave nothing, a local reply is the local
   * answer to the text, and the ping and quick replies are the fixed ping.
   */
  ghost predicate Explained(d: Decision, w: World)
    requires ValidWorld(w)
  {
    d.Reply? ==>
      && (d.kind.ModelReply? ==> CompletionText(w.remote) == Some(d.reply))
      && (d.kind.FallbackReply? ==> CompletionText(w.remote) == None && d.reply == FallbackMessages[w.pick])
      && (d.kind == LocalReply ==> LocalIntentReply(d.userEntry, w.clock) == Some(d.reply))
      && (d.kind == Ping || d.kind == QuickReply ==> d.reply == MentionPingReply)
  }

  /** The chat's history gains exactly the turn of a reply, and nothing when there is none. */
  ghost predicate Recorded(t: Tables, t2: Tables, c: ChatKey, d: Decision, bound: nat) {
    && (d.Reply? ==> HistoryOf(t2, c) == Turn(HistoryOf(t, c), d.userEntry, d.reply, bound))
    && (d.Ignore? ==> t2.history == t.history)
  }

  /** The message list a remote branch sends is built from the chat's mood and recent history. */
  ghost predicate AsksWith(d: Decision, t: Tables, c: ChatKey, bound: nat) {
    d.Reply? && (d.kind.ModelReply? || d.kind.FallbackReply?) ==>
      d.kind.request == Request(d.userEntry, SystemPromptFor(MoodOf(t, c)), Recent(HistoryOf(t, c), bound))
  }

  /**
   * Decision `d` on chat `c`, taking the tables from `t` to `t2`, accounts
   * for all it does: the reply is explained by its source, the chat's history
   * gains exactly its turn, no other chat changes, the bound is kept, and a
   * remote request is built from the chat's mood and recent history.
   */
  ghost predicate Accounts(t: Tables, t2: Tables, c: ChatKey, d: Decision, bound: nat, w: World)
    requires ValidWorld(w)
  {
    && Explained(d, w) && Recorded(t, t2, c, d, bound) && OthersUnchanged(t, t2, c)
    && (Bounded(t, bound) ==> Bounded(t2, bound))
    && AsksWith(d, t, c, bound)
  }

  /** A turn recorded on the tables, seen through the predicates above. */
  lemma TurnAccounts(t: Tables, bound: nat, c: ChatKey, d: Decision)
    requires d.Reply?
    ensures var t2 := WithTurn(t, c, d.userEntry, d.reply, bound);
      && Recorded(t, t2, c, d, bound)
      && OthersUnchanged(t, t2, c)
      && (Bounded(t, bound) ==> Bounded(t2, bound))
  {
    WithTurnHistory(t, c, d.userEntry, d.reply, bound);
    if Bounded(t, bound) {
      WithTurnKeepsBounded(t, c, d.userEntry, d.reply, bound);
    }
    WithTurnKeepsOthers(t, c, d.userEntry, d.reply, bound);
  }

  /** A turn touches only its own chat's history. */
  lemma WithTurnKeepsOthers(t: Tables, c: ChatKey, userText: string, botText: string, bound: nat)
    ensures OthersUnchanged(t, WithTurn(t, c, userText, botText, bound), c)
  {
    WithTurnOtherHistories(t, c, userText, botText, bound);
    WithTurnFields(t, c, userText, botText, bound);
  }

  /** The remote branch, accounted for. */
  lemma RemoteAccounts(t: Tables, bound: nat, c: ChatKey, text: string, w: World)
    requires ValidWorld(w)
    ensures var (d, t2) := Remote(t, bound, c, text, w);
      Accounts(t, t2, c, d, bound, w)
  {
    var (d, t2) := Remote(t, bound, c, text, w);
    assert t2 == WithTurn(t, c, text, d.reply, bound);
    TurnAccounts(t, bound, c, d);
  }

  /** The local or remote answer, accounted for. */
  lemma LocalOrRemoteAccounts(t: Tables, bound: nat, c: ChatKey, text: string, w: World)
    requires ValidWorld(w)
    ensures var (d, t2) := LocalOrRemote(t, bound, c, text, w);
      Accounts(t, t2, c, d, bound, w)
  {
    match LocalIntentReply(text, w.clock)
    case Some(local) =>
      var d := Reply(LocalReply, text, local);
      assert LocalOrRemote(t, bound, c, text, w) == (d, WithTurn(t, c, text, local, bound));
      TurnAccounts(t, bound, c, d);
    case None =>
      assert LocalOrRemote(t, bound, c, text, w) == Remote(t, bound, c, text, w);
      RemoteAccounts(t, bound, c, text, w);
  }

  /**
   * Accounts made from tables `t1` that differ from `t` only in other chats
   * and never in a history, and agree on the chat's mood, hold from `t` too.
   */
  lemma Rebase(t: Tables, t1: Tables, t2: Tables, c: ChatKey, d: Decision, bound: nat, w: World)
    requires ValidWorld(w)
    requires t1.history == t.history && MoodOf(t1, c) == MoodOf(t, c) && OthersUnchanged(t, t1, c)
    requires Accounts(t1, t2, c, d, bound, w)
    ensures Accounts(t, t2, c, d, bound, w)
  {
    assert HistoryOf(t1, c) == HistoryOf(t, c);
    assert Bounded(t, bound) ==> Bounded(t1, bound);
    OthersUnchangedTrans(t, t1, t2, c);
  }

  /** Leaving other chats alone is transitive. */
  lemma OthersUnchangedTrans(t: Tables, t1: Tables, t2: Tables, c: ChatKey)
    requires OthersUnchanged(t, t1, c) && OthersUnchanged(t1, t2, c)
    ensures OthersUnchanged(t, t2, c)
  {
    forall e | e != c
      ensures MoodOf(t2, e) == MoodOf(t, e) && ModeOf(t2, e) == ModeOf(t, e) && HistoryOf(t2, e) == HistoryOf(t, e)
      ensures (e in t2.muteUntil <==> e in t.muteUntil) && (e in t.muteUntil ==> t2.muteUntil[e] == t.muteUntil[e])
    {
    }
  }

  /** The steps after the command, accounted for: nothing but the mute check for a muted chat. */
  lemma UnmutedAccounts(t: Tables, bound: nat, c: ChatKey, text: string, w: World)
    requires ValidWorld(w)
    ensures var (d, t2) := Unmuted(t, bound, c, text, w);
      Accounts(t, t2, c, d, bound, w)
  {
    if !MutedAt(t, c, w.now) {
      var t1 := AfterMuteCheck(t, c, w.now);
      var r := LocalOrRemote(t1, bound, c, text, w);
      assert Unmuted(t, bound, c, text, w) == r;
      MuteCheckIsLocal(t, c, w.now);
      LocalOrRemoteAccounts(t1, bound, c, text, w);
      Rebase(t, t1, r.1, c, r.0, bound, w);
    }
  }

  /** The answer to a screened text, accounted for: a command's state change stays in its own chat. */
  lemma ResponseAccounts(t: Tables, bound: nat, c: ChatKey, text: string, w: World, cfg: Config)
    requires ValidWorld(w)
    ensures var (d, t2) := Response(t, bound, c, text, w, cfg);
      Accounts(t, t2, c, d, bound, w)
  {
    CommandStepIsLocal(t, c, text, w.now, cfg);
    CommandStepShape(t, c, text, w.now, cfg);
    AfterCommandAccounts(t, bound, c, text, w, CommandStep(t, c, text, w.now, cfg));
  }

  /** `ResponseAccounts` for any command result that changes nothing outside its chat and no history. */
  lemma AfterCommandAccounts(t: Tables, bound: nat, c: ChatKey, text: string, w: World, command: (Option<string>, Tables))
    requires ValidWorld(w)
    requires command.1.history == t.history && OthersUnchanged(t, command.1, c)
    requires command.0.None? || command.0.value == [] ==> command.1 == t
    ensures var (d, t2) := AfterCommand(bound, c, text, w, command);
      Accounts(t, t2, c, d, bound, w)
  {
    var (reply, t1) := command;
    if reply.Some? && reply.value != [] {
      var d := Reply(CommandReply, text, reply.value);
      assert AfterCommand(bound, c, text, w, command) == (d, WithTurn(t1, c, text, reply.value, bound));
      CommandTurnAccounts(t, t1, bound, c, d);
    } else {
      assert AfterCommand(bound, c, text, w, command) == Unmuted(t, bound, c, text, w);
      UnmutedAccounts(t, bound, c, text, w);
    }
  }

  /**
   * A command with a non-empty reply is answered before the mute check: the
   * reply is recorded on the tables the command left.
   */
  lemma CommandAnswered(t: Tables, bound: nat, c: ChatKey, text: string, w: World, cfg: Config)
    requires ValidWorld(w)
    requires CommandStep(t, c, text, w.now, cfg).0.Some? && CommandStep(t, c, text, w.now, cfg).0.value != []
    ensures var (reply, t1) := CommandStep(t, c, text, w.now, cfg);
      Response(t, bound, c, text, w, cfg) == (Reply(CommandReply, text, reply.value), WithTurn(t1, c, text, reply.value, bound))
  {
  }

  /** A command's reply recorded on the tables the command left, accounted for against the tables before it. */
  lemma CommandTurnAccounts(t: Tables, t1: Tables, bound: nat, c: ChatKey, d: Decision)
    requires d.Reply? && d.kind == CommandReply
    requires t1.history == t.history && OthersUnchanged(t, t1, c)
    ensures var t2 := WithTurn(t1, c, d.userEntry, d.reply, bound);
      && Recorded(t, t2, c, d, bound) && OthersUnchanged(t, t2, c)
      && (Bounded(t, bound) ==> Bounded(t2, bound))
  {
    TurnAccounts(t1, bound, c, d);
  }

  /** Every screening result, accounted for. */
  lemma ActAccounts(t: Tables, bound: nat, m: Message, s: Screen, w: World, cfg: Config)
    requires ValidWorld(w)
    ensures var (d, t2) := Act(t, bound, m, s, w, cfg);
      Accounts(t, t2, m.chatId, d, bound, w)
  {
    match s
    case Drop(_) =>
    case PingBack(entry) =>
      var d := Reply(Ping, entry, MentionPingReply);
      assert Act(t, bound, m, s, w, cfg) == (d, WithTurn(t, m.chatId, entry, MentionPingReply, bound));
      TurnAccounts(t, bound, m.chatId, d);
    case Quick(entry) =>
      var d := Reply(QuickReply, entry, MentionPingReply);
      assert Act(t, bound, m, s, w, cfg) == (d, WithTurn(t, m.chatId, entry, MentionPingReply, bound));
      TurnAccounts(t, bound, m.chatId, d);
    case Pass(text) =>
      assert Act(t, bound, m, s, w, cfg) == Response(t, bound, m.chatId, text, w, cfg);
      ResponseAccounts(t, bound, m.chatId, text, w, cfg);
  }

  /**
   * `process_message` accounts for all it does (see `Accounts`), and an
   * update without a message changes nothing.
   */
  lemma StepAccounts(t: Tables, bound: nat, update: Option<Message>, w: World, cfg: Config)
    requires ValidWorld(w)
    ensures var (d, t2) := Step(t, bound, update, w, cfg);
      && (update.None? ==> d.Ignore? && t2 == t)
      && (update.Some? ==> Accounts(t, t2, update.value.chatId, d, bound, w))
  {
    if update.Some? && update.value.text.Some? && !update.value.sender.isBot {
      var m := update.value;
      var s := Screening(m, m.text.value, ModeOf(t, m.chatId), cfg);
      assert Step(t, bound, update, w, cfg) == Act(t, bound, m, s, w, cfg);
      ActAccounts(t, bound, m, s, w, cfg);
    }
  }
}
