/**
 * The four per-chat tables the bot keeps in memory (mute deadlines, moods,
 * auto-reply modes, conversation histories): first as a value with the
 * change each operation makes to it, then as the `ChatStore` object whose
 * methods make those changes in place.
 */
module ChatState {
  import opened Wrappers
  import opened Text
  import opened Settings
  import opened History
  import opened Commands
  import opened Completion

  /**
   * A chat id as an update carries it: None when the update names no chat.
   * The tables are dictionaries keyed by whatever id they are handed, so a
   * missing id is a key like any other.
   */
  type ChatKey = Option<int>

  /** A snapshot of the four tables, keyed by chat id; mute deadlines are in seconds. */
  datatype Tables = Tables(
    muteUntil: map<ChatKey, int>,
    moods: map<ChatKey, string>,
    modes: map<ChatKey, Mode>,
    history: map<ChatKey, seq<Entry>>)

  /** `get_chat_mood`: the stored mood, or the default mood. */
  function MoodOf(t: Tables, c: ChatKey): string {
    if c in t.moods then t.moods[c] else DefaultMood
  }

  /** `get_auto_reply_mode`: the stored mode, or "all". */
  function ModeOf(t: Tables, c: ChatKey): Mode {
    if c in t.modes then t.modes[c] else All
  }

  /** The stored history of a chat, or the empty one. */
  function HistoryOf(t: Tables, c: ChatKey): seq<Entry> {
    if c in t.history then t.history[c] else []
  }

  /** Every stored history respects the bound and holds no empty content. */
  predicate Bounded(t: Tables, bound: nat) {
    forall c :: c in t.history ==> WellFormed(t.history[c], bound)
  }

  /** A chat is muted at `now` when it has a non-zero deadline that lies after `now`. */
  predicate MutedAt(t: Tables, c: ChatKey, now: int) {
    c in t.muteUntil && t.muteUntil[c] != 0 && now < t.muteUntil[c]
  }

  /** The tables after `is_chat_muted`: a deadline that has passed is removed. */
  function AfterMuteCheck(t: Tables, c: ChatKey, now: int): Tables {
    if c in t.muteUntil && t.muteUntil[c] != 0 && now >= t.muteUntil[c]
    then t.(muteUntil := t.muteUntil - {c})
    else t
  }

  /** The tables after `set_chat_mute`: the deadline becomes `now` plus the minutes. */
  function WithMute(t: Tables, c: ChatKey, minutes: int, now: int): Tables {
    t.(muteUntil := t.muteUntil[c := now + minutes * 60])
  }

  function WithMood(t: Tables, c: ChatKey, mood: string): Tables {
    t.(moods := t.moods[c := mood])
  }

  function WithMode(t: Tables, c: ChatKey, mode: Mode): Tables {
    t.(modes := t.modes[c := mode])
  }

  /** The tables after `append_chat_history_entry`: no new key when nothing is appended. */
  function WithEntry(t: Tables, c: ChatKey, e: Entry, bound: nat): Tables {
    if bound == 0 || e.content == [] then t
    else t.(history := t.history[c := Appended(HistoryOf(t, c), e, bound)])
  }

  /** The tables after `record_conversation_turn`. */
  function WithTurn(t: Tables, c: ChatKey, userText: string, botText: string, bound: nat): Tables {
    if bound == 0 then t
    else WithEntry(WithEntry(t, c, Entry(User, userText), bound), c, Entry(Assistant, botText), bound)
  }

  /** The state change a command asked for, carried out on the chat's tables. */
  function ApplyEffect(t: Tables, c: ChatKey, effect: Effect, now: int): Tables {
    match effect
    case NoEffect => t
    case SetMute(minutes) => WithMute(t, c, minutes, now)
    case SetMood(key) => WithMood(t, c, key)
    case SetMode(mode) => WithMode(t, c, mode)
  }

  /** The reply of a command outcome, with its state change carried out on the chat's tables. */
  function OutcomeStep(t: Tables, c: ChatKey, out: Outcome, now: int): (Option<string>, Tables) {
    match out
    case NotHandled => (None, t)
    case Handled(reply, effect) => (Some(reply), ApplyEffect(t, c, effect, now))
  }

  /**
   * `handle_command(text, chat_id)` on the tables: None and no change for a
   * text that is not a recognised command, otherwise the reply and the change.
   */
  function CommandStep(t: Tables, c: ChatKey, text: string, now: int, cfg: Config): (Option<string>, Tables) {
    OutcomeStep(t, c, CommandOutcome(t, c, text, now, cfg), now)
  }

  /** What `handle_command` decides for the chat's current mood and mode; the uptime is `now` less the start time. */
  function CommandOutcome(t: Tables, c: ChatKey, text: string, now: int, cfg: Config): Outcome {
    Evaluate(text, MoodOf(t, c), ModeOf(t, c), now - cfg.startTime, cfg)
  }

  /** One parsed command run against the chat's tables; the uptime is `now` less the start time. */
  function RunStep(t: Tables, c: ChatKey, inv: Invocation, now: int, cfg: Config): (Option<string>, Tables) {
    OutcomeStep(t, c, Run(inv, MoodOf(t, c), ModeOf(t, c), now - cfg.startTime, cfg), now)
  }

  /** A new mute replaces the old deadline outright: the last mute alone decides. */
  lemma MuteOverwrites(t: Tables, c: ChatKey, m1: int, now1: int, m2: int, now2: int)
    ensures WithMute(WithMute(t, c, m1, now1), c, m2, now2) == WithMute(t, c, m2, now2)
  {
    assert t.muteUntil[c := now1 + m1 * 60][c := now2 + m2 * 60] == t.muteUntil[c := now2 + m2 * 60];
  }

  /**
   * After muting for a positive number of minutes at `now`, the chat is muted
   * exactly at the times before `now + 60 * minutes`; other chats are unaffected.
   */
  lemma MuteWindow(t: Tables, c: ChatKey, minutes: int, now: nat, later: int)
    requires minutes > 0
    ensures MutedAt(WithMute(t, c, minutes, now), c, later) <==> later < now + 60 * minutes
    ensures forall d :: d != c ==> (MutedAt(WithMute(t, c, minutes, now), d, later) <==> MutedAt(t, d, later))
  {
  }

  /**
   * Checking the mute at `now` never changes the answer for any chat at that
   * time, removes only the checked chat's deadline and only once it has passed,
   * and leaves moods, modes and histories alone.
   */
  lemma MuteCheckRemovesOnlyExpired(t: Tables, c: ChatKey, now: int)
    ensures var t1 := AfterMuteCheck(t, c, now);
      && (forall d :: MutedAt(t1, d, now) <==> MutedAt(t, d, now))
      && (forall d :: d != c ==> (d in t1.muteUntil <==> d in t.muteUntil))
      && (forall d :: d in t1.muteUntil ==> d in t.muteUntil && t1.muteUntil[d] == t.muteUntil[d])
      && (c in t.muteUntil && t.muteUntil[c] != 0 && now >= t.muteUntil[c] ==> c !in t1.muteUntil)
      && t1.moods == t.moods && t1.modes == t.modes && t1.history == t.history
  {
  }

  /** A stored mood is read back for its chat, no other chat's mood changes, and setting it again changes nothing. */
  lemma MoodSetThenGet(t: Tables, c: ChatKey, mood: string)
    ensures MoodOf(WithMood(t, c, mood), c) == mood
    ensures forall d :: d != c ==> MoodOf(WithMood(t, c, mood), d) == MoodOf(t, d)
    ensures WithMood(WithMood(t, c, mood), c, mood) == WithMood(t, c, mood)
  {
    assert t.moods[c := mood][c := mood] == t.moods[c := mood];
  }

  /** A stored mode is read back for its chat, no other chat's mode changes, and setting it again changes nothing. */
  lemma ModeSetThenGet(t: Tables, c: ChatKey, mode: Mode)
    ensures ModeOf(WithMode(t, c, mode), c) == mode
    ensures forall d :: d != c ==> ModeOf(WithMode(t, c, mode), d) == ModeOf(t, d)
    ensures WithMode(WithMode(t, c, mode), c, mode) == WithMode(t, c, mode)
  {
    assert t.modes[c := mode][c := mode] == t.modes[c := mode];
  }

  /** Appending keeps every history bounded. */
  lemma WithEntryKeepsBounded(t: Tables, c: ChatKey, e: Entry, bound: nat)
    requires Bounded(t, bound)
    ensures Bounded(WithEntry(t, c, e, bound), bound)
  {
    if bound > 0 && e.content != [] {
      AppendedWellFormed(HistoryOf(t, c), e, bound);
      BoundedUpdate(t, c, Appended(HistoryOf(t, c), e, bound), bound);
    }
  }

  /** Storing a well-formed history keeps the tables bounded. */
  lemma BoundedUpdate(t: Tables, c: ChatKey, h: seq<Entry>, bound: nat)
    requires Bounded(t, bound) && WellFormed(h, bound)
    ensures Bounded(t.(history := t.history[c := h]), bound)
  {
    var t1 := t.(history := t.history[c := h]);
    forall d | d in t1.history
      ensures WellFormed(t1.history[d], bound)
    {
      if d != c {
        assert t1.history[d] == t.history[d];
      }
    }
  }

  /** Appending changes the chat's own history as `Appended` says. */
  lemma WithEntryOwnHistory(t: Tables, c: ChatKey, e: Entry, bound: nat)
    ensures HistoryOf(WithEntry(t, c, e, bound), c) == Appended(HistoryOf(t, c), e, bound)
  {
  }

  /** Appending touches no other chat's history. */
  lemma WithEntryOtherHistories(t: Tables, c: ChatKey, e: Entry, bound: nat)
    ensures forall d :: d != c ==> HistoryOf(WithEntry(t, c, e, bound), d) == HistoryOf(t, d)
  {
  }

  /** Appending leaves the mute deadlines, the moods and the modes alone. */
  lemma WithEntryFields(t: Tables, c: ChatKey, e: Entry, bound: nat)
    ensures var t1 := WithEntry(t, c, e, bound);
      t1.muteUntil == t.muteUntil && t1.moods == t.moods && t1.modes == t.modes
  {
  }

  /** A whole turn keeps every history bounded. */
  lemma WithTurnKeepsBounded(t: Tables, c: ChatKey, userText: string, botText: string, bound: nat)
    requires Bounded(t, bound)
    ensures Bounded(WithTurn(t, c, userText, botText, bound), bound)
  {
    if bound > 0 {
      var t1 := WithEntry(t, c, Entry(User, userText), bound);
      WithEntryKeepsBounded(t, c, Entry(User, userText), bound);
      WithEntryKeepsBounded(t1, c, Entry(Assistant, botText), bound);
      assert WithTurn(t, c, userText, botText, bound) == WithEntry(t1, c, Entry(Assistant, botText), bound);
    }
  }

  /** The chat's history after a turn is the value-level turn of its old history. */
  lemma WithTurnHistory(t: Tables, c: ChatKey, userText: string, botText: string, bound: nat)
    ensures HistoryOf(WithTurn(t, c, userText, botText, bound), c) == Turn(HistoryOf(t, c), userText, botText, bound)
  {
    if bound > 0 {
      WithEntryOwnHistory(t, c, Entry(User, userText), bound);
      WithEntryOwnHistory(WithEntry(t, c, Entry(User, userText), bound), c, Entry(Assistant, botText), bound);
    }
  }

  /** A turn touches no other chat's history. */
  lemma WithTurnOtherHistories(t: Tables, c: ChatKey, userText: string, botText: string, bound: nat)
    ensures forall d :: d != c ==> HistoryOf(WithTurn(t, c, userText, botText, bound), d) == HistoryOf(t, d)
  {
    if bound > 0 {
      WithEntryOtherHistories(t, c, Entry(User, userText), bound);
      WithEntryOtherHistories(WithEntry(t, c, Entry(User, userText), bound), c, Entry(Assistant, botText), bound);
    }
  }

  /** A turn leaves the mute deadlines, the moods and the modes alone. */
  lemma WithTurnFields(t: Tables, c: ChatKey, userText: string, botText: string, bound: nat)
    ensures var t2 := WithTurn(t, c, userText, botText, bound);
      t2.muteUntil == t.muteUntil && t2.moods == t.moods && t2.modes == t.modes
  {
    if bound > 0 {
      WithEntryFields(t, c, Entry(User, userText), bound);
      WithEntryFields(WithEntry(t, c, Entry(User, userText), bound), c, Entry(Assistant, botText), bound);
    }
  }

  /** No other chat's mood, mode, history or mute deadline changes. */
  ghost predicate OthersUnchanged(t: Tables, t2: Tables, c: ChatKey) {
    forall e :: e != c ==>
      && MoodOf(t2, e) == MoodOf(t, e) && ModeOf(t2, e) == ModeOf(t, e) && HistoryOf(t2, e) == HistoryOf(t, e)
      && (e in t2.muteUntil <==> e in t.muteUntil)
      && (e in t.muteUntil ==> t2.muteUntil[e] == t.muteUntil[e])
  }

  /** The three answers of `/mood` on the tables: status, rejection, or the new mood stored. */
  lemma MoodOutcomeStep(t: Tables, c: ChatKey, args: seq<string>, now: int)
    ensures var step := OutcomeStep(t, c, MoodOutcome(args, MoodOf(t, c)), now);
      && (args == [] ==> step == (Some(MoodStatusReply(MoodOf(t, c))), t))
      && (args != [] && NormalizeMoodKey(args) !in MoodTones ==> step == (Some(MoodInvalidReply), t))
      && (args != [] && NormalizeMoodKey(args) in MoodTones ==>
            step == (Some(MoodConfirmation(NormalizeMoodKey(args))), WithMood(t, c, NormalizeMoodKey(args))))
  {
  }

  /** The mute check changes no history, no mood, and nothing outside its own chat. */
  lemma MuteCheckIsLocal(t: Tables, c: ChatKey, now: int)
    ensures var t1 := AfterMuteCheck(t, c, now);
      t1.history == t.history && MoodOf(t1, c) == MoodOf(t, c) && OthersUnchanged(t, t1, c)
  {
    MuteCheckRemovesOnlyExpired(t, c, now);
  }

  /** A state change touches only its own chat, and never a history. */
  lemma ApplyEffectIsLocal(t: Tables, c: ChatKey, effect: Effect, now: int)
    ensures var t1 := ApplyEffect(t, c, effect, now);
      t1.history == t.history && OthersUnchanged(t, t1, c)
  {
  }

  /** A command changes only the chat it was sent in, and never a history. */
  lemma CommandStepIsLocal(t: Tables, c: ChatKey, text: string, now: int, cfg: Config)
    ensures var t1 := CommandStep(t, c, text, now, cfg).1;
      t1.history == t.history && OthersUnchanged(t, t1, c)
  {
    OutcomeStepIsLocal(t, c, CommandOutcome(t, c, text, now, cfg), now);
  }

  /** `CommandStepIsLocal` for an evaluated command. */
  lemma OutcomeStepIsLocal(t: Tables, c: ChatKey, out: Outcome, now: int)
    ensures var t1 := OutcomeStep(t, c, out, now).1;
      t1.history == t.history && OthersUnchanged(t, t1, c)
  {
    if out.Handled? {
      ApplyEffectIsLocal(t, c, out.effect, now);
    }
  }

  /**
   * A text that is not a command leaves the tables as they were, and under a
   * well-formed configuration every command that is answered gets a visible reply.
   */
  lemma CommandStepShape(t: Tables, c: ChatKey, text: string, now: int, cfg: Config)
    ensures var (reply, t1) := CommandStep(t, c, text, now, cfg);
      reply.None? || reply.value == [] ==> t1 == t
    ensures WellConfigured(cfg) && CommandStep(t, c, text, now, cfg).0.Some? ==> CommandStep(t, c, text, now, cfg).0.value != []
  {
    CommandStepParsed(t, c, text, now, cfg);
    if ParseInvocation(text).Some? {
      RunStepShape(t, c, ParseInvocation(text).value, now, cfg);
    }
  }

  /** `CommandStepShape` for a parsed command: an empty reply comes only from a command that changes nothing. */
  lemma RunStepShape(t: Tables, c: ChatKey, inv: Invocation, now: int, cfg: Config)
    ensures var (reply, t1) := RunStep(t, c, inv, now, cfg);
      reply.None? || reply.value == [] ==> t1 == t
    ensures WellConfigured(cfg) && RunStep(t, c, inv, now, cfg).0.Some? ==> RunStep(t, c, inv, now, cfg).0.value != []
  {
    var mood, mode, uptime := MoodOf(t, c), ModeOf(t, c), now - cfg.startTime;
    var out := Run(inv, mood, mode, uptime, cfg);
    assert RunStep(t, c, inv, now, cfg) == OutcomeStep(t, c, out, now);
    RunEffects(inv, mood, mode, uptime, cfg);
    if out.Handled? && out.reply == [] {
      assert out.effect.NoEffect?;
    }
    if WellConfigured(cfg) {
      RunRepliesVisible(inv, mood, mode, uptime, cfg);
    }
  }

  /** The state change of a command depends on its text alone, not on the chat's mood or mode. */
  lemma RunEffectIgnoresState(inv: Invocation, mood1: string, mode1: Mode, mood2: string, mode2: Mode, uptime: int, cfg: Config)
    ensures Run(inv, mood1, mode1, uptime, cfg).NotHandled? == Run(inv, mood2, mode2, uptime, cfg).NotHandled?
    ensures Run(inv, mood1, mode1, uptime, cfg).Handled? ==>
      Run(inv, mood1, mode1, uptime, cfg).effect == Run(inv, mood2, mode2, uptime, cfg).effect
  {
  }

  /** Carrying out the same state change twice at the same moment is carrying it out once. */
  lemma EffectIdempotent(t: Tables, c: ChatKey, effect: Effect, now: int)
    ensures ApplyEffect(ApplyEffect(t, c, effect, now), c, effect, now) == ApplyEffect(t, c, effect, now)
  {
    match effect
    case NoEffect =>
    case SetMute(minutes) => MuteOverwrites(t, c, minutes, now, minutes, now);
    case SetMood(key) => MoodSetThenGet(t, c, key);
    case SetMode(mode) => ModeSetThenGet(t, c, mode);
  }

  /** `handle_command` parses its text and runs the command found; a text without a command changes nothing. */
  lemma CommandStepParsed(t: Tables, c: ChatKey, text: string, now: int, cfg: Config)
    ensures ParseInvocation(text).None? ==> CommandStep(t, c, text, now, cfg) == (None, t)
    ensures ParseInvocation(text).Some? ==>
      CommandStep(t, c, text, now, cfg) == RunStep(t, c, ParseInvocation(text).value, now, cfg)
  {
  }

  /** Running the same parsed command twice at the same moment leaves the tables as running it once. */
  lemma RunStepIdempotent(t: Tables, c: ChatKey, inv: Invocation, now: int, cfg: Config)
    ensures var t1 := RunStep(t, c, inv, now, cfg).1;
      RunStep(t1, c, inv, now, cfg).1 == t1
  {
    var t1 := RunStep(t, c, inv, now, cfg).1;
    var uptime := now - cfg.startTime;
    var out := Run(inv, MoodOf(t, c), ModeOf(t, c), uptime, cfg);
    RunEffectIgnoresState(inv, MoodOf(t, c), ModeOf(t, c), MoodOf(t1, c), ModeOf(t1, c), uptime, cfg);
    if out.Handled? {
      EffectIdempotent(t, c, out.effect, now);
    }
  }

  /**
   * Sending the same command twice at the same moment leaves the same tables
   * as sending it once: a repeated `/mood`, `/autoreply` or `/mute` changes nothing.
   */
  lemma CommandIdempotent(t: Tables, c: ChatKey, text: string, now: int, cfg: Config)
    ensures var t1 := CommandStep(t, c, text, now, cfg).1;
      CommandStep(t1, c, text, now, cfg).1 == t1
  {
    var t1 := CommandStep(t, c, text, now, cfg).1;
    CommandStepParsed(t, c, text, now, cfg);
    CommandStepParsed(t1, c, text, now, cfg);
    if ParseInvocation(text).Some? {
      RunStepIdempotent(t, c, ParseInvocation(text).value, now, cfg);
    }
  }

  /**
   * The tables as the bot holds them: four maps updated in place, with the
   * history bound fixed at start-up.
   */
  class ChatStore {
    var muteUntil: map<ChatKey, int>
    var moods: map<ChatKey, string>
    var modes: map<ChatKey, Mode>
    var history: map<ChatKey, seq<Entry>>
    const H: nat

    function Snapshot(): Tables
      reads this
    {
      Tables(muteUntil, moods, modes, history)
    }

    ghost predicate Valid()
      reads this
    {
      Bounded(Snapshot(), H)
    }

    /** Empty tables and the history bound read from the configuration. */
    constructor(historyLength: nat)
      ensures H == historyLength
      ensures Snapshot() == Tables(map[], map[], map[], map[])
      ensures Valid()
    {
      muteUntil, moods, modes, history := map[], map[], map[], map[];
      H := historyLength;
    }

    /** `get_chat_mood(chat_id)` */
    function GetChatMood(chatId: ChatKey): (mood: string)
      reads this
      ensures mood == MoodOf(Snapshot(), chatId)
    {
      if chatId in moods then moods[chatId] else DefaultMood
    }

    /** `set_chat_mood(chat_id, mood)` */
    method SetChatMood(chatId: ChatKey, mood: string)
      requires Valid()
      modifies this
      ensures Valid()
      ensures Snapshot() == WithMood(old(Snapshot()), chatId, mood)
      ensures GetChatMood(chatId) == mood
    {
      moods := moods[chatId := mood];
    }

    /** `get_auto_reply_mode(chat_id)` */
    function GetAutoReplyMode(chatId: ChatKey): (mode: Mode)
      reads this
      ensures mode == ModeOf(Snapshot(), chatId)
    {
      if chatId in modes then modes[chatId] else All
    }

    /** `set_auto_reply_mode(chat_id, mode)` */
    method SetAutoReplyMode(chatId: ChatKey, mode: Mode)
      requires Valid()
      modifies this
      ensures Valid()
      ensures Snapshot() == WithMode(old(Snapshot()), chatId, mode)
      ensures GetAutoReplyMode(chatId) == mode
    {
      modes := modes[chatId := mode];
    }

    /** `build_system_prompt(chat_id)`: the prompt for the chat's current mood. */
    function BuildSystemPrompt(chatId: ChatKey): (prompt: string)
      reads this
      ensures prompt == SystemPromptFor(MoodOf(Snapshot(), chatId))
      ensures StartsWith(prompt, SystemPrompt)
    {
      SystemPromptFor(GetChatMood(chatId))
    }

    /**
     * `append_chat_history_entry`: nothing happens when the bound is 0 or the
     * content is empty; otherwise the entry is appended and the oldest entries
     * beyond the bound are deleted.
     */
    method AppendChatHistoryEntry(chatId: ChatKey, role: Role, content: string)
      requires Valid()
      modifies this
      ensures Valid()
      ensures Snapshot() == WithEntry(old(Snapshot()), chatId, Entry(role, content), H)
    {
      if H == 0 || content == [] {
        return;
      }
      ghost var t0 := Snapshot();
      var e := Entry(role, content);
      var h := if chatId in history then history[chatId] else [];
      assert h == HistoryOf(t0, chatId);
      h := h + [e];
      if |h| > H {
        h := h[|h| - H..];
      }
      assert h == Appended(HistoryOf(t0, chatId), e, H);
      WithEntryKeepsBounded(t0, chatId, e, H);
      history := history[chatId := h];
      assert Snapshot() == WithEntry(t0, chatId, e, H);
    }

    /** `record_conversation_turn`: the user's side, then the bot's, each skipped when empty. */
    method RecordConversationTurn(chatId: ChatKey, userText: string, botText: string)
      requires Valid()
      modifies this
      ensures Valid()
      ensures Snapshot() == WithTurn(old(Snapshot()), chatId, userText, botText, H)
    {
      if H == 0 {
        return;
      }
      if userText != [] {
        AppendChatHistoryEntry(chatId, User, userText);
      }
      if botText != [] {
        AppendChatHistoryEntry(chatId, Assistant, botText);
      }
    }

    /** `get_chat_history_messages`: the newest `H` entries, none when `H` is 0. */
    function GetChatHistoryMessages(chatId: ChatKey): (r: seq<Entry>)
      reads this
      ensures r == Recent(HistoryOf(Snapshot(), chatId), H)
    {
      if H == 0 then []
      else
        var h := if chatId in history then history[chatId] else [];
        if |h| <= H then h else h[|h| - H..]
    }

    /**
     * `is_chat_muted(chat_id)` at time `now`: true exactly while a non-zero
     * deadline lies ahead; a deadline that has passed is removed.
     */
    method IsChatMuted(chatId: ChatKey, now: int) returns (muted: bool)
      requires Valid()
      modifies this
      ensures Valid()
      ensures muted <==> MutedAt(old(Snapshot()), chatId, now)
      ensures Snapshot() == AfterMuteCheck(old(Snapshot()), chatId, now)
    {
      if chatId !in muteUntil || muteUntil[chatId] == 0 {
        return false;
      }
      if now >= muteUntil[chatId] {
        muteUntil := muteUntil - {chatId};
        return false;
      }
      return true;
    }

    /** `set_chat_mute(chat_id, minutes)` at time `now`: the deadline is overwritten. */
    method SetChatMute(chatId: ChatKey, minutes: int, now: int)
      requires Valid()
      modifies this
      ensures Valid()
      ensures Snapshot() == WithMute(old(Snapshot()), chatId, minutes, now)
    {
      muteUntil := muteUntil[chatId := now + minutes * 60];
    }

    /**
     * `handle_command(text, chat_id)` at time `now`: the reply of a recognised
     * command, with the state change it asks for carried out; None and no
     * change otherwise.
     */
    method HandleCommand(text: string, chatId: ChatKey, now: int, cfg: Config) returns (reply: Option<string>)
      requires Valid()
      modifies this
      ensures Valid()
      ensures (reply, Snapshot()) == CommandStep(old(Snapshot()), chatId, text, now, cfg)
    {
      var stripped := Strip(text);
      if !StartsWith(stripped, "/") {
        return None;
      }
      var parts := Words(stripped);
      if parts == [] {
        return None;
      }
      var inv := Invocation(CommandName(parts[0]), parts[1..]);
      assert ParseInvocation(text) == Some(inv);
      CommandStepParsed(Snapshot(), chatId, text, now, cfg);
      reply := RunCommand(inv, chatId, now, cfg);
    }

    /** The branch of `handle_command` that runs once the command token is known. */
    method RunCommand(inv: Invocation, chatId: ChatKey, now: int, cfg: Config) returns (reply: Option<string>)
      requires Valid()
      modifies this
      ensures Valid()
      ensures (reply, Snapshot()) == RunStep(old(Snapshot()), chatId, inv, now, cfg)
    {
      var command, args := inv.name, inv.args;
      ghost var t0 := Snapshot();
      ghost var out := Run(inv, MoodOf(t0, chatId), ModeOf(t0, chatId), now - cfg.startTime, cfg);
      assert RunStep(t0, chatId, inv, now, cfg) == OutcomeStep(t0, chatId, out, now);
      if command == "/alive" {
        assert out == Handled(AliveReply(now - cfg.startTime, cfg.apiKeyConfigured), NoEffect);
        return Some(AliveReply(now - cfg.startTime, cfg.apiKeyConfigured));
      }
      if command == "/help" || command == "/start" {
        assert out == Handled(Strip(cfg.helpText), NoEffect);
        return Some(Strip(cfg.helpText));
      }
      if command == "/mute" {
        assert out == MuteOutcome(args);
        reply := MuteCommand(args, chatId, now);
        return;
      }
      if command == "/mood" {
        assert out == MoodOutcome(args, MoodOf(t0, chatId));
        reply := MoodCommand(args, chatId, now);
        return;
      }
      if command == "/autoreply" {
        assert out == AutoReplyOutcome(args, ModeOf(t0, chatId));
        reply := AutoReplyCommand(args, chatId, now);
        return;
      }
      return None;
    }

    /** `/mute [minutes]`: 10 minutes by default; a non-integer or non-positive count is refused. */
    method MuteCommand(args: seq<string>, chatId: ChatKey, now: int) returns (reply: Option<string>)
      requires Valid()
      modifies this
      ensures Valid()
      ensures (reply, Snapshot()) == OutcomeStep(old(Snapshot()), chatId, MuteOutcome(args), now)
    {
      var minutes := 10;
      if |args| > 0 {
        var parsed := PyInt(args[0]);
        if parsed.None? {
          return Some(MuteInvalidReply);
        }
        minutes := parsed.value;
      }
      if minutes <= 0 {
        return Some(MuteNotPositiveReply);
      }
      SetChatMute(chatId, minutes, now);
      return Some(MuteConfirmation(minutes));
    }

    /** `/mood [words]`: report the mood, or store the named one if it is known. */
    method MoodCommand(args: seq<string>, chatId: ChatKey, now: int) returns (reply: Option<string>)
      requires Valid()
      modifies this
      ensures Valid()
      ensures (reply, Snapshot()) == OutcomeStep(old(Snapshot()), chatId, MoodOutcome(args, MoodOf(old(Snapshot()), chatId)), now)
    {
      MoodOutcomeStep(Snapshot(), chatId, args, now);
      if |args| == 0 {
        return Some(MoodStatusReply(GetChatMood(chatId)));
      }
      var key := NormalizeMoodKey(args);
      if key !in MoodTones {
        return Some(MoodInvalidReply);
      }
      SetChatMood(chatId, key);
      return Some(MoodConfirmation(key));
    }

    /** `/autoreply [all|mention]`: report the mode, or store the named one if it is valid. */
    method AutoReplyCommand(args: seq<string>, chatId: ChatKey, now: int) returns (reply: Option<string>)
      requires Valid()
      modifies this
      ensures Valid()
      ensures (reply, Snapshot()) == OutcomeStep(old(Snapshot()), chatId, AutoReplyOutcome(args, ModeOf(old(Snapshot()), chatId)), now)
    {
      if |args| == 0 {
        return Some(AutoReplyStatus(GetAutoReplyMode(chatId)));
      }
      var mode := ModeNamed(args[0]);
      if mode.None? {
        return Some(AutoReplyInvalidReply);
      }
      SetAutoReplyMode(chatId, mode.value);
      return Some(AutoReplyConfirmation(mode.value));
    }
  }
}
