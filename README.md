# TelegramBotFunChat message dispatch, modelled in Dafny

This project models the core of a Telegram group chat bot
(`telegram_bot.py`). For each incoming update, `process_message` decides on
at most one reply, in a fixed order:

- ignore the update;
- answer a bare mention of the bot with a ping;
- run a slash command;
- stay silent because the chat is muted;
- answer a time or date question locally;
- ask a remote chat model;
- or, when the model gives nothing, pick a canned fallback message.

Each reply is escaped for Telegram Markdown and sent under a link to the
sender. The turn is then recorded in a bounded per-chat history. The bot
keeps four per-chat tables in memory: mute deadlines, moods, auto-reply
modes and histories.

Modules, one per file:

- `wrappers.dfy`: `Option`.
- `text.dfy`: the Python string operations the bot relies on: `strip`, `split`, `lower`, `replace`, `in`, and `int()` / `str()` on integers.
- `settings.dfy`: the constants and the start-up configuration: help text, bot username, history length and bot user id.
- `markdown.dfy`: `escape_markdown`, a loop method proved against a reference definition.
- `mention.dfy`: `extract_text_without_mention`.
- `intent.dfy`: `get_local_intent_reply`.
- `history.dfy`: the bounded history as a value.
- `completion.dfy`: `build_system_prompt` and the message list and answer reduction of `get_groq_response`.
- `commands.dfy`: parsing and evaluating `handle_command` as pure functions.
- `chatstate.dfy`: the four tables as a `Tables` value with the change each operation makes, and the `ChatStore` class that makes those changes in place.
- `dispatch.dfy`: `process_message`. There is a pure specification `Step` with its properties, and the `ProcessMessage` method over a `ChatStore` proved to follow it.

What the handler reads from outside is passed in as a `World`:

- the time in whole seconds;
- a calendar reading;
- the raw content the remote model answered, or None when the call failed;
- the index the random fallback pick lands on.

The reply is returned as an `Outgoing` value instead of being posted. Chat
ids are `Option<int>`, because an update may carry none and the tables are
keyed by whatever id they are handed.

## Model

| member | source | states |
|---|---|---|
| Markdown.EscapeMarkdown | telegram_bot.py:97-105 | the loop of replace passes yields exactly the reference escaping: one backslash before each of the eight special characters (backslash, `*`, `_`, `[`, `]`, `(`, `)` and the backquote) and every other character kept; empty text is returned as is |
| Markdown.ReplaceRound | telegram_bot.py:103-104 | one `replace(char, "\\" + char)` pass over text already escaped for the earlier characters escapes `char` too, without touching the backslashes already inserted, because the backslash is handled first |
| Markdown.UnescapeEscaped | telegram_bot.py:97-105 | removing the inserted backslashes gives back the original text, so no character is escaped twice |
| Markdown.EscapedPlain | telegram_bot.py:99-105 | text with no special character, including the empty text, is returned unchanged |
| Settings.StartupConfig | telegram_bot.py:23-38 | the configuration read at start-up has the bot username `(BOT_USERNAME or '').lstrip('@')`, the help text built from it, the bot user id read from the token, the given start time, and an API key flag that is set exactly when a non-empty key is given |
| Settings.LStripAt | telegram_bot.py:25 | `lstrip('@')` drops exactly the leading run of `@`: the result is a suffix of the value, every dropped character is `@`, and the result does not start with `@` |
| Settings.MoodKeysAreTones | telegram_bot.py:61-67 | the mood keys, in the order `MOOD_OPTIONS_TEXT` lists them, are exactly the keys of `MOOD_TONES`, each listed once, and the default mood is one of them |
| Settings.HistoryLengthOfNumeral | telegram_bot.py:28-31 | a decimal numeral n gives a history length of max(0, n) |
| Settings.HistoryLengthDefault | telegram_bot.py:28-31 | an unset or unparsable history length gives 0 |
| Settings.BotUserIdOfToken | telegram_bot.py:34-38 | a token `<id>:<secret>` yields the bot user id `<id>` |
| Settings.HelpTextStripped | telegram_bot.py:77-86 | the help text, once stripped as `/help` sends it, is the command summary, with the mention line only when a username is configured, and is not empty |
| Settings.HelpReplyEnds | telegram_bot.py:77-86 | the stripped help text starts with its title and ends with a full stop |
| Mention.ExtractTextWithoutMention | telegram_bot.py:250-253 | with no bot username, or with empty text, the result is the stripped text and no mention; the case with a username is stated by the lemmas below |
| Mention.NoMentionOnlyStrips | telegram_bot.py:250-255 | a text in which `@username` does not occur is only stripped, and no mention is reported |
| Mention.FirstMentionReplaced | telegram_bot.py:254-255 | the leftmost mention becomes one space: the text before it is kept as it is, the text after it is cleaned in turn, the ends are stripped, and a mention is reported |
| Mention.MentionsRemoved | telegram_bot.py:250-255 | with a username that holds no space, no `@username` is left in the cleaned text, in any letter case |
| Mention.SubMentionsNone | telegram_bot.py:254 | `subn` on a text without an occurrence returns the text unchanged and a count of 0 |
| Mention.SubMentionsFirst | telegram_bot.py:254 | `subn` copies the text up to the leftmost occurrence, replaces that occurrence by one space, goes on after it, and counts one more |
| Mention.SubMentionsLength | telegram_bot.py:254 | each replacement shortens the text by the pattern's length less one: length of result + count × (pattern length − 1) = length of text |
| Mention.SubMentionsLeavesNone | telegram_bot.py:254 | for a pattern without a space, the result of `subn` contains no occurrence |
| Mention.MentionFlagIff | telegram_bot.py:250-255 | the mention flag is set if and only if a username is configured and `@username` occurs in the text, ignoring case |
| Mention.SubMentionsCountIff | telegram_bot.py:254 | the replacement count of `subn` is positive exactly when the pattern occurs somewhere in the text |
| Mention.MentionIsVisible | telegram_bot.py:250-255 | a text in which a mention was found is not blank once stripped |
| Mention.InteriorWhitespaceKept | telegram_bot.py:254-255 | each mention becomes one space and only the ends are stripped: `"a @Bot c"` with username `bot` gives `("a   c", true)` |
| Mention.ScanExample | telegram_bot.py:254 | a case-insensitive `subn` on a concrete text: one replacement, the mention replaced by a space |
| Intent.LocalIntentReply | telegram_bot.py:218-247 | None for empty text; an answer exactly when the lower-cased text contains a time or a day keyword; a time keyword wins and gives the time answer, otherwise the day answer; an answer is never empty |
| Intent.Pad2 | telegram_bot.py:233 | a field below 100 prints as two digits that read back as the field |
| Intent.DateTextReadsBack | telegram_bot.py:233 | the `%d/%m/%Y` date has slashes at positions 2 and 5, and its three digit groups read back as the day, the month and the year |
| Intent.TimeAnswerReadsBack | telegram_bot.py:233 | the `%H:%M` part of the time answer sits after the fixed prefix, and its two digit pairs read back as the hour and the minute |
| Intent.DayAnswerNamesWeekday | telegram_bot.py:243-245 | the day answer names `VI_DAY_NAMES[weekday]` right after its prefix |
| History.Keep | telegram_bot.py:198-199 | the list cut to at most n entries is the last min(len, n) entries, in order |
| History.AppendedFifo | telegram_bot.py:193-199 | appending a non-empty entry with a positive bound makes it the last entry, keeps the bound, and the entries before it are the newest `bound - 1` old ones (FIFO eviction) |
| History.AppendedWellFormed | telegram_bot.py:193-199 | appending never breaks the bound or lets an empty entry in, whatever the entry |
| History.TurnOrder | telegram_bot.py:202-208 | a turn keeps the bound; with both sides present and room for two, the user entry comes second to last and the assistant entry last; an empty side is skipped |
| History.TurnEnds | telegram_bot.py:205-208 | with both sides present and room for two, the turn ends with the user entry and then the assistant entry |
| History.Recent | telegram_bot.py:211-215 | the messages handed out are empty when the bound is 0, and otherwise a suffix of the history of at most `bound` entries, which is the whole history when it fits |
| Completion.SystemPromptFor | telegram_bot.py:176-180 | the prompt starts with the base persona and ends with the tone of the chat's mood |
| Completion.UnknownMoodUsesDefault | telegram_bot.py:179 | a mood key without a tone gets the default mood's prompt |
| Completion.PromptTellsMoodsApart | telegram_bot.py:176-180 | different known moods give different prompts |
| Completion.Request | telegram_bot.py:125-130 | the message list is the system prompt, then the history in order, then the user's text |
| Completion.CompletionText | telegram_bot.py:141-148 | the answer is None exactly when the call failed or the content is blank; otherwise it is the stripped content and not empty |
| Commands.ParseInvocation | telegram_bot.py:276-284 | a text is read as a command exactly when, stripped, it starts with `/`; the command name then starts with `/` and has nothing from its first `@` on; no argument is empty |
| Commands.CommandName | telegram_bot.py:282-284 | the command name is a prefix of the lower-cased word without any `@`, and it stops short of the word's end only at its first `@` |
| Commands.ParseSingleWord | telegram_bot.py:279-284 | a single `/word` parses as that command with no arguments |
| Commands.ParseWordThenRest | telegram_bot.py:276-284 | `/word`, a space and any text parse as the command named by the word, with the words of that text as arguments |
| Commands.CommandNameNormalised | telegram_bot.py:282-284 | `/Cmd` and `/Cmd@botname` both name the lower-cased command |
| Commands.ModeNamed | telegram_bot.py:324-325 | an `/autoreply` argument names a mode exactly when, lower-cased, it is `all` or `mention` |
| Commands.MuteOutcome | telegram_bot.py:298-308 | `/mute` always replies; a mute it asks for is positive; it never sets a mood or a mode |
| Commands.MoodOutcome | telegram_bot.py:310-319 | `/mood` always replies; a mood it stores is a known key; it never mutes or sets a mode |
| Commands.AutoReplyOutcome | telegram_bot.py:321-330 | `/autoreply` always replies and never mutes or sets a mood |
| Commands.Run | telegram_bot.py:286-332 | a command is handled exactly when its name is one of the six known ones; every reply other than the help text is non-empty |
| Commands.RunEffects | telegram_bot.py:298-330 | only `/mute` mutes, and for a positive count; only `/mood` sets a mood, and a known one; only `/autoreply` sets a mode |
| Commands.Evaluate | telegram_bot.py:274-332 | a text is handled exactly when it parses as a command whose name is one of the six known ones; a text that does not start with `/` once stripped is not a command |
| Commands.HelpEqualsStart | telegram_bot.py:295-296 | `/help` and `/start`, whatever their arguments, give the same reply, the stripped help text, and change nothing |
| Commands.RunRepliesVisible | telegram_bot.py:286-330 | with the help text built at start-up, every handled command has a non-empty reply |
| Commands.CommandRepliesVisible | telegram_bot.py:274-332 | `handle_command` never answers with an empty reply |
| Commands.KnownCommandAnswered | telegram_bot.py:274-332 | with the help text built at start-up, a text naming a known command always gets a non-empty reply |
| Commands.AliveReportsUptime | telegram_bot.py:286-293 | `/alive` changes nothing; its reply starts `Bot vẫn sống khỏe (<uptime>). Groq `, where the uptime is whole seconds below a minute and otherwise whole minutes m with 60m ≤ uptime < 60m + 60; it ends in `đã sẵn sàng.` exactly when a key is configured and in `chưa có GROQ_API_KEY.` exactly when none is |
| Commands.AliveReplyStatus | telegram_bot.py:292-293 | the `/alive` text starts with the uptime part and ends in `đã sẵn sàng.` if and only if a key is configured, and in `chưa có GROQ_API_KEY.` otherwise |
| Commands.MuteValidation | telegram_bot.py:298-308 | no argument mutes for 10 minutes; a non-integer is refused; a count ≤ 0 is refused; otherwise it mutes for that many minutes and echoes them; refusals change nothing |
| Commands.MuteConfirmationEchoes | telegram_bot.py:308 | the confirmation's number reads back as the minute count |
| Commands.MoodValidation | telegram_bot.py:310-319 | no argument reports the current mood; an unknown normalised key is refused and changes nothing; a known one is stored and confirmed |
| Commands.MoodKeyOfTwoWords | telegram_bot.py:314-315 | two words become the lower-cased words joined by `_` |
| Commands.AutoReplyValidation | telegram_bot.py:321-330 | no argument reports the mode; `all` / `mention` in any case are stored and confirmed; anything else is refused and changes nothing |
| ChatState.MuteOverwrites | telegram_bot.py:269-271 | a second mute replaces the first: only the last one decides the deadline |
| ChatState.MuteWindow | telegram_bot.py:258-271 | after a positive mute at `now`, the chat is muted at exactly the times before `now + 60 * minutes`; other chats are not affected |
| ChatState.MuteCheckRemovesOnlyExpired | telegram_bot.py:258-266 | the mute check keeps every chat's answer at that time; it removes only the checked chat's deadline, and only once that has passed; it leaves moods, modes and histories alone |
| ChatState.MuteCheckIsLocal | telegram_bot.py:258-266 | the mute check changes no history, not the chat's mood, and nothing in other chats |
| ChatState.MoodSetThenGet | telegram_bot.py:166-173 | a stored mood is read back for its chat; other chats keep theirs; storing it again changes nothing |
| ChatState.ModeSetThenGet | telegram_bot.py:183-190 | a stored mode is read back for its chat; other chats keep theirs; storing it again changes nothing |
| ChatState.WithEntryKeepsBounded | telegram_bot.py:193-199 | appending keeps every chat's history within the bound |
| ChatState.WithEntryOwnHistory | telegram_bot.py:196-199 | the chat's history becomes the old one with the entry appended |
| ChatState.WithEntryOtherHistories | telegram_bot.py:196-199 | appending leaves every other chat's history untouched |
| ChatState.WithEntryFields | telegram_bot.py:193-199 | appending leaves mute deadlines, moods and modes alone |
| ChatState.WithTurnKeepsBounded | telegram_bot.py:202-208 | a turn keeps every history within the bound |
| ChatState.WithTurnHistory | telegram_bot.py:202-208 | the chat's history after a turn is the old one with the user entry and then the assistant entry appended |
| ChatState.WithTurnOtherHistories | telegram_bot.py:202-208 | a turn leaves every other chat's history untouched |
| ChatState.WithTurnFields | telegram_bot.py:202-208 | a turn leaves mute deadlines, moods and modes alone |
| ChatState.MoodOutcomeStep | telegram_bot.py:310-319 | `/mood` on the tables: status and no change, refusal and no change, or the new mood stored for the chat |
| ChatState.ApplyEffectIsLocal | telegram_bot.py:298-330 | a command's state change touches only its own chat, and never a history |
| ChatState.CommandStepIsLocal | telegram_bot.py:274-332 | `handle_command` changes only the chat it was sent in, and never a history |
| ChatState.CommandStepShape | telegram_bot.py:274-332 | a text that gets no command reply leaves the tables as they were; with the help text built at start-up, every command reply is non-empty |
| ChatState.RunStepShape | telegram_bot.py:286-332 | the same for a parsed command |
| ChatState.RunEffectIgnoresState | telegram_bot.py:286-332 | whether a command is handled, and the change it makes, do not depend on the chat's mood or mode |
| ChatState.EffectIdempotent | telegram_bot.py:298-330 | carrying out the same state change twice at the same moment is the same as once |
| ChatState.CommandStepParsed | telegram_bot.py:276-284 | a text with no command changes nothing; otherwise the parsed command is run |
| ChatState.RunStepIdempotent | telegram_bot.py:286-332 | running the same parsed command twice at the same moment leaves the tables as once |
| ChatState.CommandIdempotent | telegram_bot.py:274-332 | repeating `/mute`, `/mood` or `/autoreply` with the same text at the same moment changes nothing more |
| ChatState.ChatStore.constructor | telegram_bot.py:88-94 | the tables start empty and the history bound is the configured length |
| ChatState.ChatStore.GetChatMood | telegram_bot.py:166-168 | the stored mood, or the default |
| ChatState.ChatStore.SetChatMood | telegram_bot.py:171-173 | the mood table gains or overwrites the chat's entry, nothing else changes, and the getter reads it back |
| ChatState.ChatStore.GetAutoReplyMode | telegram_bot.py:183-185 | the stored mode, or `all` |
| ChatState.ChatStore.SetAutoReplyMode | telegram_bot.py:188-190 | the mode table gains or overwrites the chat's entry, nothing else changes, and the getter reads it back |
| ChatState.ChatStore.BuildSystemPrompt | telegram_bot.py:176-180 | the prompt for the chat's current mood, starting with the base persona |
| ChatState.ChatStore.AppendChatHistoryEntry | telegram_bot.py:193-199 | the in-place append, setdefault and slice deletion leave the tables exactly as the value-level append says, keeping the store's invariant |
| ChatState.ChatStore.RecordConversationTurn | telegram_bot.py:202-208 | the tables become the value-level turn: the user entry, then the assistant entry, empty sides skipped |
| ChatState.ChatStore.GetChatHistoryMessages | telegram_bot.py:211-215 | the newest `H` entries of the chat's history, none when `H` is 0 |
| ChatState.ChatStore.IsChatMuted | telegram_bot.py:258-266 | true exactly while a non-zero deadline lies ahead; a deadline that has passed is popped, and nothing else changes |
| ChatState.ChatStore.SetChatMute | telegram_bot.py:269-271 | the chat's deadline is overwritten with `now + 60 * minutes`, and nothing else changes |
| ChatState.ChatStore.HandleCommand | telegram_bot.py:274-332 | the reply and the new tables are those of `CommandStep` |
| ChatState.ChatStore.RunCommand | telegram_bot.py:286-332 | the reply and the new tables for a parsed command are those of `RunStep` |
| ChatState.ChatStore.MuteCommand | telegram_bot.py:298-308 | the `/mute` branch replies and mutes as `MuteOutcome` says |
| ChatState.ChatStore.MoodCommand | telegram_bot.py:310-319 | the `/mood` branch replies and stores as `MoodOutcome` says for the chat's current mood |
| ChatState.ChatStore.AutoReplyCommand | telegram_bot.py:321-330 | the `/autoreply` branch replies and stores as `AutoReplyOutcome` says for the chat's current mode |
| Dispatch.DisplayName | telegram_bot.py:406 | the display name is the username when it is given and non-empty, otherwise the first name when that is given and non-empty, otherwise `User`; it is never empty |
| Dispatch.Screening | telegram_bot.py:408-434 | a text that passes the screening is non-empty and comes with a chat id, message id and sender id that are all truthy |
| Dispatch.Checked | telegram_bot.py:427-446 | the validation passes the text on unchanged only with all four fields truthy; a drop is always for incomplete fields |
| Dispatch.Remote | telegram_bot.py:473-486 | the remote branch always replies, to the text, with the model's answer or a fallback |
| Dispatch.Compose | telegram_bot.py:480-482 | the message is `[name](tg://user?id=…) reply`, with the name and the reply escaped, sent to the update's chat in reply to its message |
| Dispatch.Send | telegram_bot.py:480-485 | nothing is sent for an ignored update; otherwise the composed message is sent |
| Dispatch.ProcessMessage | telegram_bot.py:379-486 | the decision and the new tables are those of `Step`, and the message sent is the one for that decision |
| Dispatch.HandleText | telegram_bot.py:402-486 | for a text from a person, the decision and the new tables are those of the screening and what follows it |
| Dispatch.CheckAndAnswer | telegram_bot.py:427-486 | for an addressed text, the decision and the new tables are those of the validation and what follows it |
| Dispatch.Answer | telegram_bot.py:448-486 | after the screening, the decision and the new tables are those of command, mute check, local answer and remote answer, in that order |
| Dispatch.IgnoredUpdates | telegram_bot.py:388-399 | an update without a text message, or from a bot, gets no reply, changes nothing and sends nothing |
| Dispatch.MentionPingAlways | telegram_bot.py:409-420 | a message that is only a mention gets the ping, whatever the chat's mode, mute or ids, and the stripped text is recorded as the user's side |
| Dispatch.ScreenedPing | telegram_bot.py:409-420 | the same after the sender check |
| Dispatch.PingScreening | telegram_bot.py:409-420 | a bare mention is screened as the ping, with the stripped, non-blank text as the user's entry |
| Dispatch.MentionOnlyDropsPlainText | telegram_bot.py:410-426 | in mention-only mode, text that neither mentions the bot nor starts with `/` is dropped with nothing changed, and every reply goes to a mention or a command |
| Dispatch.QuickReplyUnreachable | telegram_bot.py:432-446 | no update ever gets the quick reply to an empty reply to the bot |
| Dispatch.ScreeningNeverQuick | telegram_bot.py:408-446 | the screening never chooses the quick reply, because a text that passes validation is never blank |
| Dispatch.ScreenedNeverQuick | telegram_bot.py:432-486 | if the screening did not choose the quick reply, no later step does |
| Dispatch.ResponseKinds | telegram_bot.py:448-486 | an answer after the screening replies to the text and is neither a ping nor the quick reply; silence happens only for a muted chat and changes nothing; a muted chat is answered only by a command |
| Dispatch.UnmutedKinds | telegram_bot.py:458-486 | after the command step, the bot is silent exactly when the chat is muted, and then changes nothing; otherwise it gives a local, model or fallback reply to the text |
| Dispatch.IgnoredChangesNothing | telegram_bot.py:379-461 | an update that gets no reply changes no table, mute deadlines included |
| Dispatch.MutedChatHearsOnlyCommands | telegram_bot.py:409-461 | a muted chat gets only the ping or a command reply |
| Dispatch.ActKinds | telegram_bot.py:411-486 | a drop changes nothing; in a muted chat a reply is a ping, the quick reply or a command reply |
| Dispatch.CommandAnsweredWhileMuted | telegram_bot.py:448-461 | a screened text with a non-empty command reply is answered with that reply, whatever the mute deadline |
| Dispatch.CommandAnswered | telegram_bot.py:449-456 | a non-empty command reply is recorded on the tables the command left |
| Dispatch.LocalIntentPreempts | telegram_bot.py:463-477 | a screened text with a local answer gets the same outcome whatever the model would say and whichever fallback would be picked; any reply is a command reply or that local answer |
| Dispatch.ResponsePreempted | telegram_bot.py:448-477 | the same after the screening |
| Dispatch.UnmutedPreempted | telegram_bot.py:458-477 | the same after the command step, where the only reply is the local answer |
| Dispatch.OutboundReadsBack | telegram_bot.py:480-485 | the sent message goes to the update's chat in reply to its message, starts with the escaped link to the sender, and its reply part unescapes back to the reply |
| Dispatch.TurnAccounts | telegram_bot.py:486 | recording a reply adds exactly its turn to the chat's history, leaves other chats alone and keeps the bound |
| Dispatch.WithTurnKeepsOthers | telegram_bot.py:202-208 | a turn changes nothing in other chats |
| Dispatch.RemoteAccounts | telegram_bot.py:473-486 | a model reply is the model's stripped answer; a fallback comes only when there is none and is the picked message; the request is built from the chat's mood and recent history; the turn is recorded |
| Dispatch.LocalOrRemoteAccounts | telegram_bot.py:463-486 | the local answer is the intent's reply to the text, recorded as a turn, and otherwise the remote branch is taken, accounted for as above |
| Dispatch.UnmutedAccounts | telegram_bot.py:458-486 | after the command step everything is accounted for, and a muted chat's silence records nothing |
| Dispatch.ResponseAccounts | telegram_bot.py:448-486 | everything is accounted for after the screening, including a command's state change, which stays in its own chat |
| Dispatch.AfterCommandAccounts | telegram_bot.py:449-486 | the same for any command result that changes no history and nothing outside its chat |
| Dispatch.CommandTurnAccounts | telegram_bot.py:449-456 | a command reply recorded on the tables the command left adds exactly its turn to the history |
| Dispatch.ActAccounts | telegram_bot.py:411-486 | every screening result is accounted for |
| Dispatch.StepAccounts | telegram_bot.py:379-486 | every reply is explained by its source; every reply is recorded as one turn, and silence records nothing; no other chat changes; the history bound is kept; a remote request uses the chat's mood and recent history |

## Left out

- HTTP transport is not modelled: `send_telegram_message` (telegram_bot.py:335-376) and the POST in `get_groq_response` (telegram_bot.py:119-158), with their timeouts and status checks. The remote answer is the raw content in `World.remote`, None for any failure, and the send is the returned `Outgoing` value. The source ignores whether the send succeeded, and so does the model.
- `time.time()` is a float; the model uses whole seconds (`World.now`, `Config.startTime`). The uptime of `/alive` is the integer difference, so the truncation of a fractional difference is not modelled.
- `datetime.now()` becomes the `DateTime` record `World.clock`. `strftime('%Y')` is modelled as the year's decimal digits.
- `random.choice` becomes the index `World.pick`.
- `str.lower()` and the `re.IGNORECASE` match are modelled on ASCII letters only. Vietnamese upper-case letters (for example `MẤY GIỜ`) are not folded, so those keywords are matched only as written in lower case.
- `int()` is modelled as an optional sign followed by ASCII digits, after stripping whitespace. Underscores and non-ASCII digits are not modelled, nor is Python's default limit of 4300 digits, beyond which `int()` raises ValueError.
- Commands.MuteOutcome: a positive count is always accepted. In the source, a count so large that `minutes * 60` does not fit a float makes `time.time() + (minutes * 60)` (telegram_bot.py:271) raise OverflowError. The `except` at telegram_bot.py:488-489 catches it, so nothing is sent, recorded or muted. The model mutes and confirms instead. A count written with more than 4300 digits makes `int()` raise ValueError, which gives the invalid-number reply (telegram_bot.py:304-305); the model reads it as a number.
- Commands.MuteValidation: states the same accepting branch, so the two cases above (the float overflow at telegram_bot.py:271 caught at 488-489, and the over-long count refused at 304-305) are not covered.
- ChatState.ChatStore.SetChatMute: stores `now + 60 * minutes` for any count; the OverflowError that telegram_bot.py:271 raises for a count too large for a float is not modelled.
- ChatState.ChatStore.MuteCommand: follows `MuteOutcome`, so neither the float overflow (telegram_bot.py:271, caught at 488-489) nor the 4300-digit refusal (telegram_bot.py:304-305) is modelled.
- The environment (`load_dotenv`, `os.getenv`) is reduced to the parameters of `StartupConfig`. Logging, `validate_config`, `main`, `handle_update` and the webhook and polling front ends are I/O and are not part of this model.
- The auto-reply mode is stored as a string in the source. The model stores the `Mode` datatype, because only `all` or `mention` is ever stored (after validation).
- A message whose `text` field is present but not a string makes the source raise inside its `try`, and it sends nothing. The model treats such a message as having no text, with the same outcome: no reply, no change.
- The source sends a reply before it records the turn. The model computes both in one step, since the recording does not depend on the send.
- Concurrent calls to `process_message` from a threaded web server are not modelled; updates are handled one at a time.
- Mention removal does not collapse interior whitespace: each mention becomes one space and only the ends are stripped (`Mention.FirstMentionReplaced`, `Mention.InteriorWhitespaceKept`).
- Mention.MentionsRemoved: stated for a username without a space, which Telegram usernames never hold. With a space in it, the inserted space can complete a new occurrence: for the username `a a`, the text `@a@a aa` is cleaned to `@a a`.
- The quick reply at telegram_bot.py:439-446 is modelled as written, and `Dispatch.QuickReplyUnreachable` proves it never fires.
