# TelegramBridge relay rules, modelled in Dafny

This project models the core of the supybot TelegramBridge plugin (`plugin.py`). The
plugin relays messages between Telegram group chats and IRC channels. The model
covers the rules that sit between the polled Telegram feed and supybot's IRC event
bus:

- **Inbound translation.** A loosely typed Telegram message becomes one text and an
  author name. Non-empty text is used as is. Otherwise the first media kind present
  decides the text, in the order photo, video, audio, sticker, contact, location,
  venue, voice, game, document. Sticker, contact and location get their own
  placeholders; every other kind gets `<kind>`. A missing field shows as `None`.
- **Routing and loop suppression.**
  - A Telegram chat id is looked up among the joined channels' `tgChatId` values.
  - Messages written by the bot itself are dropped. The bot's id is the integer
    before the first `:` of its token.
  - Each line of a relayed text is queued to IRC as `<coloured author>> <line>`. It
    is then fed back to supybot under the author's nick, with a leading
    `/cmd@botname` rewritten to `|cmd`, before the next line is handled.
  - Everything the bridge writes to IRC carries the `from_telegram` tag.
- **Outbound forwarding.** An IRC message in a joined channel is sent to the
  channel's chat as `nick> text`, or as `* nick payload` for an action. Nothing is
  sent when the message is an error, is tagged `from_telegram`, or its channel is
  not joined or has no chat.
- **Stale-update drain.** At start-up the whole feed is read. The id of the last
  update is then passed to one more fetch as its cursor.
- **Lifecycle.** The run flag of the polling loop.

Layout, one module per file:

| file | module | what it holds |
|---|---|---|
| optional.dfy | Optional | the `Option` type |
| text.dfy | Text | `str` of an int, `int` of a literal, `str.splitlines` |
| telegram.dfy | Telegram | message, user, chat, payload and update types; the media order |
| translation.dfy | Translation | `_tg_repr_*`, `_tg_user_repr` |
| channelmap.dfy | ChannelMap | the chat id → channel dictionary and the channel → chat id lookup |
| commands.dfy | Commands | the `/cmd@bot` → `|cmd` rewrite |
| identity.dfy | Identity | the bot id read from the token |
| routing.dfy | Routing | the inbound decision, the IRC messages emitted, the outbound line |
| cursor.dfy | Cursor | the drain loop and what a fetch after the cursor delivers |
| bridge.dfy | Bridge | the plugin object; its effects are appended to output logs |

Pure code in the source is modelled as functions and lemmas. The plugin object is a
class whose methods append to three logs: what it does to IRC (queued and fed
messages, in the order they happen), the Telegram sends, and the cursors
acknowledged by the drain. Each method is proved
against the specification functions. The joined channels and the `tgChatId`
registry are read afresh at every call in the source, so they are method
parameters: a `seq<string>` in join order and a `map<string, int>`.

Behaviour worth knowing, as the code has it:

- **Empty text.** A message with no text and no media translates to `""`.
  `splitlines` of `""` has no lines, so nothing at all is relayed, not even an
  empty line.
- **Missing fields.** A missing sticker emoji or contact field is shown as `None`,
  not as empty text.
- **Malformed token.** A token without a numeric prefix is not fatal. The error is
  logged and the loop still starts. `_tgId` is never set, so every message for a
  mapped chat raises `AttributeError` when it is handled (`Raises` in the model).
- **Duplicate chat ids.** If two joined channels share a chat id, the dictionary
  comprehension keeps the channel joined last. The model does the same; it does not
  reject the configuration.
- **Topic changes.** `doTopic` calls `_send_to_chat` without its chat id, so a topic
  change raises `TypeError` and nothing is sent. `DoTopic` models this as written.
- **Order of checks.** The author is compared with the bot id after translation, not
  before. The difference is not observable.

## Model

| member | source | states |
|---|---|---|
| Text.NatToDecimal | plugin.py:81 | `str` of a natural number is a non-empty string of digits that starts with '0' only for 0 |
| Text.IntToDecimal | plugin.py:81 | `str` of an integer is non-empty, starts with '-' exactly for negatives, and has no ':' |
| Text.ParseInt | plugin.py:57 | `int` succeeds only on an optional sign followed by digits; the value is non-positive after '-' and non-negative otherwise |
| Text.IntDecimalRoundTrip | plugin.py:81 | reading back `str(n)` with `int` gives n |
| Text.SplitLines | plugin.py:155 | `splitlines` gives no lines exactly for empty text, and no line contains a line break |
| Text.SplitSingleLine | plugin.py:155 | a non-empty text without line breaks is one line |
| Text.SplitAfterLine | plugin.py:155 | each of "\n", "\r\n" and a lone "\r" ends exactly one line |
| Text.SplitTerminatedRoundTrip | plugin.py:155 | splitting newline-terminated lines gives those lines back |
| Telegram.Rank | plugin.py:104-105 | each media kind sits at its own position in the fixed order |
| Translation.StickerText | plugin.py:108-109 | `<sticker {emoji}>` with the emoji when present, `<sticker None>` when missing |
| Translation.LocationText | plugin.py:86-91 | the place's maps link with both coordinates, each missing coordinate shown as `None` |
| Translation.ContactText | plugin.py:93-99 | `<contact {first} {last} {phone}>`, each field on its own shown as `None` when missing |
| Translation.ContactWithoutLastName | plugin.py:93-99 | a contact with a first name and phone number but no last name is shown as `<contact {first} None {phone}>` |
| Translation.MediaText | plugin.py:107-115 | every media placeholder is a non-empty `<...>` text; a kind without its own template is shown as `<{kind}>` |
| Translation.ContactShowsFields | plugin.py:93-99 | a contact carrying all three fields shows them in order, separated by single spaces |
| Translation.LocationShowsCoordinates | plugin.py:86-91 | a location carrying both coordinates is shown as `<location {link}>` with the link built from them |
| Translation.PlainKindsShowName | plugin.py:114-115 | photo, video, audio, venue, voice, game and document are shown as `<photo>` … `<document>` whatever the payload holds |
| Translation.MediaTextReadsShownFields | plugin.py:86-115 | a placeholder depends only on the kind and the emoji, coordinate and contact fields |
| Translation.MissingFieldsShowNone | plugin.py:86-109 | missing sticker, contact and location fields are shown as `None` |
| Translation.StickerShowsEmoji | plugin.py:108-109 | a sticker is shown as `<sticker {emoji}>` |
| Translation.FirstShownText | plugin.py:102-117 | the result is the placeholder of the first present, truthy kind, and `""` exactly when there is none |
| Translation.FirstShownInOrder | plugin.py:102-117 | the same over the fixed media order, stated per kind by its rank |
| Translation.NonTextRepr | plugin.py:102-117 | without text, the first shown kind in the fixed order decides and later kinds are ignored; `""` exactly when no kind is shown |
| Translation.MessageText | plugin.py:119-124 | non-empty text is returned verbatim; otherwise the media placeholder, `""` exactly when no media kind is shown |
| Translation.DisplayName | plugin.py:78-83 | the username when present; otherwise first name (or the id's text) followed by last name with no separator |
| Translation.UserRepr | plugin.py:78-83 | the returned id and name agree: an author with no username and no names is shown under a name that reads back as the returned id |
| Translation.AnonymousNameIsId | plugin.py:78-83 | an author without username or names is shown as its id's text, which reads back as that id; a missing id is shown as "??" |
| ChannelMap.ChatIndex | plugin.py:127-128 | every key of the dictionary is the chat id of the channel it maps to |
| ChannelMap.ChatIndexLookup | plugin.py:127-128 | every joined channel's chat id is a key, and each key maps to the last channel carrying it |
| ChannelMap.ChannelForChatId | plugin.py:126-142 | None exactly when no joined channel has the chat id; otherwise the last joined channel bound to it |
| ChannelMap.ChannelForChat | plugin.py:126-142 | a message without a chat or chat id maps to no channel; otherwise its chat id is looked up |
| ChannelMap.ChatForChannel | plugin.py:197-201 | a channel's chat is its non-zero `tgChatId`; none when absent or 0 |
| ChannelMap.ChannelChatRoundTrip | plugin.py:126-142 | with distinct bindings, a joined channel's chat maps back to that channel |
| ChannelMap.ChatChannelRoundTrip | plugin.py:126-142 | a channel found for a non-zero chat id is joined and bound to that id |
| Commands.RewriteBotCommand | plugin.py:69 | a line is either unchanged or started with '/' and now starts with '|', shorter by at least the '@' and one bot-name character |
| Commands.RewriteAppliesToBotCommand | plugin.py:69 | where the pattern matches, `/cmd@bot` becomes `|cmd` and the rest of the line is kept |
| Commands.RewriteLeavesOtherLines | plugin.py:69 | where the pattern does not match, the line is unchanged |
| Commands.RewriteIdempotent | plugin.py:69 | rewriting twice is rewriting once |
| Commands.RewriteCommandForm | plugin.py:69 | `/` + command + `@` + bot name + rest becomes `|` + command + rest |
| Identity.TokenPrefix | plugin.py:57 | the part of the token before its first ':', or all of it |
| Identity.ParseBotId | plugin.py:57 | an id is found only when the token starts with a sign or digit; it is negative only after '-' |
| Identity.CookieIgnored | plugin.py:57 | only the part before the first ':' decides the id; the cookie never does |
| Identity.BotIdFromToken | plugin.py:57 | a token `<id>:<cookie>` yields that id |
| Identity.NonNumericTokenHasNoId | plugin.py:56-60 | a token that does not start with a sign or digit yields no id |
| Routing.QueuedMsg | plugin.py:187-190 | a PRIVMSG to the channel with the given text, tagged `from_telegram` |
| Routing.FedMsg | plugin.py:66-75 | a tagged PRIVMSG under the author's nick carrying the rewritten line; a line not starting with '/' is kept, a changed one starts with '|' |
| Routing.Route | plugin.py:144-159 | dropped exactly when the chat is unmapped or the author is the bot; raises exactly when the chat is mapped and there is no author or no bot id; relayed, with the author's name and the text's lines, to the mapped channel in every other case |
| Routing.LineEffects | plugin.py:155-159 | exactly two effects per relayed line |
| Routing.LineEffectsAt | plugin.py:155-159 | in line order, position 2k holds line k queued as `<tag>> <line>` and position 2k + 1 holds it fed under the author's nick |
| Routing.LineEffectsStep | plugin.py:155-159 | relaying one more line appends that line queued and then fed, after everything before it |
| Routing.RelayedLinePerLine | plugin.py:155-159 | a relayed message gives, per line and in order, one queued and then one fed message on the mapped channel, and nothing for empty text |
| Routing.ChatLine | plugin.py:203-208 | the Telegram line starts with `nick> ` (or `* nick ` for an action) and ends with the text (or the action's payload) |
| Routing.OutboundSend | plugin.py:192-209 | a send happens exactly when the message is not an error, its channel is joined, it is not from Telegram and the channel has a chat; the line goes to that chat as `nick> text` or `* nick payload` |
| Routing.RelayedNeverEchoed | plugin.py:187-196 | nothing the bridge queues or feeds to IRC is ever sent back to Telegram |
| Routing.BobSaysHi | plugin.py:144-159 | "hi" from bob in the chat bound to #general is queued as `bob> hi` and then fed as "hi" under bob |
| Cursor.LastUpdateId | plugin.py:161-164 | the cursor is None exactly for an empty feed, otherwise the id of the last update, which with increasing ids is above every other id |
| Cursor.LastSeenUpdate | plugin.py:161-164 | the drain loop ends holding the id of the last update |
| Cursor.DrainedNotRedelivered | plugin.py:161-165 | fetching after the drained cursor delivers exactly the updates that came later |
| Bridge.TelegramBridge.constructor | plugin.py:51-64 | the bot id is parsed from the token, the loop flag is set and every log is empty |
| Bridge.TelegramBridge.StartTelegramLoop | plugin.py:178-182 | sets the run flag |
| Bridge.TelegramBridge.Die | plugin.py:224-225 | clears the run flag |
| Bridge.TelegramBridge.SendIrcMessage | plugin.py:187-190 | appends one queued, tagged PRIVMSG to the IRC log |
| Bridge.TelegramBridge.FeedToSupybot | plugin.py:66-75 | appends one fed, tagged, rewritten PRIVMSG under the author's nick to the IRC log |
| Bridge.TelegramBridge.SendToChat | plugin.py:184-185 | appends one send to the given chat |
| Bridge.TelegramBridge.HandleMessage | plugin.py:144-159 | the outcome is `Route`, and the IRC log grows by exactly that outcome's effects |
| Bridge.TelegramBridge.RelayLines | plugin.py:155-159 | the IRC log grows by a queued and then a fed message per line, in line order |
| Bridge.TelegramBridge.DiscardPreviousUpdates | plugin.py:161-165 | returns the last update id and acknowledges it with one more fetch |
| Bridge.TelegramBridge.DoPrivmsg | plugin.py:192-209 | the Telegram log grows by exactly the sends `OutboundSend` allows |
| Bridge.TelegramBridge.OutFilter | plugin.py:219-222 | returns the message unchanged and forwards only PRIVMSGs not tagged from Telegram |
| Bridge.TelegramBridge.DoTopic | plugin.py:211-217 | raises unless it has exactly one argument, and never sends |

## Left out

- The polling thread of `_telegram_loop` and `_start_telegram_loop` (plugin.py:167-182) is not modelled. This covers its one-second sleep and the handler that logs and swallows exceptions. Only the run flag is kept. An exception inside `_tg_handle_message` is the `Raises` outcome.
- The Telegram client (`telegram.py` is not part of this model) is left out: its `updates`, `updates_loop` and `send_message`. The feed is a sequence of updates and sends are appended to a log. `Cursor.After` states the fetch-after-cursor behaviour the drain relies on; this is an assumption about the client, not code that is shown.
- supybot is left out: building `IrcMsg` objects, `queueMsg`, `feedMsg`, `SimpleProxy`, the bot's own prefix on fed messages, and logging. Messages are records appended to logs. `feedMsg` runs supybot's handlers on the fed message at once; what those handlers do is not modelled, only the point in the IRC log at which the message is fed.
- `isAction` and `unAction` from `supybot.ircmsgs` are not modelled. An IRC message carries its ACTION payload as `IrcMsg.action`.
- `mircColor` and `canonicalColor` are not modelled. Colouring is the function `paint`, given to the constructor.
- `registryValue` is replaced by a map. A channel missing from the map reads as chat id 0, meaning unbound (`config.py` is not part of this model).
- `importlib.reload(telegram)` is a module-reload idiom with no effect on behaviour.
- Text.ParseInt: does not accept the surrounding whitespace, digit-separating underscores or non-ASCII digits that Python's `int` also accepts.
- Routing.OutboundSend, Bridge.TelegramBridge.DoPrivmsg: whether a channel is joined is tested by exact name. supybot's channel state (`irc.state.channels`, an `IrcDict`) compares names without regard to IRC case, and that case mapping is not part of this model, so a message whose channel differs from the joined name only in case is sent by the source and not by the model.
- Commands.IsSpace, Commands.IsWordChar: `\s` and `\w` are taken on ASCII only (for `\s` including the separators 0x1C-0x1F); Python's Unicode classes also match non-ASCII white space, letters and digits.
- Text.SplitLines: splits on "\n", "\r" and "\r\n" only. Python's `splitlines` also splits on "\v", "\f", "\x1c" to "\x1e", "\x85", U+2028 and U+2029.
- Payload fields are held as the text `str` gives them; Python's float formatting of coordinates is not modelled.
- A payload that is not a dictionary under the sticker, contact or location key is not modelled. There Python would raise when reading its fields; the Bot API never sends one.
- Exceptions from the foreign calls inside the relay loop (`queueMsg`, `feedMsg`, `send_message`) are not modelled.
