/** What the bridge does with a message in either direction, as values: the inbound
    decision of `_tg_handle_message`, the IRC messages it emits, and the Telegram line
    `doPrivmsg` sends (plugin.py:66-75, 144-159, 187-209). */
module Routing {
  import opened Optional
  import opened Text
  import opened Telegram
  import opened Translation
  import opened ChannelMap
  import opened Commands

  /** An IRC message as the plugin builds or receives it. `action` is the payload of a
      CTCP ACTION (what supybot's `isAction`/`unAction` report), None for plain text;
      `fromTelegram` is the tag the bridge puts on every message it writes to IRC. */
  datatype IrcMsg = IrcMsg(command: string, channel: string, text: string, nick: string,
                           isError: bool, action: Option<string>, fromTelegram: bool)

  /** One call of the Telegram client's `send_message(chat_id, text)`. */
  datatype ChatSend = ChatSend(chatId: int, text: string)

  /** The message `_send_irc_message` queues: a PRIVMSG to the channel, tagged. */
  function QueuedMsg(channel: string, text: string): (m: IrcMsg)
    ensures m.command == "PRIVMSG" && m.channel == channel && m.text == text
    ensures m.fromTelegram && !m.isError && m.action.None?
  {
    IrcMsg("PRIVMSG", channel, text, "", false, None, true)
  }

  /** The message `_feed_to_supybot` feeds: a tagged PRIVMSG to the channel under the
      author's nick, whose text has a leading "/cmd@bot" rewritten to "|cmd". */
  function FedMsg(channel: string, author: string, line: string): (m: IrcMsg)
    ensures m.command == "PRIVMSG" && m.channel == channel && m.nick == author
    ensures m.text == RewriteBotCommand(line)
    ensures m.fromTelegram && !m.isError && m.action.None?
    ensures line == "" || line[0] != '/' ==> m.text == line
    ensures m.text != line ==> 0 < |m.text| < |line| && m.text[0] == '|'
  {
    IrcMsg("PRIVMSG", channel, RewriteBotCommand(line), author, false, None, true)
  }

  /** What the bridge does to IRC, in the order it does it: a message queued for
      sending (`queueMsg`) or fed to supybot's own handlers (`feedMsg`). */
  datatype IrcEffect = Queue(msg: IrcMsg) | Feed(msg: IrcMsg)

  /** The outcome of handling one Telegram message: nothing emitted, an exception
      raised before anything is emitted, or the lines relayed to a channel. */
  datatype Inbound = Dropped | Raises | Relay(channel: string, author: string, lines: seq<string>)

  /** `_tg_handle_message` as a decision. A message goes nowhere when its chat is not
      bound to a joined channel or when the bot itself wrote it; it raises (and the
      polling loop catches it) when it has no author or the token gave no bot id. */
  function Route(m: Message, channels: seq<string>, config: map<string, int>, botId: Option<int>): (r: Inbound)
    ensures r == Dropped <==> (ChannelForChat(m, channels, config).None? || ChannelForChat(m, channels, config).value == ""
                               || (botId.Some? && m.sender.Some? && m.sender.value.id == botId))
    ensures r == Raises <==> (ChannelForChat(m, channels, config).Some? && ChannelForChat(m, channels, config).value != ""
                              && (m.sender.None? || botId.None?))
    ensures r.Relay? ==> ChannelForChat(m, channels, config) == Some(r.channel) && r.channel != ""
    ensures r.Relay? ==> m.sender.Some? && botId.Some? && m.sender.value.id != botId
    ensures r.Relay? ==> r.author == DisplayName(m.sender.value) && r.lines == SplitLines(MessageText(m))
    ensures ChannelForChat(m, channels, config).Some? && ChannelForChat(m, channels, config).value != ""
            && m.sender.Some? && botId.Some? && m.sender.value.id != botId
            ==> r == Relay(ChannelForChat(m, channels, config).value, DisplayName(m.sender.value),
                           SplitLines(MessageText(m)))
  {
    match ChannelForChat(m, channels, config)
    case None => Dropped
    case Some(channel) =>
      if channel == "" then Dropped
      else
        var text := MessageText(m);
        match m.sender
        case None => Raises
        case Some(user) =>
          var (userId, author) := UserRepr(user);
          if botId.None? then Raises
          else if userId == botId then Dropped
          else Relay(channel, author, SplitLines(text))
  }

  /** The effect at position j of a relay of `lines`: line j / 2, queued at an even
      position and fed at an odd one. */
  function EffectAt(channel: string, tag: string, author: string, lines: seq<string>, j: nat): IrcEffect
    requires j < 2 * |lines|
  {
    if j % 2 == 0 then Queue(QueuedMsg(channel, tag + "> " + lines[j / 2]))
    else Feed(FedMsg(channel, author, lines[j / 2]))
  }

  /** The effects of relaying lines: for each line in turn, "<tag>> <line>" is queued
      and then the line itself is fed under the author's nick. */
  function LineEffects(channel: string, tag: string, author: string, lines: seq<string>): (e: seq<IrcEffect>)
    ensures |e| == 2 * |lines|
    decreases |lines|
  {
    if lines == [] then []
    else
      var n := |lines| - 1;
      LineEffects(channel, tag, author, lines[..n])
      + [Queue(QueuedMsg(channel, tag + "> " + lines[n])), Feed(FedMsg(channel, author, lines[n]))]
  }

  /** Position 2k of the effects holds line k queued, and position 2k + 1 line k fed. */
  lemma {:induction false} LineEffectsAt(channel: string, tag: string, author: string, lines: seq<string>)
    ensures forall j :: 0 <= j < 2 * |lines| ==>
              LineEffects(channel, tag, author, lines)[j] == EffectAt(channel, tag, author, lines, j)
    decreases |lines|
  {
    if lines != [] {
      var n := |lines| - 1;
      LineEffectsAt(channel, tag, author, lines[..n]);
      var prev := LineEffects(channel, tag, author, lines[..n]);
      var e := LineEffects(channel, tag, author, lines);
      forall j | 0 <= j < 2 * |lines| ensures e[j] == EffectAt(channel, tag, author, lines, j) {
        if j < |prev| {
          assert e[j] == prev[j];
          assert lines[..n][j / 2] == lines[j / 2];
        } else if j == 2 * n {
          assert j % 2 == 0 && j / 2 == n;
        } else {
          assert j % 2 == 1 && j / 2 == n;
        }
      }
    }
  }

  /** Relaying one more line appends that line queued and then fed. */
  lemma LineEffectsStep(channel: string, tag: string, author: string, lines: seq<string>, i: nat)
    requires i < |lines|
    ensures LineEffects(channel, tag, author, lines[..i + 1])
            == LineEffects(channel, tag, author, lines[..i])
               + [Queue(QueuedMsg(channel, tag + "> " + lines[i])), Feed(FedMsg(channel, author, lines[i]))]
  {
    var prefix := lines[..i + 1];
    assert |prefix| - 1 == i && prefix[..i] == lines[..i] && prefix[i] == lines[i];
  }

  /** Everything the bridge does to IRC for an outcome; `paint` colours the author's name. */
  function Emitted(r: Inbound, paint: string -> string): seq<IrcEffect> {
    if r.Relay? then LineEffects(r.channel, paint(r.author), r.author, r.lines) else []
  }

  /** A message relayed from Telegram gives, per line of its text and in line order, one
      queued and then one fed message on the mapped channel; empty text gives none. */
  lemma RelayedLinePerLine(m: Message, channels: seq<string>, config: map<string, int>, botId: Option<int>,
                           paint: string -> string)
    requires Route(m, channels, config, botId).Relay?
    ensures var r := Route(m, channels, config, botId);
            var lines := SplitLines(MessageText(m));
            var e := Emitted(r, paint);
            && |e| == 2 * |lines|
            && (MessageText(m) == "" ==> e == [])
            && (forall j :: 0 <= j < |e| ==>
                  && e[j].msg.channel == r.channel
                  && (j % 2 == 0 ==> e[j].Queue? && e[j].msg.text == paint(r.author) + "> " + lines[j / 2])
                  && (j % 2 == 1 ==> e[j].Feed? && e[j].msg.nick == r.author
                                     && e[j].msg.text == RewriteBotCommand(lines[j / 2])))
  {
    var r := Route(m, channels, config, botId);
    LineEffectsAt(r.channel, paint(r.author), r.author, r.lines);
  }

  /** The Telegram line for an IRC message: "* nick payload" for an action,
      "nick> text" otherwise. */
  function ChatLine(msg: IrcMsg): (line: string)
    ensures msg.action.None? ==> msg.nick + "> " <= line && line[|msg.nick| + 2..] == msg.text
    ensures msg.action.Some? ==> "* " + msg.nick + " " <= line && line[|msg.nick| + 3..] == msg.action.value
  {
    match msg.action
    case Some(payload) => "* " + msg.nick + " " + payload
    case None => msg.nick + "> " + msg.text
  }

  /** `doPrivmsg` as a decision: nothing is sent for an error message, a channel not
      joined, a message tagged as coming from Telegram, or a channel with no chat;
      otherwise one line goes to the channel's chat. */
  function OutboundSend(msg: IrcMsg, channels: seq<string>, config: map<string, int>): (r: Option<ChatSend>)
    ensures r.Some? <==> (!msg.isError && msg.channel in channels && !msg.fromTelegram
                          && ChatForChannel(config, msg.channel).Some?)
    ensures r.Some? ==> ChatForChannel(config, msg.channel) == Some(r.value.chatId)
    ensures r.Some? ==> r.value.text == ChatLine(msg)
  {
    if !msg.isError && msg.channel in channels && !msg.fromTelegram then
      match ChatForChannel(config, msg.channel)
      case None => None
      case Some(chatId) => Some(ChatSend(chatId, ChatLine(msg)))
    else None
  }

  /** The sends of one `doPrivmsg` call. */
  function Sends(msg: IrcMsg, channels: seq<string>, config: map<string, int>): seq<ChatSend> {
    match OutboundSend(msg, channels, config)
    case None => []
    case Some(send) => [send]
  }

  /** No loop through the bridge: nothing it queues or feeds to IRC for a Telegram
      message is ever sent back to Telegram, whatever the channels and configuration. */
  lemma RelayedNeverEchoed(r: Inbound, paint: string -> string, channels: seq<string>, config: map<string, int>)
    ensures forall x :: x in Emitted(r, paint) ==> Sends(x.msg, channels, config) == []
  {
    var e := Emitted(r, paint);
    if r.Relay? {
      LineEffectsAt(r.channel, paint(r.author), r.author, r.lines);
    }
    forall x | x in e ensures Sends(x.msg, channels, config) == [] {
      var j :| 0 <= j < |e| && e[j] == x;
      assert x.msg.fromTelegram;
    }
  }

  /** A scenario: "hi" from bob (id 7) in chat 42, which #general is bound to, reaches
      #general as "bob> hi" and is then fed back under bob's nick. */
  lemma BobSaysHi(paint: string -> string, botId: int)
    requires botId != 7
    ensures var m := Message(Some("hi"), Some(Chat(Some(42))), Some(User(Some(7), None, None, Some("bob"))), map[]);
            var r := Route(m, ["#general"], map["#general" := 42], Some(botId));
            && r == Relay("#general", "bob", ["hi"])
            && Emitted(r, paint) == [Queue(QueuedMsg("#general", paint("bob") + "> " + "hi")),
                                     Feed(IrcMsg("PRIVMSG", "#general", "hi", "bob", false, None, true))]
  {
    var m := Message(Some("hi"), Some(Chat(Some(42))), Some(User(Some(7), None, None, Some("bob"))), map[]);
    var channels, config := ["#general"], map["#general" := 42];
    assert ChatIndex(channels, config) == map[42 := "#general"];
    assert ChannelForChat(m, channels, config) == Some("#general");
    assert MessageText(m) == "hi";
    SplitSingleLine("hi");
    assert Route(m, channels, config, Some(botId)) == Relay("#general", "bob", ["hi"]);
    assert RewriteBotCommand("hi") == "hi";
    var r := Route(m, channels, config, Some(botId));
    assert Emitted(r, paint) == [Queue(QueuedMsg("#general", paint("bob") + "> " + "hi")),
                                 Feed(FedMsg("#general", "bob", "hi"))];
  }
}
