/** The TelegramBridge plugin object (plugin.py:45-225). Its effects on the outside
    world are logs the methods append to: what it does to IRC, in order (messages
    queued with `queueMsg` and fed back into supybot with `feedMsg`), the Telegram
    sends (`send_message`) and the cursors passed to the acknowledging fetch of the
    drain. The joined
    channels and the `tgChatId` registry are read at each call, so they are
    parameters. */
module Bridge {
  import opened Optional
  import opened Text
  import opened Telegram
  import opened Translation
  import opened ChannelMap
  import opened Identity
  import opened Routing
  import opened Cursor

  class TelegramBridge {
    /** `_tgId`: the bot's own id, None when the token has no numeric prefix (the
        attribute is then never set, and reading it raises). */
    const botId: Option<int>
    /** `mircColor(author, *canonicalColor(author))`: supybot's colouring of a nick. */
    const paint: string -> string
    /** `telegram_loop_run`: whether the polling loop keeps going. */
    var loopRun: bool
    var toIrc: seq<IrcEffect>
    var sent: seq<ChatSend>
    var acks: seq<Option<int>>

    /** Reads the bot id from the token and starts the polling loop. */
    constructor (token: string, paint: string -> string)
      ensures botId == ParseBotId(token) && this.paint == paint
      ensures loopRun
      ensures toIrc == [] && sent == [] && acks == []
    {
      botId := ParseBotId(token);
      this.paint := paint;
      loopRun := true;
      toIrc, sent, acks := [], [], [];
      new;
      StartTelegramLoop();
    }

    /** Sets the run flag; the polling thread it spawns is not modelled. */
    method StartTelegramLoop()
      modifies this`loopRun
      ensures loopRun
    {
      loopRun := true;
    }

    /** Clears the run flag, which the polling loop checks before each poll. */
    method Die()
      modifies this`loopRun
      ensures !loopRun
    {
      loopRun := false;
    }

    method SendIrcMessage(channel: string, text: string)
      modifies this`toIrc
      ensures toIrc == old(toIrc) + [Queue(QueuedMsg(channel, text))]
      ensures toIrc[|toIrc| - 1].msg.fromTelegram
    {
      toIrc := toIrc + [Queue(QueuedMsg(channel, text))];
    }

    method FeedToSupybot(channel: string, author: string, line: string)
      modifies this`toIrc
      ensures toIrc == old(toIrc) + [Feed(FedMsg(channel, author, line))]
      ensures toIrc[|toIrc| - 1].msg.fromTelegram && toIrc[|toIrc| - 1].msg.nick == author
    {
      toIrc := toIrc + [Feed(FedMsg(channel, author, line))];
    }

    method SendToChat(text: string, chatId: int)
      modifies this`sent
      ensures sent == old(sent) + [ChatSend(chatId, text)]
    {
      sent := sent + [ChatSend(chatId, text)];
    }

    /** Handles one message from the Telegram feed: relays each line of its text to
        the mapped channel, both as a queued message and as one fed back to supybot. */
    method HandleMessage(m: Message, channels: seq<string>, config: map<string, int>) returns (outcome: Inbound)
      modifies this`toIrc
      ensures outcome == Route(m, channels, config, botId)
      ensures toIrc == old(toIrc) + Emitted(outcome, paint)
    {
      var channel := ChannelForChat(m, channels, config);
      if channel.None? || channel.value == "" {
        return Dropped;
      }
      var text := MessageText(m);
      if m.sender.None? {
        return Raises;
      }
      var (userId, author) := UserRepr(m.sender.value);
      if botId.None? {
        return Raises;
      }
      if userId == botId {
        return Dropped;
      }
      var lines := SplitLines(text);
      RelayLines(channel.value, author, lines);
      outcome := Relay(channel.value, author, lines);
    }

    /** The loop of `_tg_handle_message`: each line is queued to IRC behind the
        coloured author name, then fed back to supybot, before the next line. */
    method RelayLines(channel: string, author: string, lines: seq<string>)
      modifies this`toIrc
      ensures toIrc == old(toIrc) + LineEffects(channel, paint(author), author, lines)
    {
      var tag := paint(author);
      for i := 0 to |lines|
        invariant toIrc == old(toIrc) + LineEffects(channel, tag, author, lines[..i])
      {
        var queued, fed := Queue(QueuedMsg(channel, tag + "> " + lines[i])), Feed(FedMsg(channel, author, lines[i]));
        var done := LineEffects(channel, tag, author, lines[..i]);
        LineEffectsStep(channel, tag, author, lines, i);
        SendIrcMessage(channel, tag + "> " + lines[i]);
        FeedToSupybot(channel, author, lines[i]);
        assert toIrc == old(toIrc) + done + [queued] + [fed];
        assert old(toIrc) + done + [queued] + [fed] == old(toIrc) + (done + [queued, fed]);
      }
      assert lines[..|lines|] == lines;
    }

    /** Drains the feed at start-up and acknowledges the last update seen. */
    method DiscardPreviousUpdates(updates: seq<Update>) returns (cursor: Option<int>)
      modifies this`acks
      ensures cursor == LastUpdateId(updates)
      ensures acks == old(acks) + [cursor]
    {
      cursor := LastSeenUpdate(updates);
      acks := acks + [cursor];
    }

    /** Forwards an IRC message of a bound channel to its Telegram chat. */
    method DoPrivmsg(msg: IrcMsg, channels: seq<string>, config: map<string, int>)
      modifies this`sent
      ensures sent == old(sent) + Sends(msg, channels, config)
    {
      if !msg.isError && msg.channel in channels && !msg.fromTelegram {
        var chatId := ChatIdOf(config, msg.channel);
        if chatId == 0 {
          return;
        }
        var line;
        if msg.action.Some? {
          line := "* " + msg.nick + " " + msg.action.value;
        } else {
          line := msg.nick + "> " + msg.text;
        }
        SendToChat(line, chatId);
      }
    }

    /** Sees every message the bot sends to IRC: forwards the PRIVMSGs not tagged as
        coming from Telegram, and passes every message on unchanged. */
    method OutFilter(msg: IrcMsg, channels: seq<string>, config: map<string, int>) returns (r: IrcMsg)
      modifies this`sent
      ensures r == msg
      ensures sent == old(sent) + (if msg.command == "PRIVMSG" && !msg.fromTelegram
                                   then Sends(msg, channels, config) else [])
    {
      if msg.command == "PRIVMSG" && !msg.fromTelegram {
        DoPrivmsg(msg, channels, config);
      }
      r := msg;
    }

    /** The topic handler as written: with one argument it returns; with none, reading
        the channel raises IndexError; with a topic, `_send_to_chat` is called without
        its chat id and raises TypeError. Nothing is ever sent. */
    method DoTopic(args: seq<string>) returns (raised: bool)
      ensures raised <==> |args| != 1
    {
      if |args| == 1 {
        return false;
      }
      raised := true;
    }
  }
}
