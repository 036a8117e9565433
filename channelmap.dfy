/** The lookup between joined IRC channels and Telegram chat ids
    (plugin.py, `_get_channel_from_chat` and the chat id check of `doPrivmsg`). */
module ChannelMap {
  import opened Optional
  import opened Telegram

  /** The `tgChatId` registry value of a channel. A channel the registry has no value
      for reads as 0, the value that means "not bound to any chat". */
  function ChatIdOf(config: map<string, int>, channel: string): int {
    if channel in config then config[channel] else 0
  }

  /** The dictionary `{tgChatId(ch): ch for ch in channels}`; a later channel with the
      same chat id overwrites an earlier one. */
  function ChatIndex(channels: seq<string>, config: map<string, int>): (index: map<int, string>)
    ensures forall id :: id in index ==> ChatIdOf(config, index[id]) == id
    decreases |channels|
  {
    if channels == [] then map[]
    else
      var last := channels[|channels| - 1];
      ChatIndex(channels[..|channels| - 1], config)[ChatIdOf(config, last) := last]
  }

  /** No channel after position i carries the chat id of channels[i]. */
  predicate IsLastWithItsId(channels: seq<string>, config: map<string, int>, i: int) {
    0 <= i < |channels| &&
    forall j :: i < j < |channels| ==> ChatIdOf(config, channels[j]) != ChatIdOf(config, channels[i])
  }

  /** The keys of the index are the chat ids of the channels, and each maps to the last
      channel carrying it. */
  lemma {:induction false} ChatIndexLookup(channels: seq<string>, config: map<string, int>)
    ensures forall i :: 0 <= i < |channels| ==> ChatIdOf(config, channels[i]) in ChatIndex(channels, config)
    ensures forall id :: id in ChatIndex(channels, config) ==>
              exists i :: IsLastWithItsId(channels, config, i) && channels[i] == ChatIndex(channels, config)[id]
                          && ChatIdOf(config, channels[i]) == id
    decreases |channels|
  {
    if channels != [] {
      var n := |channels| - 1;
      var prefix := channels[..n];
      var index := ChatIndex(channels, config);
      var key := ChatIdOf(config, channels[n]);
      ChatIndexLookup(prefix, config);
      assert index == ChatIndex(prefix, config)[key := channels[n]];
      forall i | 0 <= i < |channels| ensures ChatIdOf(config, channels[i]) in index {
        if i < n {
          assert prefix[i] == channels[i];
        }
      }
      forall id | id in index
        ensures exists i :: IsLastWithItsId(channels, config, i) && channels[i] == index[id]
                            && ChatIdOf(config, channels[i]) == id
      {
        if id == key {
          assert IsLastWithItsId(channels, config, n);
        } else {
          var i :| IsLastWithItsId(prefix, config, i) && prefix[i] == ChatIndex(prefix, config)[id]
                   && ChatIdOf(config, prefix[i]) == id;
          assert channels[i] == prefix[i];
          forall j | i < j < |channels| ensures ChatIdOf(config, channels[j]) != id {
            if j < n {
              assert channels[j] == prefix[j];
            }
          }
          assert IsLastWithItsId(channels, config, i);
        }
      }
    }
  }

  /** The joined channel bound to a chat id: the last channel, in join order, whose
      `tgChatId` is that id, or None when no joined channel carries it. */
  function ChannelForChatId(channels: seq<string>, config: map<string, int>, id: int): (r: Option<string>)
    ensures r.None? <==> forall i :: 0 <= i < |channels| ==> ChatIdOf(config, channels[i]) != id
    ensures r.Some? ==> exists i :: IsLastWithItsId(channels, config, i) && channels[i] == r.value
                                    && ChatIdOf(config, channels[i]) == id
  {
    ChatIndexLookup(channels, config);
    var index := ChatIndex(channels, config);
    if id in index then Some(index[id]) else None
  }

  /** The channel a Telegram message is relayed to; None when the message has no chat
      or its chat has no id. */
  function ChannelForChat(m: Message, channels: seq<string>, config: map<string, int>): (r: Option<string>)
    ensures m.chat.None? || m.chat.value.id.None? ==> r.None?
    ensures m.chat.Some? && m.chat.value.id.Some? ==> r == ChannelForChatId(channels, config, m.chat.value.id.value)
  {
    match m.chat
    case None => None
    case Some(chat) =>
      match chat.id
      case None => None
      case Some(id) => ChannelForChatId(channels, config, id)
  }

  /** The chat a channel's messages go to; None when the channel is unbound (chat id 0). */
  function ChatForChannel(config: map<string, int>, channel: string): (r: Option<int>)
    ensures r.Some? ==> r.value != 0 && channel in config && config[channel] == r.value
    ensures r.None? ==> channel !in config || config[channel] == 0
  {
    var id := ChatIdOf(config, channel);
    if id == 0 then None else Some(id)
  }

  /** No two different joined channels are bound to the same chat. */
  predicate DistinctBindings(channels: seq<string>, config: map<string, int>) {
    forall i, j :: 0 <= i < |channels| && 0 <= j < |channels| && channels[i] != channels[j]
                   && ChatIdOf(config, channels[i]) != 0
                   ==> ChatIdOf(config, channels[i]) != ChatIdOf(config, channels[j])
  }

  /** With distinct bindings, the chat a joined channel sends to leads back to that channel. */
  lemma ChannelChatRoundTrip(channels: seq<string>, config: map<string, int>, channel: string)
    requires channel in channels && DistinctBindings(channels, config)
    requires ChatForChannel(config, channel).Some?
    ensures ChannelForChatId(channels, config, ChatForChannel(config, channel).value) == Some(channel)
  {
    var id := ChatForChannel(config, channel).value;
    var k :| 0 <= k < |channels| && channels[k] == channel;
    var r := ChannelForChatId(channels, config, id);
    assert r.Some?;
    var i :| IsLastWithItsId(channels, config, i) && channels[i] == r.value && ChatIdOf(config, channels[i]) == id;
  }

  /** A bound chat id found for a channel is that channel's own binding. */
  lemma ChatChannelRoundTrip(channels: seq<string>, config: map<string, int>, id: int)
    requires id != 0 && ChannelForChatId(channels, config, id).Some?
    ensures ChannelForChatId(channels, config, id).value in channels
    ensures ChatForChannel(config, ChannelForChatId(channels, config, id).value) == Some(id)
  {
  }
}
