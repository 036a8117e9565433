/** The bot's own Telegram id, read from its token "<ID>:<COOKIE>" (plugin.py:57). */
module Identity {
  import opened Optional
  import opened Text

  /** `token.split(":", 1)[0]`: the token up to its first ':', or all of it. */
  function TokenPrefix(token: string): (p: string)
    ensures ':' !in p
    ensures p <= token
    ensures p == token || token[|p|] == ':'
    decreases |token|
  {
    if token == "" || token[0] == ':' then "" else [token[0]] + TokenPrefix(token[1..])
  }

  /** The integer before the first ':' of the token; None where `int` raises
      ValueError, in which case the source logs an error and leaves its `_tgId` unset. */
  function ParseBotId(token: string): (id: Option<int>)
    ensures id.Some? ==> 0 < |token| && (IsDigit(token[0]) || token[0] == '-' || token[0] == '+')
    ensures id.Some? && token[0] == '-' ==> id.value <= 0
    ensures id.Some? && token[0] != '-' ==> id.value >= 0
  {
    ParseInt(TokenPrefix(token))
  }

  /** A token made of an id, ':' and any cookie yields that id. */
  lemma BotIdFromToken(id: int, cookie: string)
    ensures ParseBotId(IntToDecimal(id) + ":" + cookie) == Some(id)
  {
    var digits := IntToDecimal(id);
    var token := digits + ":" + cookie;
    assert token[|digits|] == ':';
    PrefixUpToColon(token, digits);
    IntDecimalRoundTrip(id);
  }

  lemma {:induction false} PrefixUpToColon(token: string, p: string)
    requires p <= token && ':' !in p && |p| < |token| && token[|p|] == ':'
    ensures TokenPrefix(token) == p
    decreases |p|
  {
    if p != "" {
      assert token[0] == p[0];
      PrefixUpToColon(token[1..], p[1..]);
    }
  }

  /** Only the part before the first ':' decides the id: the cookie never does. */
  lemma CookieIgnored(prefix: string, cookie: string, other: string)
    requires ':' !in prefix
    ensures ParseBotId(prefix + ":" + cookie) == ParseBotId(prefix + ":" + other)
  {
    var t, u := prefix + ":" + cookie, prefix + ":" + other;
    assert t[|prefix|] == ':' && u[|prefix|] == ':';
    PrefixUpToColon(t, prefix);
    PrefixUpToColon(u, prefix);
  }

  /** A token without a numeric prefix yields no id. */
  lemma NonNumericTokenHasNoId(token: string)
    requires 0 < |token| && token[0] != '-' && token[0] != '+' && !IsDigit(token[0])
    ensures ParseBotId(token) == None
  {
  }
}
