/** The rewrite applied to a line fed back to supybot (plugin.py, `_feed_to_supybot`):
    the regular expression `^/([^\s@]+)(?:@\w+)` replaced by `|\1`, so that a Telegram
    bot command `/cmd@botname` reaches supybot as its own command `|cmd`. */
module Commands {

  /** `\s` of the pattern, on ASCII: space, tab, line feed, vertical tab, form feed,
      return, and the file, group, record and unit separators 0x1C-0x1F, which
      `str.isspace` also counts as white space. */
  predicate IsSpace(c: char) {
    c == ' ' || ('\t' <= c <= '\r') || ('\U{1C}' <= c <= '\U{1F}')
  }

  /** `\w` of the pattern, on ASCII: letters, digits and the underscore. */
  predicate IsWordChar(c: char) {
    ('a' <= c <= 'z') || ('A' <= c <= 'Z') || ('0' <= c <= '9') || c == '_'
  }

  /** `[^\s@]` of the pattern. */
  predicate IsCommandChar(c: char) {
    !IsSpace(c) && c != '@'
  }

  /** The end of the longest run of characters satisfying `inClass` that starts at i. */
  function RunEnd(s: string, i: nat, inClass: char -> bool): (j: nat)
    requires i <= |s|
    ensures i <= j <= |s|
    ensures forall k :: i <= k < j ==> inClass(s[k])
    ensures j < |s| ==> !inClass(s[j])
    decreases |s| - i
  {
    if i == |s| || !inClass(s[i]) then i else RunEnd(s, i + 1, inClass)
  }

  /** s starts with a match of the pattern: "/" then the command s[1..c], then "@"
      at c, then the bot name s[c+1..w], which the pattern takes as far as it goes. */
  predicate BotCommandAt(s: string, c: int, w: int) {
    && 1 < c && c + 1 < w <= |s|
    && s[0] == '/'
    && (forall k :: 1 <= k < c ==> IsCommandChar(s[k]))
    && s[c] == '@'
    && (forall k :: c < k < w ==> IsWordChar(s[k]))
    && (w == |s| || !IsWordChar(s[w]))
  }

  /** The line after the substitution: unchanged, or a line that started with '/' now
      starting with '|' and shorter by at least the '@' and one bot-name character. */
  function RewriteBotCommand(s: string): (r: string)
    ensures r == s || (0 < |s| && s[0] == '/' && 0 < |r| < |s| - 1 && r[0] == '|')
  {
    if 0 < |s| && s[0] == '/' then
      var c := RunEnd(s, 1, IsCommandChar);
      if c < |s| && 1 < c && s[c] == '@' then
        var w := RunEnd(s, c + 1, IsWordChar);
        if c + 1 < w then "|" + s[1..c] + s[w..] else s
      else s
    else s
  }

  /** Where the pattern matches, "/cmd@bot" becomes "|cmd" and the rest of the line is kept. */
  lemma RewriteAppliesToBotCommand(s: string, c: int, w: int)
    requires BotCommandAt(s, c, w)
    ensures RewriteBotCommand(s) == "|" + s[1..c] + s[w..]
  {
    var c' := RunEnd(s, 1, IsCommandChar);
    assert c' == c;
    var w' := RunEnd(s, c + 1, IsWordChar);
    assert w' == w;
  }

  /** Where the pattern does not match, the line is fed unchanged. */
  lemma RewriteLeavesOtherLines(s: string)
    requires forall c, w :: !BotCommandAt(s, c, w)
    ensures RewriteBotCommand(s) == s
  {
    if 0 < |s| && s[0] == '/' {
      var c := RunEnd(s, 1, IsCommandChar);
      if c < |s| && 1 < c && s[c] == '@' {
        var w := RunEnd(s, c + 1, IsWordChar);
        if c + 1 < w {
          assert BotCommandAt(s, c, w);
        }
      }
    }
  }

  /** A rewritten line is not rewritten again: it starts with '|', not '/'. */
  lemma RewriteIdempotent(s: string)
    ensures RewriteBotCommand(RewriteBotCommand(s)) == RewriteBotCommand(s)
  {
  }

  /** The pattern stated on its parts: a command of non-space, non-'@' characters and a
      bot name of word characters, followed by anything that does not continue the name. */
  lemma RewriteCommandForm(command: string, bot: string, rest: string)
    requires command != "" && forall k :: 0 <= k < |command| ==> IsCommandChar(command[k])
    requires bot != "" && forall k :: 0 <= k < |bot| ==> IsWordChar(bot[k])
    requires rest == "" || !IsWordChar(rest[0])
    ensures RewriteBotCommand("/" + command + "@" + bot + rest) == "|" + command + rest
  {
    var s := "/" + command + "@" + bot + rest;
    var c := 1 + |command|;
    var w := c + 1 + |bot|;
    assert forall k :: 1 <= k < c ==> s[k] == command[k - 1];
    assert forall k :: c < k < w ==> s[k] == bot[k - c - 1];
    assert w < |s| ==> s[w] == rest[0];
    assert BotCommandAt(s, c, w);
    RewriteAppliesToBotCommand(s, c, w);
    assert s[1..c] == command;
    assert s[w..] == rest;
  }
}
