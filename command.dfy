/** The `messageCreate` trigger: a message from a human author, sent inside a
    guild, whose content trimmed of surrounding white space is `!ticket`,
    makes the bot post the "Open Ticket" panel. */
module Command {

  const BotPrefix: string := "!"
  const TicketCommand: string := BotPrefix + "ticket"

  datatype Message = Message(authorIsBot: bool, inGuild: bool, content: string)

  /** The characters `String.prototype.trim` removes: ECMAScript WhiteSpace
      (tab, vertical tab, form feed, ZWNBSP and every space separator) and
      LineTerminator (LF, CR, LS, PS). */
  predicate IsWhiteSpace(c: char) {
    var n := c as int;
    || n == 0x09 || n == 0x0A || n == 0x0B || n == 0x0C || n == 0x0D
    || n == 0x20 || n == 0xA0 || n == 0x1680
    || (0x2000 <= n <= 0x200A)
    || n == 0x2028 || n == 0x2029 || n == 0x202F || n == 0x205F
    || n == 0x3000 || n == 0xFEFF
  }

  /** `s` with its leading white space removed. */
  function TrimStart(s: string): (r: string)
    ensures |r| <= |s| && r == s[|s| - |r|..]
    ensures forall k :: 0 <= k < |s| - |r| ==> IsWhiteSpace(s[k])
    ensures r == [] || !IsWhiteSpace(r[0])
  {
    if |s| > 0 && IsWhiteSpace(s[0]) then TrimStart(s[1..]) else s
  }

  /** `s` with its trailing white space removed. */
  function TrimEnd(s: string): (r: string)
    ensures |r| <= |s| && r == s[..|r|]
    ensures forall k :: |r| <= k < |s| ==> IsWhiteSpace(s[k])
    ensures r == [] || !IsWhiteSpace(r[|r| - 1])
  {
    if |s| > 0 && IsWhiteSpace(s[|s| - 1]) then TrimEnd(s[..|s| - 1]) else s
  }

  /** Trimming both ends leaves nothing exactly when every character is
      white space. */
  lemma TrimBlank(s: string)
    ensures TrimEnd(TrimStart(s)) == [] <==> forall k :: 0 <= k < |s| ==> IsWhiteSpace(s[k])
  {
    var t := TrimStart(s);
    var i := |s| - |t|;
    assert |t| > 0 ==> t[0] == s[i];
  }

  /** JavaScript's `s.trim()`: the result is empty exactly for a blank
      string, and otherwise neither starts nor ends with white space. */
  function Trim(s: string): (r: string)
    ensures r == [] <==> forall k :: 0 <= k < |s| ==> IsWhiteSpace(s[k])
    ensures r == [] || (!IsWhiteSpace(r[0]) && !IsWhiteSpace(r[|r| - 1]))
  {
    TrimBlank(s);
    TrimEnd(TrimStart(s))
  }

  /** `word` sits at index `i` of `s` and every other character of `s` is
      white space. */
  predicate PaddedAt(s: string, word: string, i: int) {
    && 0 <= i && i + |word| <= |s| && s[i..i + |word|] == word
    && forall k :: 0 <= k < |s| && (k < i || i + |word| <= k) ==> IsWhiteSpace(s[k])
  }

  predicate IsPadded(s: string, word: string) {
    exists i :: 0 <= i <= |s| && PaddedAt(s, word, i)
  }

  /** Whether the handler at `messageCreate` posts the ticket panel: a human
      author, inside a guild, and `!ticket` with nothing but white space
      around it. */
  function IsTicketCommand(m: Message): (accepted: bool)
    ensures accepted <==> !m.authorIsBot && m.inGuild && IsPadded(m.content, TicketCommand)
  {
    TrimmedIsCommand(m.content);
    !m.authorIsBot && m.inGuild && Trim(m.content) == TicketCommand
  }

  /** Leading trim removes a white-space prefix and stops at the first
      character that is not white space. */
  lemma TrimStartPadded(pre: string, rest: string)
    requires forall k :: 0 <= k < |pre| ==> IsWhiteSpace(pre[k])
    requires |rest| > 0 && !IsWhiteSpace(rest[0])
    ensures TrimStart(pre + rest) == rest
  {
    var s := pre + rest;
    var t := TrimStart(s);
    assert s[|pre|] == rest[0];
  }

  /** Trailing trim removes a white-space suffix and stops at the last
      character that is not white space. */
  lemma TrimEndPadded(rest: string, post: string)
    requires forall k :: 0 <= k < |post| ==> IsWhiteSpace(post[k])
    requires |rest| > 0 && !IsWhiteSpace(rest[|rest| - 1])
    ensures TrimEnd(rest + post) == rest
  {
    var s := rest + post;
    var u := TrimEnd(s);
    assert s[|rest| - 1] == rest[|rest| - 1];
  }

  /** Trimming gives back exactly the word between white-space padding, so
      `"  !ticket\n"` is the command and `"!tickets"` is not. */
  lemma TrimPadded(pre: string, word: string, post: string)
    requires forall k :: 0 <= k < |pre| ==> IsWhiteSpace(pre[k])
    requires forall k :: 0 <= k < |post| ==> IsWhiteSpace(post[k])
    requires |word| > 0 && !IsWhiteSpace(word[0]) && !IsWhiteSpace(word[|word| - 1])
    ensures Trim(pre + word + post) == word
  {
    assert pre + word + post == pre + (word + post);
    TrimStartPadded(pre, word + post);
    TrimEndPadded(word, post);
  }

  /** The trigger ignores bots and direct messages, and accepts the command
      with any surrounding white space. */
  lemma TicketCommandAccepted(m: Message, pre: string, post: string)
    requires forall k :: 0 <= k < |pre| ==> IsWhiteSpace(pre[k])
    requires forall k :: 0 <= k < |post| ==> IsWhiteSpace(post[k])
    requires m.content == pre + TicketCommand + post
    ensures IsTicketCommand(m) <==> !m.authorIsBot && m.inGuild
  {
    TrimPadded(pre, TicketCommand, post);
  }

  /** A content that trims to `word` is `word` padded with white space. */
  lemma TrimmedIsPadded(s: string, word: string)
    requires Trim(s) == word
    ensures IsPadded(s, word)
  {
    var t := TrimStart(s);
    var i := |s| - |t|;
    assert s[i..i + |word|] == t[..|word|];
    forall k | 0 <= k < |s| && i + |word| <= k
      ensures IsWhiteSpace(s[k])
    {
      assert s[k] == t[k - i];
    }
    assert PaddedAt(s, word, i);
  }

  /** A padded `word` trims to `word`, when its ends are not white space. */
  lemma PaddedIsTrimmed(s: string, word: string)
    requires IsPadded(s, word)
    requires |word| > 0 && !IsWhiteSpace(word[0]) && !IsWhiteSpace(word[|word| - 1])
    ensures Trim(s) == word
  {
    var i :| 0 <= i <= |s| && PaddedAt(s, word, i);
    var pre, post := s[..i], s[i + |word|..];
    assert s == pre + word + post;
    forall k | 0 <= k < |pre| ensures IsWhiteSpace(pre[k]) {
      assert pre[k] == s[k];
    }
    forall k | 0 <= k < |post| ensures IsWhiteSpace(post[k]) {
      assert post[k] == s[i + |word| + k];
    }
    TrimPadded(pre, word, post);
  }

  /** A content trims to `!ticket` exactly when it is `!ticket` with only
      white space around it. */
  lemma TrimmedIsCommand(s: string)
    ensures Trim(s) == TicketCommand <==> IsPadded(s, TicketCommand)
  {
    var w := TicketCommand;
    assert !IsWhiteSpace(w[0]) && !IsWhiteSpace(w[|w| - 1]);
    if Trim(s) == w {
      TrimmedIsPadded(s, w);
    }
    if IsPadded(s, w) {
      PaddedIsTrimmed(s, w);
    }
  }
}
