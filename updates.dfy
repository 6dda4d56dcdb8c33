/**
  The inbound events the two conversations react to, and the message
  filters of their transition tables (bot.py:457-489).
 */
module Updates {
  import opened Text

  datatype Update =
    | ButtonPress(data: string)           // a callback query carrying the button's data
    | TextMessage(text: string)           // a text message; commands are texts too
    | ContactMessage(phoneNumber: string) // a shared contact card

  /** A character of a bot command name. */
  predicate IsCommandChar(c: char) {
    'a' <= c <= 'z' || 'A' <= c <= 'Z' || IsDigit(c) || c == '_'
  }

  /**
    A character that, right after a command name, keeps Telegram from
    marking a bot command: '/', '<', '>', or a letter outside ASCII (of
    those, the model knows the Cyrillic letters U+0400 to U+0481 and U+048A
    to U+04FF).
   */
  predicate BreaksCommand(c: char) {
    || c == '/' || c == '<' || c == '>'
    || '\U{0400}' <= c <= '\U{0481}'
    || '\U{048A}' <= c <= '\U{04FF}'
  }

  /** The longest command name Telegram marks. */
  const MaxCommandName: nat := 64

  /** The leading run of command characters. */
  function CommandChars(s: string): (r: string)
    ensures r <= s
    ensures forall i :: 0 <= i < |r| ==> IsCommandChar(r[i])
    ensures |r| < |s| ==> !IsCommandChar(s[|r|])
  {
    if s != [] && IsCommandChar(s[0]) then [s[0]] + CommandChars(s[1..]) else []
  }

  /** The command entity may end at offset `q`: the text ends there or goes on with a character that does not break it. */
  predicate CommandEndsAt(text: string, q: int) {
    q >= |text| || (0 <= q && !BreaksCommand(text[q]))
  }

  /**
    `Filters.command`: the text opens with a bot command entity, which
    Telegram marks for '/', a name of 1 to 64 command characters and an
    optional `@username`, when the character after them does not break it.
   */
  predicate IsCommand(text: string) {
    && |text| >= 2 && text[0] == '/'
    && var name := CommandChars(text[1..]);
    && 1 <= |name| <= MaxCommandName
    && var p := |name| + 1;
    && if p < |text| && text[p] == '@' then CommandEndsAt(text, p + 1 + |CommandChars(text[p + 1..])|)
       else CommandEndsAt(text, p)
  }

  /**
    `CommandHandler("cancel")`: the command's name is "cancel", in any letter
    case. A `@username` right after the name is accepted only when it is the
    bot's own username, which is not part of this model, so every command
    addressed with `@` is refused.
   */
  predicate IsCancelCommand(text: string) {
    && IsCommand(text)
    && var name := CommandChars(text[1..]);
    && Lower(name) == "cancel"
    && (|name| + 1 == |text| || text[|name| + 1] != '@')
  }

  /** The leading run of command characters of a word followed by a non-command character. */
  lemma {:induction false} CommandCharsOf(w: string, rest: string)
    requires forall i :: 0 <= i < |w| ==> IsCommandChar(w[i])
    requires rest == [] || !IsCommandChar(rest[0])
    ensures CommandChars(w + rest) == w
  {
    if w != [] {
      assert (w + rest)[1..] == w[1..] + rest;
      CommandCharsOf(w[1..], rest);
    }
  }

  /** The command's name as the handler reads it: the command word after the slash. */
  lemma {:induction false} CommandNameOf(w: string, rest: string)
    requires w != [] && forall i :: 0 <= i < |w| ==> IsCommandChar(w[i])
    requires rest == [] || !IsCommandChar(rest[0])
    ensures |"/" + w + rest| >= 2 && ("/" + w + rest)[0] == '/'
    ensures CommandChars(("/" + w + rest)[1..]) == w
    ensures |w| + 1 == |"/" + w + rest| <==> rest == []
    ensures rest != [] ==> ("/" + w + rest)[|w| + 1] == rest[0]
  {
    var text := "/" + w + rest;
    assert text[1..] == w + rest;
    CommandCharsOf(w, rest);
  }

  /** "/cancel" in any letter case cancels, alone or followed by a character that neither extends, addresses nor breaks it. */
  lemma CancelCommandAccepted(w: string, rest: string)
    requires w != [] && forall i :: 0 <= i < |w| ==> IsCommandChar(w[i])
    requires rest == [] || (!IsCommandChar(rest[0]) && rest[0] != '@' && !BreaksCommand(rest[0]))
    requires Lower(w) == "cancel"
    ensures IsCancelCommand("/" + w + rest)
  {
    CommandNameOf(w, rest);
    LowerEach(w);
  }

  /** A command addressed to a bot with `@` never cancels here. */
  lemma AddressedCommandRefused(w: string, rest: string)
    requires w != [] && forall i :: 0 <= i < |w| ==> IsCommandChar(w[i])
    ensures !IsCancelCommand("/" + w + "@" + rest)
  {
    assert "/" + w + "@" + rest == "/" + w + ("@" + rest);
    CommandNameOf(w, "@" + rest);
  }

  /** A name followed by '/', '<', '>' or a Cyrillic letter is no command: "/r/Kyiv" is plain text. */
  lemma BrokenCommandIsText(w: string, c: char, rest: string)
    requires w != [] && forall i :: 0 <= i < |w| ==> IsCommandChar(w[i])
    requires BreaksCommand(c)
    ensures !IsCommand("/" + w + [c] + rest)
  {
    assert "/" + w + [c] + rest == "/" + w + ([c] + rest);
    CommandNameOf(w, [c] + rest);
  }

  /** A name longer than 64 characters is no command. */
  lemma LongNameIsText(w: string, rest: string)
    requires |w| > MaxCommandName && forall i :: 0 <= i < |w| ==> IsCommandChar(w[i])
    requires rest == [] || !IsCommandChar(rest[0])
    ensures !IsCommand("/" + w + rest)
  {
    CommandNameOf(w, rest);
  }

  /** `Filters.text & ~Filters.command`. */
  predicate IsPlainText(u: Update) {
    u.TextMessage? && !IsCommand(u.text)
  }

  /** The conversations' `/cancel` fallback. */
  predicate IsCancelFallback(u: Update) {
    u.TextMessage? && IsCancelCommand(u.text)
  }

  /** The cancel word is plain text, not a command. */
  lemma CancelWordIsPlainText(text: string)
    requires IsCancel(text)
    ensures !IsCommand(text)
  {
    LowerEach(Strip(text));
    TrimLeftSuffix(text);
    TrimRightPrefix(TrimLeft(text));
  }
}
