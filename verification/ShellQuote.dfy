/** The login command an operator pastes into a shell (provider-availability.ts), and the shell
    that reads it back: token recognition and quoting of the POSIX Shell Command Language,
    sections 2.2.1, 2.2.2 and 2.3. */
module ShellQuote {
  import opened Options

  // ---------- Rendering ----------

  predicate SafeChar(c: char) {
    || 'A' <= c <= 'Z' || 'a' <= c <= 'z' || '0' <= c <= '9' || c == '_' || c == '@' || c == '%'
    || c == '+' || c == '=' || c == ':' || c == ',' || c == '.' || c == '/' || c == '-'
  }

  predicate Safe(word: string) {
    word != "" && forall k | 0 <= k < |word| :: SafeChar(word[k])
  }

  /** `replaceAll("'", "'\\''")`. */
  function EscapeQuotes(word: string): string {
    if word == "" then ""
    else (if word[0] == '\'' then "'\\''" else [word[0]]) + EscapeQuotes(word[1..])
  }

  function Quote(word: string): string {
    if Safe(word) then word else "'" + EscapeQuotes(word) + "'"
  }

  function Render(words: seq<string>): string
    requires words != []
  {
    if |words| == 1 then Quote(words[0]) else Quote(words[0]) + " " + Render(words[1..])
  }

  /** A value in the agent's `terminal-auth` block, as far as the renderer looks at it. */
  datatype Arg = Word(text: string) | NotAString

  function StringsOf(args: seq<Arg>): seq<string> {
    if args == [] then []
    else (if args[0].Word? then [args[0].text] else []) + StringsOf(args[1..])
  }

  /** Of arguments `a` and then `b`: those of `a` that are strings, and then those of `b`. */
  lemma {:induction false} StringsInOrder(a: seq<Arg>, b: seq<Arg>, text: string)
    ensures StringsOf(a + b) == StringsOf(a) + StringsOf(b)
    ensures StringsOf([Word(text)]) == [text] && StringsOf([NotAString]) == []
    decreases |a|
  {
    assert [Word(text)][1..] == [] && [NotAString][1..] == [];
    if a == [] {
      assert a + b == b;
    } else {
      assert (a + b)[1..] == a[1..] + b;
      StringsInOrder(a[1..], b, text);
    }
  }

  /** `terminalCommand`: the rendered command line, or none without a command. */
  function TerminalCommand(command: Arg, args: seq<Arg>): Option<string> {
    if command.NotAString? || command.text == "" then None
    else Some(Render([command.text] + StringsOf(args)))
  }

  // ---------- Reading ----------

  /** Where the shell is while it reads: between words, in a word, or inside single quotes. */
  datatype State =
    | Between(words: seq<string>)
    | InWord(words: seq<string>, word: string)
    | InQuotes(words: seq<string>, word: string)
    | Escaped(words: seq<string>, word: string, begun: bool)
    | Unsupported  // a character that starts something other than a literal word

  /** Characters that outside quotes mean something to the shell: operators, expansions, patterns,
      comments and the newline that ends a command. */
  predicate Special(c: char) {
    || c == '|' || c == '&' || c == ';' || c == '<' || c == '>' || c == '(' || c == ')'
    || c == '$' || c == '`' || c == '\"' || c == '*' || c == '?' || c == '[' || c == '#'
    || c == '~' || c == '\n' || c == '{' || c == '}' || c == '!' || c == '^'
  }

  function Step(s: State, c: char): State {
    match s
    case Unsupported => Unsupported
    case InQuotes(words, word) =>
      // 2.2.2: every character up to the next single quote is itself
      if c == '\'' then InWord(words, word) else InQuotes(words, word + [c])
    case Escaped(words, word, begun) =>
      // 2.2.1: the next character is itself, except that an escaped newline is removed
      if c == '\n' then (if begun then InWord(words, word) else Between(words))
      else InWord(words, word + [c])
    case Between(words) =>
      if c == ' ' || c == '\t' then s
      else if c == '\'' then InQuotes(words, "")
      else if c == '\\' then Escaped(words, "", false)
      else if Special(c) then Unsupported
      else InWord(words, [c])
    case InWord(words, word) =>
      // 2.3: an unquoted blank delimits the token
      if c == ' ' || c == '\t' then Between(words + [word])
      else if c == '\'' then InQuotes(words, word)
      else if c == '\\' then Escaped(words, word, true)
      else if Special(c) then Unsupported
      else InWord(words, word + [c])
  }

  function Run(s: State, text: string): State
    decreases |text|
  {
    if text == "" then s else Run(Step(s, text[0]), text[1..])
  }

  /** The words of a command line, or none for an unfinished quote or anything but plain words. */
  function Tokens(text: string): Option<seq<string>> {
    match Run(Between([]), text)
    case Between(words) => Some(words)
    case InWord(words, word) => Some(words + [word])
    case _ => None
  }

  // ---------- The round trip ----------

  lemma {:induction false} RunAppend(s: State, a: string, b: string)
    ensures Run(s, a + b) == Run(Run(s, a), b)
    decreases |a|
  {
    if a == "" {
      assert a + b == b;
    } else {
      assert (a + b)[1..] == a[1..] + b;
      RunAppend(Step(s, a[0]), a[1..], b);
    }
  }

  lemma {:induction false} SafeRuns(words: seq<string>, word: string, more: string)
    requires forall k | 0 <= k < |more| :: SafeChar(more[k])
    ensures Run(InWord(words, word), more) == InWord(words, word + more)
    decreases |more|
  {
    if more == "" {
      assert word + more == word;
    } else {
      SafeRuns(words, word + [more[0]], more[1..]);
      assert word + [more[0]] + more[1..] == word + more;
    }
  }

  /** One quote of the word, written as close, escaped quote, reopen. */
  lemma {:induction false} QuoteRuns(words: seq<string>, word: string, rest: string)
    ensures Run(InQuotes(words, word), "'\\''" + rest) == Run(InQuotes(words, word + "'"), rest)
  {
    var text := "'\\''" + rest;
    var s0 := InQuotes(words, word);
    assert Step(s0, '\'') == InWord(words, word);
    assert Step(InWord(words, word), '\\') == Escaped(words, word, true);
    assert Step(Escaped(words, word, true), '\'') == InWord(words, word + "'");
    assert Step(InWord(words, word + "'"), '\'') == InQuotes(words, word + "'");
    assert text[1..] == "\\''" + rest;
    assert ("\\''" + rest)[1..] == "''" + rest;
    assert ("''" + rest)[1..] == "'" + rest;
    assert ("'" + rest)[1..] == rest;
    assert Run(s0, text) == Run(InWord(words, word), "\\''" + rest);
    assert Run(InWord(words, word), "\\''" + rest) == Run(Escaped(words, word, true), "''" + rest);
    assert Run(Escaped(words, word, true), "''" + rest) == Run(InWord(words, word + "'"), "'" + rest);
  }

  lemma {:induction false} EscapeRuns(words: seq<string>, word: string, more: string)
    ensures Run(InQuotes(words, word), EscapeQuotes(more)) == InQuotes(words, word + more)
    decreases |more|
  {
    if more == "" {
      assert word + more == word;
    } else {
      var rest := EscapeQuotes(more[1..]);
      if more[0] == '\'' {
        QuoteRuns(words, word, rest);
      } else {
        assert ([more[0]] + rest)[1..] == rest;
      }
      EscapeRuns(words, word + [more[0]], more[1..]);
      assert word + [more[0]] + more[1..] == word + more;
    }
  }

  /** A quoted word, read from between words, leaves the shell in exactly that word. */
  lemma {:induction false} WordRuns(words: seq<string>, word: string)
    ensures Run(Between(words), Quote(word)) == InWord(words, word)
  {
    if Safe(word) {
      assert SafeChar(word[0]);
      SafeRuns(words, [word[0]], word[1..]);
      assert [word[0]] + word[1..] == word;
    } else {
      var body := EscapeQuotes(word) + "'";
      assert Quote(word) == "'" + body && ("'" + body)[1..] == body;
      RunAppend(InQuotes(words, ""), EscapeQuotes(word), "'");
      EscapeRuns(words, "", word);
      assert "" + word == word;
      assert Run(InQuotes(words, word), "'") == Run(InWord(words, word), "'"[1..]);
    }
  }

  lemma {:induction false} RenderRuns(before: seq<string>, words: seq<string>)
    requires words != []
    ensures var last := |words| - 1;
            Run(Between(before), Render(words)) == InWord(before + words[..last], words[last])
    decreases |words|
  {
    if |words| == 1 {
      WordRuns(before, words[0]);
      assert before + words[..0] == before;
    } else {
      NextWord(before, words[0], Render(words[1..]));
      RenderRuns(before + [words[0]], words[1..]);
      Shift(before, words);
    }
  }

  lemma {:induction false} Shift(before: seq<string>, words: seq<string>)
    requires |words| > 1
    ensures before + [words[0]] + words[1..][..|words| - 2] == before + words[..|words| - 1]
    ensures words[1..][|words| - 2] == words[|words| - 1]
  {
  }

  lemma {:induction false} NextWord(before: seq<string>, word: string, rest: string)
    ensures Run(Between(before), Quote(word) + " " + rest) == Run(Between(before + [word]), rest)
  {
    var tail := " " + rest;
    assert Quote(word) + " " + rest == Quote(word) + tail && tail[1..] == rest;
    RunAppend(Between(before), Quote(word), tail);
    WordRuns(before, word);
  }

  /** Whatever the words hold, quotes, blanks, newlines or nothing at all, a shell reads the
      rendered line as exactly those words. */
  lemma {:induction false} ShellReadsBack(words: seq<string>)
    requires words != []
    ensures Tokens(Render(words)) == Some(words)
  {
    RenderRuns([], words);
    AllWords(words);
  }

  lemma {:induction false} AllWords(words: seq<string>)
    requires words != []
    ensures [] + words[..|words| - 1] + [words[|words| - 1]] == words
  {
  }

  /** The login command an agent advertised runs that command with its string arguments. */
  lemma {:induction false} TerminalCommandReadsBack(command: Arg, args: seq<Arg>)
    ensures TerminalCommand(command, args).None? <==> command.NotAString? || command.text == ""
    ensures TerminalCommand(command, args).Some? ==>
              Tokens(TerminalCommand(command, args).value) == Some([command.text] + StringsOf(args))
  {
    if command.Word? && command.text != "" { ShellReadsBack([command.text] + StringsOf(args)); }
  }

  /** Two different lists of words never render to the same line. */
  lemma {:induction false} RenderIsInjective(xs: seq<string>, ys: seq<string>)
    requires xs != [] && ys != [] && Render(xs) == Render(ys)
    ensures xs == ys
  {
    ShellReadsBack(xs);
    ShellReadsBack(ys);
  }
}
