/**
 * Shell quoting: shellQuote and shellJoin of ntfy-bridge/sse.go, shellEscape of server/src/terminal-manager.ts,
 * against the quoting rules of the POSIX.1-2017 Shell Command Language, sections 2.2.1 to 2.2.3.
 */
module ShellQuoting {
  import opened Options

  // ---------------------------------------------------------------- the shell's side

  datatype Mode = Between | Unquoted | InSingle | InDouble

  predicate IsBlank(c: char) {
    c == ' ' || c == '\t'
  }

  /** Section 2.2: characters that mean something else when they are not quoted. */
  predicate IsSpecial(c: char) {
    c in "|&;<>()$`*?[#~\n"
  }

  /** Section 2.2.3: what a backslash still quotes between double-quotes. */
  predicate EscapedInDouble(c: char) {
    c in "$`\"\\"
  }

  /**
   * Splits a line into words and removes the quotes.  None: a quote is not closed, or the line holds
   * an operator, an expansion or a pattern, and so is more than a list of plain words.
   */
  function Lex(s: string, mode: Mode, word: string, words: seq<string>): Option<seq<string>>
    decreases |s|
  {
    if s == "" then
      match mode
      case Between => Some(words)
      case Unquoted => Some(words + [word])
      case _ => None
    else
      var c, rest := s[0], s[1..];
      match mode
      case InSingle => if c == '\'' then Lex(rest, Unquoted, word, words) else Lex(rest, InSingle, word + [c], words)
      case InDouble =>
        if c == '"' then Lex(rest, Unquoted, word, words)
        else if c == '\\' && rest != "" && rest[0] == '\n' then Lex(rest[1..], InDouble, word, words)
        else if c == '\\' && rest != "" && EscapedInDouble(rest[0]) then Lex(rest[1..], InDouble, word + [rest[0]], words)
        else if c == '$' || c == '`' then None
        else Lex(rest, InDouble, word + [c], words)
      case _ =>
        if IsBlank(c) then Lex(rest, Between, "", if mode == Between then words else words + [word])
        else if c == '\'' then Lex(rest, InSingle, word, words)
        else if c == '"' then Lex(rest, InDouble, word, words)
        else if c == '\\' then
          if rest == "" then None
          else if rest[0] == '\n' then Lex(rest[1..], mode, word, words)
          else Lex(rest[1..], Unquoted, word + [rest[0]], words)
        else if IsSpecial(c) then None
        else Lex(rest, Unquoted, word + [c], words)
  }

  function Tokenize(line: string): Option<seq<string>> {
    Lex(line, Between, "", [])
  }

  // ---------------------------------------------------------------- the program's side

  predicate IsSafeChar(c: char) {
    'a' <= c <= 'z' || 'A' <= c <= 'Z' || '0' <= c <= '9' || c in "@%_+=:,./-"
  }

  predicate AllSafe(value: string) {
    forall i :: 0 <= i < |value| ==> IsSafeChar(value[i])
  }

  method IsSafeShellWord(value: string) returns (safe: bool)
    ensures safe <==> AllSafe(value)
  {
    var i := 0;
    while i < |value|
      invariant 0 <= i <= |value| && AllSafe(value[..i])
    {
      if !IsSafeChar(value[i]) {
        return false;
      }
      assert forall j :: 0 <= j < i ==> value[j] == value[..i][j];
      i := i + 1;
    }
    assert value[..|value|] == value;
    safe := true;
  }

  /** Every single quote of s replaced. */
  function ReplaceQuotes(s: string, escape: string): string {
    if s == "" then "" else (if s[0] == '\'' then escape else [s[0]]) + ReplaceQuotes(s[1..], escape)
  }

  const DOUBLE_QUOTED_QUOTE := "'\"'\"'"
  const BACKSLASHED_QUOTE := "'\\''"

  function ShellQuote(value: string): string {
    if value == "" then "''"
    else if AllSafe(value) then value
    else "'" + ReplaceQuotes(value, DOUBLE_QUOTED_QUOTE) + "'"
  }

  function ShellEscape(s: string): string {
    "'" + ReplaceQuotes(s, BACKSLASHED_QUOTE) + "'"
  }

  function Join(parts: seq<string>, separator: string): string {
    if parts == [] then ""
    else if |parts| == 1 then parts[0]
    else parts[0] + separator + Join(parts[1..], separator)
  }

  function QuoteAll(args: seq<string>): seq<string> {
    seq(|args|, i requires 0 <= i < |args| => ShellQuote(args[i]))
  }

  method ShellJoin(args: seq<string>) returns (line: string)
    ensures line == Join(QuoteAll(args), " ")
    ensures Tokenize(line) == Some(args)
  {
    var quoted: seq<string> := [];
    var i := 0;
    while i < |args|
      invariant 0 <= i <= |args| && quoted == QuoteAll(args[..i])
    {
      quoted := quoted + [ShellQuote(args[i])];
      i := i + 1;
    }
    assert args[..|args|] == args;
    line := Join(quoted, " ");
    JoinRoundTrip(args);
  }

  lemma {:induction false} ReplacedLength(s: string, escape: string)
    requires escape != ""
    ensures |ReplaceQuotes(s, escape)| >= |s|
  {
    if s != "" { ReplacedLength(s[1..], escape); }
  }

  /** A word is left as it is exactly when it is not empty and all of it is safe. */
  lemma UnquotedIff(value: string)
    ensures ShellQuote(value) == value <==> value != "" && AllSafe(value)
  {
    ReplacedLength(value, DOUBLE_QUOTED_QUOTE);
  }

  // ---------------------------------------------------------------- round trips

  lemma SafeIsPlain(c: char)
    requires IsSafeChar(c)
    ensures !IsBlank(c) && !IsSpecial(c) && c != '\'' && c != '"' && c != '\\'
  {
  }

  lemma SafeStep(s: string, mode: Mode, word: string, words: seq<string>)
    requires s != "" && IsSafeChar(s[0]) && (mode == Between || mode == Unquoted)
    ensures Lex(s, mode, word, words) == Lex(s[1..], Unquoted, word + [s[0]], words)
  {
    hide IsSafeChar, IsSpecial, IsBlank;
    SafeIsPlain(s[0]);
  }

  lemma {:induction false} LexSafe(value: string, tail: string, mode: Mode, word: string, words: seq<string>)
    requires value != "" && AllSafe(value) && (mode == Between || mode == Unquoted)
    ensures Lex(value + tail, mode, word, words) == Lex(tail, Unquoted, word + value, words)
    decreases |value|
  {
    hide Lex, IsSafeChar;
    var s := value + tail;
    assert s[0] == value[0] && s[1..] == value[1..] + tail;
    SafeStep(s, mode, word, words);
    if value[1..] == "" {
      assert value == [value[0]] && s[1..] == tail;
    } else {
      LexSafe(value[1..], tail, Unquoted, word + [value[0]], words);
      assert word + [value[0]] + value[1..] == word + value;
    }
  }

  /** One character, in any mode that takes it literally. */
  lemma LexStep(s: string, mode: Mode, word: string, words: seq<string>)
    requires s != ""
    ensures mode == InSingle && s[0] == '\'' ==> Lex(s, mode, word, words) == Lex(s[1..], Unquoted, word, words)
    ensures mode == InSingle && s[0] != '\'' ==> Lex(s, mode, word, words) == Lex(s[1..], InSingle, word + [s[0]], words)
    ensures mode == InDouble && s[0] == '"' ==> Lex(s, mode, word, words) == Lex(s[1..], Unquoted, word, words)
    ensures mode == InDouble && s[0] == '\'' ==> Lex(s, mode, word, words) == Lex(s[1..], InDouble, word + ['\''], words)
    ensures (mode == Between || mode == Unquoted) && s[0] == '\'' ==> Lex(s, mode, word, words) == Lex(s[1..], InSingle, word, words)
    ensures (mode == Between || mode == Unquoted) && s[0] == '"' ==> Lex(s, mode, word, words) == Lex(s[1..], InDouble, word, words)
    ensures mode == Unquoted && s[0] == '\\' && |s| > 1 && s[1] != '\n' ==>
              Lex(s, mode, word, words) == Lex(s[2..], Unquoted, word + [s[1]], words)
  {
  }

  /** Leaves the single quotes, quotes one, and enters them again. */
  lemma EscapedQuote(escape: string, tail: string, word: string, words: seq<string>)
    requires escape == DOUBLE_QUOTED_QUOTE || escape == BACKSLASHED_QUOTE
    ensures Lex(escape + tail, InSingle, word, words) == Lex(tail, InSingle, word + ['\''], words)
  {
    hide Lex;
    var s := escape + tail;
    LexStep(s, InSingle, word, words);
    if escape == DOUBLE_QUOTED_QUOTE {
      assert s[1..] == "\"'\"'" + tail;
      LexStep(s[1..], Unquoted, word, words);
      assert s[1..][1..] == "'\"'" + tail;
      LexStep(s[1..][1..], InDouble, word, words);
      assert s[1..][1..][1..] == "\"'" + tail;
      LexStep(s[1..][1..][1..], InDouble, word + ['\''], words);
      assert s[1..][1..][1..][1..] == "'" + tail;
      LexStep(s[1..][1..][1..][1..], Unquoted, word + ['\''], words);
      assert s[1..][1..][1..][1..][1..] == tail;
    } else {
      assert s[1..] == "\\''" + tail;
      LexStep(s[1..], Unquoted, word, words);
      assert s[1..][2..] == "'" + tail;
      LexStep(s[1..][2..], Unquoted, word + ['\''], words);
      assert s[1..][2..][1..] == tail;
    }
  }

  lemma {:induction false} LexReplaced(s: string, escape: string, tail: string, word: string, words: seq<string>)
    requires escape == DOUBLE_QUOTED_QUOTE || escape == BACKSLASHED_QUOTE
    ensures Lex(ReplaceQuotes(s, escape) + "'" + tail, InSingle, word, words) == Lex(tail, Unquoted, word + s, words)
  {
    hide Lex;
    var line := ReplaceQuotes(s, escape) + "'" + tail;
    if s == "" {
      LexStep(line, InSingle, word, words);
      assert line[1..] == tail && word + s == word;
    } else {
      var rest := ReplaceQuotes(s[1..], escape) + "'" + tail;
      if s[0] == '\'' {
        assert line == escape + rest;
        EscapedQuote(escape, rest, word, words);
      } else {
        assert line == [s[0]] + rest;
        LexStep(line, InSingle, word, words);
        assert line[1..] == rest;
      }
      LexReplaced(s[1..], escape, tail, word + [s[0]], words);
      assert word + [s[0]] + s[1..] == word + s;
    }
  }

  lemma LexQuotedBody(s: string, escape: string, tail: string, words: seq<string>)
    requires escape == DOUBLE_QUOTED_QUOTE || escape == BACKSLASHED_QUOTE
    ensures Lex("'" + ReplaceQuotes(s, escape) + "'" + tail, Between, "", words) == Lex(tail, Unquoted, s, words)
  {
    hide Lex;
    var line := "'" + ReplaceQuotes(s, escape) + "'" + tail;
    LexStep(line, Between, "", words);
    assert line[1..] == ReplaceQuotes(s, escape) + "'" + tail;
    LexReplaced(s, escape, tail, "", words);
    assert "" + s == s;
  }

  lemma LexQuoted(value: string, tail: string, words: seq<string>)
    ensures Lex(ShellQuote(value) + tail, Between, "", words) == Lex(tail, Unquoted, value, words)
  {
    hide Lex;
    if value == "" {
      LexQuotedBody("", DOUBLE_QUOTED_QUOTE, tail, words);
      assert "''" + tail == "'" + ReplaceQuotes("", DOUBLE_QUOTED_QUOTE) + "'" + tail;
    } else if AllSafe(value) {
      LexSafe(value, tail, Between, "", words);
      assert "" + value == value;
    } else {
      LexQuotedBody(value, DOUBLE_QUOTED_QUOTE, tail, words);
    }
  }

  lemma {:induction false} JoinLexed(args: seq<string>, words: seq<string>)
    ensures Lex(Join(QuoteAll(args), " "), Between, "", words) == Some(words + args)
    decreases |args|
  {
    hide ShellQuote;
    if args == [] {
      assert words + args == words;
    } else if |args| == 1 {
      LexQuoted(args[0], "", words);
      assert ShellQuote(args[0]) + "" == ShellQuote(args[0]) == Join(QuoteAll(args), " ");
      assert args == [args[0]];
    } else {
      var rest := Join(QuoteAll(args[1..]), " ");
      assert QuoteAll(args)[1..] == QuoteAll(args[1..]);
      assert Join(QuoteAll(args), " ") == ShellQuote(args[0]) + (" " + rest);
      LexQuoted(args[0], " " + rest, words);
      assert (" " + rest)[1..] == rest;
      JoinLexed(args[1..], words + [args[0]]);
      assert words + [args[0]] + args[1..] == words + args;
    }
  }

  /** Tokenizing a joined command line gives back exactly the arguments, whatever they contain. */
  lemma JoinRoundTrip(args: seq<string>)
    ensures Tokenize(Join(QuoteAll(args), " ")) == Some(args)
  {
    JoinLexed(args, []);
    assert [] + args == args;
  }

  /** A path that is escaped for the terminal is one word, the path itself. */
  lemma EscapeRoundTrip(path: string)
    ensures Tokenize(ShellEscape(path)) == Some([path])
  {
    LexQuotedBody(path, BACKSLASHED_QUOTE, "", []);
    assert ShellEscape(path) + "" == ShellEscape(path);
    assert [] + [path] == [path];
  }

  /** In the command the terminal writes, the escaped path is still one word after `cd`. */
  lemma EscapedAfterCommand(path: string)
    ensures Tokenize("cd " + ShellEscape(path)) == Some(["cd", path])
  {
    var line := "cd" + (" " + ShellEscape(path));
    assert line == "cd " + ShellEscape(path);
    LexSafe("cd", " " + ShellEscape(path), Between, "", []);
    assert (" " + ShellEscape(path))[1..] == ShellEscape(path);
    LexQuotedBody(path, BACKSLASHED_QUOTE, "", ["cd"]);
    assert ShellEscape(path) + "" == ShellEscape(path);
    assert "" + "cd" == "cd" && [] + ["cd"] == ["cd"] && ["cd"] + [path] == ["cd", path];
  }
}
