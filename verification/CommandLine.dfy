/** The command tokenizer and the executable check of packages/agent-runtime/src/process.ts. */
module CommandLine {
  import opened Basics
  import opened Strings

  datatype UnsafeReason =
    | ShellSyntax | Unterminated | EmptyCommand | EmptyExecutable | ControlCharacter | DeniedShell(name: string)

  datatype Parsed = Tokens(words: seq<string>) | Unsafe(reason: UnsafeReason)

  // ---- executables ----

  const DENIED_EXECUTABLES := {
    "sh", "bash", "zsh", "fish", "dash", "cmd", "cmd.exe", "powershell", "powershell.exe",
    "pwsh", "pwsh.exe", "wscript", "wscript.exe", "cscript", "cscript.exe"}

  /** `toLowerCase`, as far as the denied names can tell. */
  function LowerCase(s: string): string {
    if s == "" then "" else [if 'A' <= s[0] <= 'Z' then (s[0] as int + 32) as char else s[0]] + LowerCase(s[1..])
  }

  function DropTrailingSlashes(s: string): string {
    if s != "" && s[|s| - 1] == '/' then DropTrailingSlashes(s[..|s| - 1]) else s
  }

  /** POSIX `basename`. */
  function BaseName(path: string): string {
    var parts := Split(DropTrailingSlashes(path), '/');
    parts[|parts| - 1]
  }

  /** Why `assertSafeExecutable` throws, if it does. */
  function ExecutableProblem(executable: string): Option<UnsafeReason> {
    var trimmed := Trim(executable);
    var name := LowerCase(BaseName(trimmed));
    if trimmed == "" then Some(EmptyExecutable)
    else if '\0' in trimmed || '\n' in trimmed || '\r' in trimmed then Some(ControlCharacter)
    else if name in DENIED_EXECUTABLES then Some(DeniedShell(name))
    else None
  }

  predicate SafeExecutable(executable: string) {
    ExecutableProblem(executable).None?
  }

  // ---- the tokenizer as a fold over characters ----

  const UNSAFE_UNQUOTED := {'|', '&', ';', '<', '>', '`', '$', '\n', '\r', '\0'}

  datatype Scan = Scan(tokens: seq<string>, current: string, quote: Option<char>, escaping: bool) {
    function Flush(): Scan {
      if current == "" then this else this.(tokens := tokens + [current], current := "")
    }

    /** Outside quotes and escapes. */
    predicate Open() {
      quote.None? && !escaping
    }

    /** One character; `None` when it is shell syntax. */
    function Step(c: char): Option<Scan> {
      if escaping then Some(this.(current := current + [c], escaping := false))
      else if quote.Some? then
        if c == quote.value then Some(this.(quote := None))
        else if c == '\\' && quote.value == '"' then Some(this.(escaping := true))
        else Some(this.(current := current + [c]))
      else if c == '\'' || c == '"' then Some(this.(quote := Some(c)))
      else if IsSpace(c) then Some(Flush())
      else if c in UNSAFE_UNQUOTED then None
      else if c == '\\' then Some(this.(escaping := true))
      else Some(this.(current := current + [c]))
    }
  }

  const START := Scan([], "", None, false)

  function Run(s: Scan, text: string): Option<Scan>
    decreases |text|
  {
    if text == "" then Some(s)
    else
      var next := s.Step(text[0]);
      if next.None? then None else Run(next.value, text[1..])
  }

  /** What `splitLegacyCommand` makes of a script. */
  function SplitCommand(script: string): Parsed {
    var end := Run(START, Trim(script));
    if end.None? then Unsafe(ShellSyntax)
    else if !end.value.Open() then Unsafe(Unterminated)
    else
      var tokens := end.value.Flush().tokens;
      if tokens == [] then Unsafe(EmptyCommand)
      else
        var problem := ExecutableProblem(tokens[0]);
        if problem.Some? then Unsafe(problem.value) else Tokens(tokens)
  }

  method SplitLegacyCommand(script: string) returns (r: Parsed)
    ensures r == SplitCommand(script)
  {
    var text := Trim(script);
    var tokens: seq<string> := [];
    var current := "";
    var quote: Option<char> := None;
    var escaping := false;
    for index := 0 to |text|
      invariant Run(START, text) == Run(Scan(tokens, current, quote, escaping), text[index..])
    {
      var c := text[index];
      assert text[index..][0] == c && text[index..][1..] == text[index + 1..];
      if escaping {
        current := current + [c];
        escaping := false;
        continue;
      }
      if quote.Some? {
        if c == quote.value {
          quote := None;
        } else if c == '\\' && quote.value == '"' {
          escaping := true;
        } else {
          current := current + [c];
        }
        continue;
      }
      if c == '\'' || c == '"' {
        quote := Some(c);
        continue;
      }
      if IsSpace(c) {
        if |current| > 0 {
          tokens := tokens + [current];
          current := "";
        }
        continue;
      }
      if c in UNSAFE_UNQUOTED {
        return Unsafe(ShellSyntax);
      }
      if c == '\\' {
        escaping := true;
        continue;
      }
      current := current + [c];
    }
    if quote.Some? || escaping {
      return Unsafe(Unterminated);
    }
    if |current| > 0 {
      tokens := tokens + [current];
    }
    if |tokens| == 0 {
      return Unsafe(EmptyCommand);
    }
    var problem := ExecutableProblem(tokens[0]);
    return if problem.Some? then Unsafe(problem.value) else Tokens(tokens);
  }

  lemma {:induction false} RunConcatenation(s: Scan, a: string, b: string)
    ensures Run(s, a + b) == if Run(s, a).None? then None else Run(Run(s, a).value, b)
    decreases |a|
  {
    if a == "" {
      assert a + b == b;
    } else {
      assert (a + b)[0] == a[0] && (a + b)[1..] == a[1..] + b;
      if s.Step(a[0]).Some? {
        RunConcatenation(s.Step(a[0]).value, a[1..], b);
      }
    }
  }

  // ---- quoting and reading back ----

  function Escaped(word: string): string {
    if word == "" then ""
    else (if word[0] == '"' || word[0] == '\\' then "\\" + [word[0]] else [word[0]]) + Escaped(word[1..])
  }

  function Quoted(word: string): (r: string)
    ensures |r| >= 2 && r[0] == '"' && r[|r| - 1] == '"'
  {
    "\"" + Escaped(word) + "\""
  }

  /** The words double-quoted and joined with spaces. */
  function QuotedCommand(words: seq<string>): string {
    if words == [] then "" else if |words| == 1 then Quoted(words[0]) else Quoted(words[0]) + " " + QuotedCommand(words[1..])
  }

  function NonEmpty(words: seq<string>): seq<string> {
    if words == [] then [] else Kept(words[0]) + NonEmpty(words[1..])
  }

  lemma OneStep(s: Scan, c: char)
    ensures Run(s, [c]) == s.Step(c)
  {
    assert [c][1..] == "";
  }

  lemma {:induction false} EscapedReadsBack(s: Scan, word: string)
    requires s.quote == Some('"') && !s.escaping
    ensures Run(s, Escaped(word)) == Some(s.(current := s.current + word))
    decreases |word|
  {
    if word == "" {
      assert s.current + word == s.current;
    } else {
      var c, rest := word[0], word[1..];
      var one := if c == '"' || c == '\\' then "\\" + [c] else [c];
      var read := s.(current := s.current + [c]);
      assert Run(s, one) == Some(read) by {
        if c == '"' || c == '\\' {
          OneStep(s, '\\');
          OneStep(s.(escaping := true), c);
          RunConcatenation(s, "\\", [c]);
        } else {
          OneStep(s, c);
        }
      }
      RunConcatenation(s, one, Escaped(rest));
      EscapedReadsBack(read, rest);
      assert s.current + [c] + rest == s.current + word;
    }
  }

  lemma QuotedReadsBack(s: Scan, word: string)
    requires s.Open() && s.current == ""
    ensures Run(s, Quoted(word)) == Some(s.(current := word))
  {
    var inside := s.(quote := Some('"'));
    assert "\""[1..] == "";
    EscapedReadsBack(inside, word);
    RunConcatenation(s, "\"", Escaped(word));
    RunConcatenation(s, "\"" + Escaped(word), "\"");
    assert "" + word == word;
  }

  lemma {:induction false} QuotedCommandReadsBack(s: Scan, words: seq<string>)
    requires s.Open() && s.current == "" && words != []
    ensures var end := Run(s, QuotedCommand(words));
            end.Some? && end.value.Open() && end.value.Flush().tokens == s.tokens + NonEmpty(words)
    decreases |words|
  {
    hide Run, Quoted, NonEmpty, QuotedCommand;
    FirstOfCommand(words);
    var read := s.(current := words[0]).Flush();
    assert read.tokens == s.tokens + Kept(words[0]);
    if |words| == 1 {
      QuotedReadsBack(s, words[0]);
    } else {
      QuotedWordThenBlank(s, words[0], QuotedCommand(words[1..]));
      QuotedCommandReadsBack(read, words[1..]);
      assert s.tokens + Kept(words[0]) + NonEmpty(words[1..]) == s.tokens + (Kept(words[0]) + NonEmpty(words[1..]));
    }
  }

  function Kept(word: string): seq<string> {
    if word == "" then [] else [word]
  }

  lemma FirstOfCommand(words: seq<string>)
    requires words != []
    ensures NonEmpty(words) == if |words| == 1 then Kept(words[0]) else Kept(words[0]) + NonEmpty(words[1..])
    ensures QuotedCommand(words) ==
            if |words| == 1 then Quoted(words[0]) else Quoted(words[0]) + " " + QuotedCommand(words[1..])
  {
    hide Quoted;
    if |words| == 1 {
      assert words[1..] == [];
    }
  }

  lemma QuotedWordThenBlank(s: Scan, word: string, rest: string)
    requires s.Open() && s.current == ""
    ensures Run(s, Quoted(word) + " " + rest) == Run(s.(current := word).Flush(), rest)
  {
    hide Quoted;
    QuotedReadsBack(s, word);
    RunConcatenation(s, Quoted(word), " ");
    assert " "[1..] == "";
    RunConcatenation(s, Quoted(word) + " ", rest);
  }

  lemma TrimmedAlready(s: string)
    requires s != "" && !IsSpace(s[0]) && !IsSpace(s[|s| - 1])
    ensures Trim(s) == s
  {
  }

  lemma {:induction false} QuotedCommandEnds(words: seq<string>)
    requires words != []
    ensures var s := QuotedCommand(words); s != "" && s[0] == '"' && s[|s| - 1] == '"'
  {
    if |words| > 1 {
      QuotedCommandEnds(words[1..]);
    }
  }

  lemma {:induction false} NonEmptyKeepsAll(words: seq<string>)
    ensures NonEmpty(words) == words <==> "" !in words
    ensures |NonEmpty(words)| <= |words|
    ensures "" in words ==> |NonEmpty(words)| < |words|
  {
    if words != [] {
      NonEmptyKeepsAll(words[1..]);
    }
  }

  /**
    * Double-quoting a list of arguments and splitting the command again returns the same list, exactly
    * when the list is not empty, holds no empty argument, and starts with a permitted executable.
    */
  lemma QuotingRoundTrips(words: seq<string>)
    ensures SplitCommand(QuotedCommand(words)) == Tokens(words) <==>
            words != [] && "" !in words && SafeExecutable(words[0])
  {
    hide Run, ExecutableProblem, Quoted, TrimStart, TrimEnd, Trim, NonEmpty, QuotedCommand;
    NonEmptyKeepsAll(words);
    if words == [] {
      EmptyIsRefused();
    } else {
      QuotedCommandEnds(words);
      TrimmedAlready(QuotedCommand(words));
      QuotedCommandReadsBack(START, words);
      assert START.tokens + NonEmpty(words) == NonEmpty(words);
    }
  }

  lemma EmptyIsRefused()
    ensures QuotedCommand([]) == "" && SplitCommand("") == Unsafe(EmptyCommand)
  {
  }

  // ---- joining commands ----

  ghost predicate Blank(s: string) {
    forall i :: 0 <= i < |s| ==> IsSpace(s[i])
  }

  lemma {:induction false} BlankFlushes(s: Scan, text: string)
    requires s.Open() && Blank(text)
    ensures Run(s, text) == Some(if text == "" then s else s.Flush())
    decreases |text|
  {
    if text != "" {
      assert IsSpace(text[0]) && text[0] != '\'' && text[0] != '"';
      assert Blank(text[1..]);
      BlankFlushes(s.Flush(), text[1..]);
    }
  }

  lemma {:induction false} TrimStartSplits(s: string) returns (before: string)
    ensures s == before + TrimStart(s) && Blank(before)
    ensures TrimStart(s) != "" ==> !IsSpace(TrimStart(s)[0])
  {
    if s != "" && IsSpace(s[0]) {
      var rest := TrimStartSplits(s[1..]);
      before := [s[0]] + rest;
    } else {
      before := "";
    }
  }

  lemma {:induction false} TrimEndSplits(s: string) returns (after: string)
    ensures s == TrimEnd(s) + after && Blank(after)
    ensures TrimEnd(s) != "" ==> !IsSpace(TrimEnd(s)[|TrimEnd(s)| - 1])
    decreases |s|
  {
    if s != "" && IsSpace(s[|s| - 1]) {
      var rest := TrimEndSplits(s[..|s| - 1]);
      after := rest + [s[|s| - 1]];
    } else {
      after := "";
    }
  }

  lemma TrimSplits(s: string) returns (before: string, after: string)
    ensures s == before + Trim(s) + after && Blank(before) && Blank(after)
    ensures Trim(s) != "" ==> !IsSpace(Trim(s)[0]) && !IsSpace(Trim(s)[|Trim(s)| - 1])
  {
    before := TrimStartSplits(s);
    after := TrimEndSplits(TrimStart(s));
    assert before + (Trim(s) + after) == before + Trim(s) + after;
  }

  lemma {:induction false} BlankStartsAreTrimmed(before: string, s: string)
    requires Blank(before) && s != "" && !IsSpace(s[0])
    ensures TrimStart(before + s) == s
  {
    if before == "" {
      assert before + s == s;
    } else {
      assert (before + s)[1..] == before[1..] + s && (before + s)[0] == before[0];
      BlankStartsAreTrimmed(before[1..], s);
    }
  }

  lemma {:induction false} BlankEndsAreTrimmed(s: string, after: string)
    requires Blank(after) && s != "" && !IsSpace(s[|s| - 1])
    ensures TrimEnd(s + after) == s
    decreases |after|
  {
    if after == "" {
      assert s + after == s;
    } else {
      var n := |after| - 1;
      assert (s + after)[..|s + after| - 1] == s + after[..n] && (s + after)[|s + after| - 1] == after[n];
      BlankEndsAreTrimmed(s, after[..n]);
    }
  }

  /** Joining with a space leaves only blanks between the two trimmed commands. */
  lemma TrimmedJoin(a: string, b: string) returns (gap: string)
    requires Trim(a) != "" && Trim(b) != ""
    ensures Blank(gap) && gap != "" && Trim(a + " " + b) == Trim(a) + gap + Trim(b)
  {
    hide TrimStart, TrimEnd;
    var ta, tb := Trim(a), Trim(b);
    var a0, a1 := TrimSplits(a);
    var b0, b1 := TrimSplits(b);
    gap := a1 + " " + b0;
    var middle := ta + gap + tb;
    assert middle[0] == ta[0] && middle[|middle| - 1] == tb[|tb| - 1];
    assert (middle + b1)[0] == ta[0];
    assert a + " " + b == a0 + (middle + b1);
    BlankStartsAreTrimmed(a0, middle + b1);
    BlankEndsAreTrimmed(middle, b1);
  }

  /** Two accepted commands joined with a space are accepted, and read as the one's tokens and then the other's. */
  lemma AcceptedCommandsConcatenate(a: string, b: string)
    requires SplitCommand(a).Tokens? && SplitCommand(b).Tokens?
    ensures SplitCommand(a + " " + b) == Tokens(SplitCommand(a).words + SplitCommand(b).words)
  {
    hide Run, Trim, ExecutableProblem, Blank;
    EmptyIsRefused();
    EmptyTextStops(a);
    EmptyTextStops(b);
    var gap := TrimmedJoin(a, b);
    JoinedScan(Trim(a), gap, Trim(b));
  }

  lemma EmptyTextStops(script: string)
    ensures Trim(script) == "" ==> SplitCommand(script) == Unsafe(EmptyCommand)
  {
  }

  lemma JoinedScan(a: string, gap: string, b: string)
    requires Blank(gap) && gap != ""
    requires Run(START, a).Some? && Run(START, a).value.Open() && Run(START, b).Some?
    ensures var one, two := Run(START, a).value, Run(START, b).value;
            Run(START, a + gap + b) == Some(two.(tokens := one.Flush().tokens + two.tokens))
  {
    hide Run, Blank;
    var one := Run(START, a).value;
    RunConcatenation(START, a, gap);
    BlankFlushes(one, gap);
    RunConcatenation(START, a + gap, b);
    TokensAreOnlyAppended(one.Flush().tokens, START, b);
    assert one.Flush() == START.(tokens := one.Flush().tokens + START.tokens);
  }

  /** What was read before does not influence what is read next. */
  lemma {:induction false} TokensAreOnlyAppended(earlier: seq<string>, s: Scan, text: string)
    ensures var alone, after := Run(s, text), Run(s.(tokens := earlier + s.tokens), text);
            && (alone.None? <==> after.None?)
            && (alone.Some? ==> after.value == alone.value.(tokens := earlier + alone.value.tokens))
    decreases |text|
  {
    if text != "" {
      var next := s.Step(text[0]);
      assert s.(tokens := earlier + s.tokens).Flush() == s.Flush().(tokens := earlier + s.Flush().tokens) by {
        assert earlier + (s.tokens + [s.current]) == earlier + s.tokens + [s.current];
      }
      if next.Some? {
        TokensAreOnlyAppended(earlier, next.value, text[1..]);
      }
    }
  }

  /** A word without blanks, quotes, backslashes or shell syntax reads as itself. */
  lemma {:induction false} PlainWordReadsAsItself(s: Scan, word: string)
    requires s.Open()
    requires forall c :: c in word ==> !IsSpace(c) && c !in UNSAFE_UNQUOTED && c != '\'' && c != '"' && c != '\\'
    ensures Run(s, word) == Some(s.(current := s.current + word))
    decreases |word|
  {
    if word != "" {
      assert word[0] in word;
      assert forall c :: c in word[1..] ==> c in word;
      assert s.Step(word[0]) == Some(s.(current := s.current + [word[0]]));
      PlainWordReadsAsItself(s.(current := s.current + [word[0]]), word[1..]);
      assert s.current + [word[0]] + word[1..] == s.current + word;
    } else {
      assert s.current + word == s.current;
    }
  }

  // ---- what is refused, and what is not ----

  predicate Plain(c: char) {
    !IsSpace(c) && c !in UNSAFE_UNQUOTED && c != '\'' && c != '"' && c != '\\'
  }

  lemma {:induction false} TrimEndKeeps(s: string, k: nat)
    requires k < |s| && !IsSpace(s[k])
    ensures k < |TrimEnd(s)| && TrimEnd(s) <= s
    decreases |s|
  {
    if IsSpace(s[|s| - 1]) {
      TrimEndKeeps(s[..|s| - 1], k);
    }
  }

  /**
    * Outside quotes, each of eight characters makes a command unsafe, whatever follows. The two line breaks that the
    * source lists with them do not: white space is recognised first, so they separate words (`LineBreaksSeparate`).
    */
  lemma ShellSyntaxIsRefused(word: string, c: char, rest: string)
    requires forall x :: x in word ==> Plain(x)
    requires c in {'|', '&', ';', '<', '>', '`', '$', '\0'}
    ensures SplitCommand(word + [c] + rest) == Unsafe(ShellSyntax)
  {
    hide IsSpace;
    assert !IsSpace(c) by { SyntaxIsNoSpace(c); }
    var script := word + [c] + rest;
    assert script[|word|] == c && (word != "" ==> script[0] in word);
    TrimEndKeeps(script, |word|);
    var left := Trim(script)[|word| + 1..];
    assert Trim(script) == word + ([c] + left);
    PlainWordReadsAsItself(START, word);
    RunConcatenation(START, word, [c] + left);
    assert ([c] + left)[0] == c;
  }

  lemma SyntaxIsNoSpace(c: char)
    requires c in {'|', '&', ';', '<', '>', '`', '$', '\0'}
    ensures !IsSpace(c)
  {
  }

  /** A line break outside quotes is read as a blank. */
  lemma LineBreaksSeparate(first: string, c: char, second: string)
    requires first != "" && second != "" && forall x :: x in first + second ==> Plain(x)
    requires c in {'\n', '\r'}
    ensures SplitCommand(first + [c] + second) == SplitCommand(first + " " + second)
    ensures SafeExecutable(first) ==> SplitCommand(first + [c] + second) == Tokens([first, second])
  {
    hide ExecutableProblem, Run;
    assert first[0] in first + second && second[|second| - 1] in first + second;
    BreakReads(first, c, second);
    BreakReads(first, ' ', second);
    TrimmedAlready(first + [c] + second);
    TrimmedAlready(first + [' '] + second);
    assert [' '] == " ";
  }

  lemma BreakReads(first: string, c: char, second: string)
    requires first != "" && second != "" && forall x :: x in first + second ==> Plain(x)
    requires c in {'\n', '\r', ' '}
    ensures Run(START, first + [c] + second) == Some(Scan([first], second, None, false))
  {
    hide Run, Plain, Scan.Step, IsSpace;
    var read, broken := START.(current := first), Scan([first], "", None, false);
    assert forall x :: x in first || x in second ==> x in first + second;
    PlainReads(START, first);
    RunConcatenation(START, first, [c]);
    OneStep(read, c);
    BreakFlushes(read, c);
    RunConcatenation(START, first + [c], second);
    PlainReads(broken, second);
    assert "" + second == second && "" + first == first && [] + [first] == [first];
  }

  lemma PlainReads(s: Scan, word: string)
    requires s.Open() && forall x :: x in word ==> Plain(x)
    ensures Run(s, word) == Some(s.(current := s.current + word))
  {
    PlainWordReadsAsItself(s, word);
  }

  lemma BreakFlushes(s: Scan, c: char)
    requires s.Open() && c in {'\n', '\r', ' '}
    ensures s.Step(c) == Some(s.Flush())
  {
  }

  /** Single-quoted text reads back unchanged, backslashes, double quotes and shell syntax included. */
  lemma SingleQuotedReadsBack(s: Scan, text: string)
    requires s.Open() && '\'' !in text
    ensures Run(s, "'" + text + "'") == Some(s.(current := s.current + text))
  {
    var inside := s.(quote := Some('\''));
    OneStep(s, '\'');
    LiteralReadsBack(inside, text);
    RunConcatenation(s, "'", text);
    RunConcatenation(s, "'" + text, "'");
    OneStep(inside.(current := s.current + text), '\'');
  }

  lemma {:induction false} LiteralReadsBack(s: Scan, text: string)
    requires s.quote == Some('\'') && !s.escaping && '\'' !in text
    ensures Run(s, text) == Some(s.(current := s.current + text))
    decreases |text|
  {
    if text == "" {
      assert s.current + text == s.current;
    } else {
      assert text[0] in text && forall c :: c in text[1..] ==> c in text;
      LiteralReadsBack(s.(current := s.current + [text[0]]), text[1..]);
      assert s.current + [text[0]] + text[1..] == s.current + text;
    }
  }

  lemma {:induction false} LowerCaseMeans(s: string)
    ensures |LowerCase(s)| == |s|
    ensures forall i :: 0 <= i < |s| ==>
              if 'A' <= s[i] <= 'Z' then LowerCase(s)[i] as int - 'a' as int == s[i] as int - 'A' as int
              else LowerCase(s)[i] == s[i]
    decreases |s|
  {
    if s != "" {
      LowerCaseMeans(s[1..]);
    }
  }

  lemma DeniedNamesAreWords()
    ensures forall name :: name in DENIED_EXECUTABLES ==>
              name != "" && forall i :: 0 <= i < |name| ==> 'a' <= name[i] <= 'z' || name[i] == '.'
  {
  }

  predicate WordCharacter(c: char) {
    'a' <= c <= 'z' || 'A' <= c <= 'Z' || c == '.'
  }

  lemma {:induction false} SlashesDrop(text: string, slashes: string)
    requires text != "" && text[|text| - 1] != '/' && forall c :: c in slashes ==> c == '/'
    ensures DropTrailingSlashes(text + slashes) == text
    decreases |slashes|
  {
    if slashes == "" {
      assert text + slashes == text;
    } else {
      var n := |slashes| - 1;
      assert slashes[n] in slashes && (text + slashes)[|text| + n] == slashes[n];
      assert (text + slashes)[..|text| + n] == text + slashes[..n];
      assert forall c :: c in slashes[..n] ==> c in slashes;
      SlashesDrop(text, slashes[..n]);
    }
  }

  /** `basename` finds the word between the last slash and the slashes at the end. */
  lemma WordIsFound(directory: string, word: string, slashes: string)
    requires word != "" && '/' !in word && forall c :: c in slashes ==> c == '/'
    requires directory == "" || directory[|directory| - 1] == '/'
    ensures BaseName(directory + word + slashes) == word
  {
    assert word[|word| - 1] in word;
    SlashesDrop(directory + word, slashes);
    SplitAt(word, "", '/');
    assert word + "" == word && [word] + [""][1..] == [word];
    if directory == "" {
      assert directory + word == word;
    } else {
      var front := directory[..|directory| - 1];
      assert directory + word == front + ['/'] + word;
      SplitConcatenation(front, word, '/');
    }
  }

  /**
    * What the check of an executable looks at: with blanks trimmed off, no control character anywhere, and the last
    * segment in small letters is no denied shell.
    */
  lemma ExecutableMeans(executable: string, directory: string, word: string, slashes: string)
    requires Trim(executable) == directory + word + slashes
    requires word != "" && '/' !in word && forall c :: c in slashes ==> c == '/'
    requires directory == "" || directory[|directory| - 1] == '/'
    ensures ExecutableProblem(executable) ==
            if exists c :: c in Trim(executable) && (c == '\0' || c == '\n' || c == '\r') then Some(ControlCharacter)
            else if LowerCase(word) in DENIED_EXECUTABLES then Some(DeniedShell(LowerCase(word)))
            else None
  {
    hide Trim, BaseName, LowerCase, DENIED_EXECUTABLES;
    WordIsFound(directory, word, slashes);
  }

  /** A denied shell is refused in any directory and in any spelling of its letters. */
  lemma DeniedShellsAreRefused(directory: string, spelled: string, name: string)
    requires name in DENIED_EXECUTABLES && LowerCase(spelled) == name
    requires directory == "" || (!IsSpace(directory[0]) && directory[|directory| - 1] == '/')
    requires forall c :: c in directory ==> c !in {'\0', '\n', '\r'}
    ensures ExecutableProblem(directory + spelled) == Some(DeniedShell(name))
  {
    hide IsSpace, BaseName, LowerCase, DENIED_EXECUTABLES, Trim;
    DeniedNamesAreWords();
    LowerCaseMeans(spelled);
    forall c | c in spelled ensures WordCharacter(c) {
      var i :| 0 <= i < |spelled| && spelled[i] == c;
      assert 'a' <= name[i] <= 'z' || name[i] == '.';
    }
    var executable := directory + spelled;
    assert spelled[0] in spelled && spelled[|spelled| - 1] in spelled;
    WordsAreNoSpace(spelled[0]);
    WordsAreNoSpace(spelled[|spelled| - 1]);
    TrimmedAlready(executable);
    assert executable == directory + spelled + "";
    ExecutableMeans(executable, directory, spelled, "");
  }

  lemma WordsAreNoSpace(c: char)
    requires WordCharacter(c)
    ensures !IsSpace(c)
  {
  }
}
