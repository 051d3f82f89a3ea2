/**
  * The glob compiler of packages/agent-runtime/src/engine/policy.ts: globs become the text of a
  * regular expression. The text is given its meaning by reading it back (`ReadPattern`) and matching
  * the pieces, and the compiler is proved against a matcher defined on the glob itself.
  *
  * A `char` is a Unicode scalar value; the pattern the source builds has no `u` flag and steps through UTF-16 units,
  * which differ outside the basic plane.
  */
module Globs {
  import opened Basics
  import opened Strings

  /** Slashes forward, and at most one leading "./" removed. */
  function NormalizePath(value: string): (r: string)
    ensures '\\' !in r
    ensures '\\' !in value && !("./" <= value) ==> r == value
  {
    var slashed := ForwardSlashes(value);
    if "./" <= slashed then slashed[2..] else slashed
  }

  /** With the slashes forward, one "./" in front is dropped, and anything else stays. */
  lemma NormalizingMeans(path: string)
    requires '\\' !in path
    ensures NormalizePath("./" + path) == path
    ensures !("./" <= path) ==> NormalizePath(path) == path
    ensures forall value :: ForwardSlashes(value) == path ==> NormalizePath(value) == NormalizePath(path)
  {
    assert ("./" + path)[2..] == path;
  }

  /** The characters `escapeRegex` puts a backslash before. */
  const ESCAPED := {'|', '\\', '{', '}', '(', ')', '[', ']', '^', '$', '+', '?', '.'}

  function EscapeRegex(c: char): string {
    if c in ESCAPED then ['\\', c] else [c]
  }

  // ---- the emitted pattern ----

  /** What the compiler's loop appends from a position of the glob on. */
  function Emitted(glob: string): string {
    if glob == "" then ""
    else if glob[0] == '*' then
      if |glob| > 1 && glob[1] == '*' then ".*" + Emitted(glob[2..]) else "[^/]*" + Emitted(glob[1..])
    else if glob[0] == '?' then "[^/]" + Emitted(glob[1..])
    else EscapeRegex(glob[0]) + Emitted(glob[1..])
  }

  /** How much of the glob one turn of the compiler's loop consumes. */
  function Consumed(glob: string): nat
    requires glob != ""
  {
    if |glob| > 1 && glob[0] == '*' && glob[1] == '*' then 2 else 1
  }

  /** What one turn of the compiler's loop appends. */
  function EmittedPiece(glob: string): string
    requires glob != ""
  {
    if glob[0] == '*' then (if Consumed(glob) == 2 then ".*" else "[^/]*")
    else if glob[0] == '?' then "[^/]"
    else EscapeRegex(glob[0])
  }

  lemma OneTurn(glob: string, done: string)
    requires glob != ""
    ensures done + EmittedPiece(glob) + Emitted(glob[Consumed(glob)..]) == done + Emitted(glob)
  {
    FirstTurn(glob);
    hide Emitted, EmittedPiece;
    var first, rest := EmittedPiece(glob), Emitted(glob[Consumed(glob)..]);
    assert done + first + rest == done + (first + rest);
  }

  lemma FirstTurn(glob: string)
    requires glob != ""
    ensures Emitted(glob) == EmittedPiece(glob) + Emitted(glob[Consumed(glob)..])
  {
    hide EscapeRegex;
  }

  lemma NothingLeft()
    ensures Emitted("") == ""
  {
  }

  method GlobToRegExp(glob: string) returns (pattern: string)
    ensures pattern == "^" + Emitted(NormalizePath(glob)) + "$"
  {
    hide Emitted, NormalizePath, EscapeRegex;
    var normalized := NormalizePath(glob);
    pattern := "^";
    assert normalized[0..] == normalized;
    var index := 0;
    while index < |normalized|
      invariant 0 <= index <= |normalized|
      invariant pattern + Emitted(normalized[index..]) == "^" + Emitted(normalized)
    {
      var character := normalized[index];
      ghost var was, rest := pattern, normalized[index..];
      OneTurn(rest, was);
      assert rest[Consumed(rest)..] == normalized[index + Consumed(rest)..];
      if character == '*' {
        if index + 1 < |normalized| && normalized[index + 1] == '*' {
          pattern := pattern + ".*";
          index := index + 1;
        } else {
          pattern := pattern + "[^/]*";
        }
      } else if character == '?' {
        pattern := pattern + "[^/]";
      } else {
        pattern := pattern + EscapeRegex(character);
      }
      index := index + 1;
      assert pattern == was + EmittedPiece(rest);
    }
    NothingLeft();
    assert normalized[index..] == "";
    pattern := pattern + "$";
  }

  // ---- reading a pattern back ----

  datatype Atom = Literal(c: char) | AnyButNewline | AnyButSlash

  /** One atom, repeated any number of times when starred. */
  datatype Piece = Piece(atom: Atom, starred: bool)

  /** The characters that are syntax in a pattern, so never stand for themselves unescaped. */
  const SYNTAX := {'|', '\\', '{', '}', '(', ')', '[', ']', '^', '$', '+', '?', '.', '*'}

  /** The first atom of a pattern and its length. */
  function ReadAtom(pattern: string): Option<(Atom, nat)> {
    if pattern == "" then None
    else if pattern[0] == '\\' then
      if |pattern| > 1 && pattern[1] in SYNTAX then Some((Literal(pattern[1]), 2)) else None
    else if pattern[0] == '.' then Some((AnyButNewline, 1))
    else if "[^/]" <= pattern then Some((AnyButSlash, 4))
    else if pattern[0] in SYNTAX then None
    else Some((Literal(pattern[0]), 1))
  }

  /** A pattern's pieces up to the `$` that ends it; `None` for text outside this grammar. */
  function ReadPieces(pattern: string): Option<seq<Piece>>
    decreases |pattern|
  {
    if pattern == "$" then Some([])
    else
      match ReadAtom(pattern)
      case None => None
      case Some((atom, length)) =>
        if length > |pattern| then None
        else
          var starred := length < |pattern| && pattern[length] == '*';
          match ReadPieces(pattern[if starred then length + 1 else length..])
          case None => None
          case Some(rest) => Some([Piece(atom, starred)] + rest)
  }

  /** `new RegExp(text)` for anchored text. */
  function ReadPattern(text: string): Option<seq<Piece>> {
    if text != "" && text[0] == '^' then ReadPieces(text[1..]) else None
  }

  predicate AtomMatches(atom: Atom, c: char) {
    match atom
    case Literal(l) => c == l
    case AnyButNewline => !IsLineTerminator(c)
    case AnyButSlash => c != '/'
  }

  /** `RegExp.test` on an anchored pattern: a starred piece takes one more character or gives way. */
  predicate Matches(pieces: seq<Piece>, path: string)
    decreases |pieces| + |path|
  {
    if pieces == [] then path == ""
    else if pieces[0].starred then
      || Matches(pieces[1..], path)
      || (path != "" && AtomMatches(pieces[0].atom, path[0]) && Matches(pieces, path[1..]))
    else
      path != "" && AtomMatches(pieces[0].atom, path[0]) && Matches(pieces[1..], path[1..])
  }

  // ---- the direct matcher ----

  predicate NoLineTerminators(s: string) {
    forall c :: c in s ==> !IsLineTerminator(c)
  }

  /**
    * What a glob means: `**` any string, `*` any run without "/", `?` one character other than "/",
    * and every other character itself. With `lines`, a `**` run stops at line terminators.
    */
  predicate GlobMatches(glob: string, path: string, lines: bool)
    decreases |glob|
  {
    if glob == "" then path == ""
    else if glob[0] == '*' then
      if |glob| > 1 && glob[1] == '*' then
        exists k :: 0 <= k <= |path| && (lines ==> NoLineTerminators(path[..k])) && GlobMatches(glob[2..], path[k..], lines)
      else
        exists k :: 0 <= k <= |path| && '/' !in path[..k] && GlobMatches(glob[1..], path[k..], lines)
    else if path == "" then false
    else if glob[0] == '?' then path[0] != '/' && GlobMatches(glob[1..], path[1..], lines)
    else path[0] == glob[0] && GlobMatches(glob[1..], path[1..], lines)
  }

  /** The pieces a glob should compile to. */
  function Pieces(glob: string): seq<Piece> {
    if glob == "" then []
    else if glob[0] == '*' then
      if |glob| > 1 && glob[1] == '*' then [Piece(AnyButNewline, true)] + Pieces(glob[2..])
      else [Piece(AnyButSlash, true)] + Pieces(glob[1..])
    else if glob[0] == '?' then [Piece(AnyButSlash, false)] + Pieces(glob[1..])
    else [Piece(Literal(glob[0]), false)] + Pieces(glob[1..])
  }

  /** No emitted text begins with a star, so a star always belongs to the atom it was emitted with. */
  lemma EmittedNeverStartsWithStar(glob: string)
    ensures (Emitted(glob) + "$")[0] != '*'
  {
  }

  lemma ReadsStarred(atomText: string, atom: Atom, tail: string)
    requires (atomText == "." && atom == AnyButNewline) || (atomText == "[^/]" && atom == AnyButSlash)
    requires ReadPieces(tail).Some?
    ensures ReadPieces(atomText + "*" + tail) == Some([Piece(atom, true)] + ReadPieces(tail).value)
  {
    var text := atomText + "*" + tail;
    assert text[|atomText|] == '*' && text[|atomText| + 1..] == tail;
    assert text[..|atomText|] == atomText;
    assert ReadAtom(text) == Some((atom, |atomText|));
  }

  lemma ReadsSingle(atomText: string, atom: Atom, tail: string)
    requires
      || (atomText == "[^/]" && atom == AnyButSlash)
      || (exists c :: c != '*' && atomText == EscapeRegex(c) && atom == Literal(c))
    requires ReadPieces(tail).Some? && tail != "" && tail[0] != '*'
    ensures ReadPieces(atomText + tail) == Some([Piece(atom, false)] + ReadPieces(tail).value)
  {
    var text := atomText + tail;
    assert text[|atomText|..] == tail && text[|atomText|] != '*';
    assert text[..|atomText|] == atomText;
    if atom.Literal? {
      assert text[0] == atomText[0];
      assert |atomText| == 2 ==> text[1] == atomText[1];
    }
    assert ReadAtom(text) == Some((atom, |atomText|));
    assert |text| >= 2;
  }

  // A non-empty glob is a head, one piece long, and the glob after it.

  predicate DoubleStar(glob: string) {
    |glob| > 1 && glob[0] == '*' && glob[1] == '*'
  }

  function Rest(glob: string): string
    requires glob != ""
  {
    if DoubleStar(glob) then glob[2..] else glob[1..]
  }

  function HeadText(glob: string): string
    requires glob != ""
  {
    if DoubleStar(glob) then ".*" else if glob[0] == '*' then "[^/]*" else if glob[0] == '?' then "[^/]"
    else EscapeRegex(glob[0])
  }

  function HeadPiece(glob: string): Piece
    requires glob != ""
  {
    if DoubleStar(glob) then Piece(AnyButNewline, true) else if glob[0] == '*' then Piece(AnyButSlash, true)
    else if glob[0] == '?' then Piece(AnyButSlash, false) else Piece(Literal(glob[0]), false)
  }

  lemma EmittedUnfolds(glob: string)
    requires glob != ""
    ensures Emitted(glob) + "$" == HeadText(glob) + (Emitted(Rest(glob)) + "$")
    ensures Pieces(glob) == [HeadPiece(glob)] + Pieces(Rest(glob))
  {
  }

  lemma HeadReads(glob: string, tail: string)
    requires glob != "" && ReadPieces(tail).Some? && tail != "" && tail[0] != '*'
    ensures ReadPieces(HeadText(glob) + tail) == Some([HeadPiece(glob)] + ReadPieces(tail).value)
  {
    hide ReadPieces;
    assert "." + "*" == ".*" && "[^/]" + "*" == "[^/]*";
    if DoubleStar(glob) {
      ReadsStarred(".", AnyButNewline, tail);
    } else if glob[0] == '*' {
      ReadsStarred("[^/]", AnyButSlash, tail);
    } else {
      ReadsSingle(HeadText(glob), HeadPiece(glob).atom, tail);
    }
  }

  /** Reading the emitted text back gives the intended pieces: nothing needing an escape is left bare. */
  lemma {:induction false} EmittedReadsBack(glob: string)
    ensures ReadPieces(Emitted(glob) + "$") == Some(Pieces(glob))
  {
    if glob != "" {
      EmittedReadsBack(Rest(glob));
      EmittedNeverStartsWithStar(Rest(glob));
      EmittedUnfolds(glob);
      HeadReads(glob, Emitted(Rest(glob)) + "$");
    }
  }

  /** A starred piece matches exactly when some run of its atom can be cut off the front. */
  /** The star took the first `k` characters, and the rest of the pieces match what is left. */
  ghost predicate Splits(atom: Atom, rest: seq<Piece>, path: string, k: nat) {
    k <= |path| && (forall c :: c in path[..k] ==> AtomMatches(atom, c)) && Matches(rest, path[k..])
  }

  lemma {:induction false} MatchedSplits(atom: Atom, rest: seq<Piece>, path: string) returns (k: nat)
    requires Matches([Piece(atom, true)] + rest, path)
    ensures Splits(atom, rest, path, k)
    decreases |path|
  {
    var pieces := [Piece(atom, true)] + rest;
    assert pieces[1..] == rest;
    if Matches(rest, path) {
      assert path[0..] == path;
      k := 0;
    } else {
      var j := MatchedSplits(atom, rest, path[1..]);
      k := j + 1;
      OneMoreTaken(atom, rest, path, j);
    }
  }

  lemma OneMoreTaken(atom: Atom, rest: seq<Piece>, path: string, j: nat)
    requires path != "" && AtomMatches(atom, path[0])
    ensures Splits(atom, rest, path, j + 1) <==> Splits(atom, rest, path[1..], j)
  {
    hide Matches, AtomMatches;
    if j + 1 <= |path| {
      assert path[1..][j..] == path[j + 1..];
      assert path[..j + 1] == [path[0]] + path[1..][..j];
      assert forall c :: c in path[..j + 1] <==> c == path[0] || c in path[1..][..j];
    }
  }

  lemma {:induction false} SplitMatches(atom: Atom, rest: seq<Piece>, path: string, k: nat)
    requires Splits(atom, rest, path, k)
    ensures Matches([Piece(atom, true)] + rest, path)
    decreases |path|
  {
    var pieces := [Piece(atom, true)] + rest;
    assert pieces[1..] == rest;
    if k == 0 {
      assert path[0..] == path;
    } else {
      assert path[0] in path[..k];
      OneMoreTaken(atom, rest, path, k - 1);
      SplitMatches(atom, rest, path[1..], k - 1);
    }
  }

  lemma StarTakesARun(atom: Atom, rest: seq<Piece>, path: string)
    ensures Matches([Piece(atom, true)] + rest, path) <==>
            exists k :: 0 <= k <= |path| && (forall c :: c in path[..k] ==> AtomMatches(atom, c)) && Matches(rest, path[k..])
  {
    hide Matches, AtomMatches;
    if Matches([Piece(atom, true)] + rest, path) {
      var k := MatchedSplits(atom, rest, path);
    }
    if k :| 0 <= k <= |path| && (forall c :: c in path[..k] ==> AtomMatches(atom, c)) && Matches(rest, path[k..]) {
      SplitMatches(atom, rest, path, k);
    }
  }

  lemma {:induction false} PiecesMean(glob: string, path: string)
    ensures Matches(Pieces(glob), path) <==> GlobMatches(glob, path, true)
    decreases |glob|
  {
    if glob != "" {
      var pieces := Pieces(glob);
      if glob[0] == '*' {
        var double := |glob| > 1 && glob[1] == '*';
        var rest := if double then glob[2..] else glob[1..];
        StarTakesARun(pieces[0].atom, Pieces(rest), path);
        forall k | 0 <= k <= |path|
          ensures Matches(Pieces(rest), path[k..]) <==> GlobMatches(rest, path[k..], true)
        {
          PiecesMean(rest, path[k..]);
        }
      } else if path != "" {
        PiecesMean(glob[1..], path[1..]);
      }
    }
  }

  /** On paths without line terminators a `**` run never meets one. */
  lemma {:induction false} LinesDoNotMatter(glob: string, path: string)
    requires NoLineTerminators(path)
    ensures GlobMatches(glob, path, true) <==> GlobMatches(glob, path, false)
    decreases |glob|
  {
    if glob != "" {
      if glob[0] == '*' {
        var rest := if |glob| > 1 && glob[1] == '*' then glob[2..] else glob[1..];
        forall k | 0 <= k <= |path|
          ensures GlobMatches(rest, path[k..], true) <==> GlobMatches(rest, path[k..], false)
          ensures NoLineTerminators(path[..k])
        {
          LinesDoNotMatter(rest, path[k..]);
        }
      } else if path != "" {
        LinesDoNotMatter(glob[1..], path[1..]);
      }
    }
  }

  /**
    * The glob compiler preserves meaning. For every glob and every path, the emitted expression is
    * well formed and matches exactly when the glob does, with `**` runs confined to one line; on paths
    * without line terminators that is the plain meaning of the glob.
    */
  lemma GlobCompilerPreservesMeaning(glob: string, path: string)
    ensures var compiled := ReadPattern("^" + Emitted(NormalizePath(glob)) + "$");
            && compiled.Some?
            && (Matches(compiled.value, path) <==> GlobMatches(NormalizePath(glob), path, true))
            && (NoLineTerminators(path) ==>
                  (Matches(compiled.value, path) <==> GlobMatches(NormalizePath(glob), path, false)))
  {
    var g := NormalizePath(glob);
    EmittedReadsBack(g);
    assert ("^" + Emitted(g) + "$")[1..] == Emitted(g) + "$";
    PiecesMean(g, path);
    if NoLineTerminators(path) { LinesDoNotMatter(g, path); }
  }

  /**
    * Exactly the one-line paths are safe: on a path with a line terminator some glob (a double star)
    * has another meaning than its expression.
    */
  lemma PlainMeaningIffOneLine(path: string)
    ensures NoLineTerminators(path) <==>
            forall glob :: GlobMatches(glob, path, true) <==> GlobMatches(glob, path, false)
  {
    if NoLineTerminators(path) {
      forall glob ensures GlobMatches(glob, path, true) <==> GlobMatches(glob, path, false) {
        LinesDoNotMatter(glob, path);
      }
    } else {
      var glob := "**";
      assert glob[2..] == "";
      assert path[..|path|] == path && path[|path|..] == "";
      assert GlobMatches(glob, path, false);
      forall k | 0 <= k <= |path| && GlobMatches("", path[k..], true) ensures !NoLineTerminators(path[..k]) {
        assert k == |path|;
      }
      assert !GlobMatches(glob, path, true);
    }
  }

  // ---- lists of globs ----

  /** `matchesAnyGlob`: the path is normalised once more, and any glob may match. */
  predicate MatchesAnyGlob(filePath: string, globs: seq<string>) {
    exists g :: g in globs && GlobMatches(NormalizePath(g), NormalizePath(filePath), true)
  }

  method MatchesAny(filePath: string, globs: seq<string>) returns (matched: bool)
    ensures matched <==> MatchesAnyGlob(filePath, globs)
  {
    var normalized := NormalizePath(filePath);
    for index := 0 to |globs|
      invariant forall g :: g in globs[..index] ==> !GlobMatches(NormalizePath(g), normalized, true)
    {
      var pattern := GlobToRegExp(globs[index]);
      GlobCompilerPreservesMeaning(globs[index], normalized);
      var compiled := ReadPattern(pattern);
      if Matches(compiled.value, normalized) {
        return true;
      }
      assert globs[..index + 1] == globs[..index] + [globs[index]];
    }
    assert globs[..|globs|] == globs;
    matched := false;
  }
}
