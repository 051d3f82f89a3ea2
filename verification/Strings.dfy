/** The string operations of the source's standard library that the models use. */
module Strings {

  /** What JavaScript's `\s` and `trim` treat as white space. */
  predicate IsSpace(c: char) {
    || '\t' <= c <= '\r' || c == ' ' || c == '\U{00A0}' || c == '\U{1680}' || '\U{2000}' <= c <= '\U{200A}'
    || c == '\U{2028}' || c == '\U{2029}' || c == '\U{202F}' || c == '\U{205F}' || c == '\U{3000}' || c == '\U{FEFF}'
  }

  /** The characters a regular expression's `.` does not match. */
  predicate IsLineTerminator(c: char) {
    c == '\n' || c == '\r' || c == '\U{2028}' || c == '\U{2029}'
  }

  function TrimStart(s: string): string {
    if s != "" && IsSpace(s[0]) then TrimStart(s[1..]) else s
  }

  function TrimEnd(s: string): string {
    if s != "" && IsSpace(s[|s| - 1]) then TrimEnd(s[..|s| - 1]) else s
  }

  function Trim(s: string): string {
    TrimEnd(TrimStart(s))
  }

  /** `replaceAll("\\", "/")`. */
  function ForwardSlashes(s: string): (r: string)
    ensures |r| == |s|
    ensures '\\' !in r
    ensures '\\' !in s ==> r == s
  {
    if s == "" then "" else [if s[0] == '\\' then '/' else s[0]] + ForwardSlashes(s[1..])
  }

  lemma {:induction false} ForwardSlashesMean(s: string)
    ensures forall i :: 0 <= i < |s| ==> ForwardSlashes(s)[i] == if s[i] == '\\' then '/' else s[i]
  {
    if s != "" {
      ForwardSlashesMean(s[1..]);
    }
  }

  /** The white space of ECMAScript, section 12.2 and the line terminators of section 12.3. */
  lemma SpaceMeans(c: char)
    ensures IsLineTerminator(c) <==> c in {'\n', '\r', '\U{2028}', '\U{2029}'}
    ensures IsSpace(c) <==>
            || IsLineTerminator(c) || c in {'\t', '\U{000B}', '\U{000C}', ' ', '\U{00A0}', '\U{FEFF}'}
            || c in {'\U{1680}', '\U{2000}', '\U{2001}', '\U{2002}', '\U{2003}', '\U{2004}', '\U{2005}', '\U{2006}',
                     '\U{2007}', '\U{2008}', '\U{2009}', '\U{200A}', '\U{202F}', '\U{205F}', '\U{3000}'}
  {
  }

  predicate Contains(s: string, part: string) {
    exists i :: 0 <= i <= |s| && part <= s[i..]
  }

  /** `split(separator)` for a one-character separator: never empty. */
  function Split(s: string, separator: char): (parts: seq<string>)
    ensures |parts| > 0
  {
    if s == "" then [""]
    else if s[0] == separator then [""] + Split(s[1..], separator)
    else
      var rest := Split(s[1..], separator);
      [[s[0]] + rest[0]] + rest[1..]
  }

  /** A separator-free segment in front of a separator, or of nothing, is the first part. */
  lemma {:induction false} SplitAt(segment: string, rest: string, separator: char)
    requires separator !in segment && (rest == "" || rest[0] == separator)
    ensures Split(segment + rest, separator) == [segment] + Split(rest, separator)[1..]
    decreases |segment|
  {
    if segment == "" {
      assert segment + rest == rest;
    } else {
      assert segment[0] in segment && forall c :: c in segment[1..] ==> c in segment;
      assert (segment + rest)[0] == segment[0] && (segment + rest)[1..] == segment[1..] + rest;
      SplitAt(segment[1..], rest, separator);
      assert [segment[0]] + segment[1..] == segment;
    }
  }

  lemma SplitAfter(rest: string, separator: char)
    ensures Split([separator] + rest, separator) == [""] + Split(rest, separator)
  {
    assert ([separator] + rest)[1..] == rest;
  }

  lemma {:induction false} SplitParts(s: string)
    ensures forall p :: p in Split(s, '/') ==> '/' !in p
    decreases |s|
  {
    if s != "" {
      SplitParts(s[1..]);
      if s[0] != '/' {
        var rest := Split(s[1..], '/');
        assert rest[0] in rest && forall p :: p in rest[1..] ==> p in rest;
      }
    }
  }

  lemma {:induction false} SplitConcatenation(a: string, b: string, separator: char)
    ensures Split(a + [separator] + b, separator) == Split(a, separator) + Split(b, separator)
    decreases |a|
  {
    if a == "" {
      assert "" + [separator] + b == [separator] + b && ([separator] + b)[1..] == b;
    } else {
      var rest := a[1..] + [separator] + b;
      assert (a + [separator] + b)[0] == a[0] && (a + [separator] + b)[1..] == rest;
      SplitConcatenation(a[1..], b, separator);
    }
  }

  /** The text from `i` on begins with the segment, and it stands between separators or ends. */
  predicate SegmentAt(s: string, segment: string, separator: char, i: nat) {
    && i + |segment| <= |s| && s[i..i + |segment|] == segment
    && (i == 0 || s[i - 1] == separator) && (i + |segment| == |s| || s[i + |segment|] == separator)
  }

  lemma SegmentShifts(s: string, segment: string, separator: char, i: nat)
    requires s != "" && SegmentAt(s[1..], segment, separator, i) && (i > 0 || s[0] == separator)
    ensures SegmentAt(s, segment, separator, i + 1)
  {
    assert s[1..][i..i + |segment|] == s[i + 1..i + 1 + |segment|];
  }

  lemma SegmentGrows(s: string, segment: string, separator: char)
    requires s != "" && SegmentAt(s[1..], segment, separator, 0)
    ensures SegmentAt(s, [s[0]] + segment, separator, 0)
  {
    assert s[..|segment| + 1] == [s[0]] + s[1..][..|segment|];
  }

  lemma {:induction false} PartStandsBetween(s: string, separator: char, k: nat) returns (i: nat)
    requires k < |Split(s, separator)|
    ensures SegmentAt(s, Split(s, separator)[k], separator, i) && (k == 0 <==> i == 0)
  {
    if s == "" || (s[0] == separator && k == 0) {
      i := 0;
    } else if s[0] == separator {
      hide SegmentAt;
      var inner := PartStandsBetween(s[1..], separator, k - 1);
      SegmentShifts(s, Split(s, separator)[k], separator, inner);
      i := inner + 1;
    } else {
      hide SegmentAt;
      var inner := PartStandsBetween(s[1..], separator, k);
      if k == 0 {
        SegmentGrows(s, Split(s[1..], separator)[0], separator);
        i := 0;
      } else {
        assert Split(s, separator)[k] == Split(s[1..], separator)[k];
        SegmentShifts(s, Split(s, separator)[k], separator, inner);
        i := inner + 1;
      }
    }
  }

  lemma BetweenIsPart(s: string, segment: string, separator: char, i: nat)
    requires separator !in segment && SegmentAt(s, segment, separator, i)
    ensures segment in Split(s, separator)
  {
    var tail := s[i + |segment|..];
    SplitAt(segment, tail, separator);
    if i == 0 {
      assert s == segment + tail;
    } else {
      assert s == s[..i - 1] + [separator] + (segment + tail);
      SplitConcatenation(s[..i - 1], segment + tail, separator);
    }
  }

  lemma {:induction false} NonBlankStartTrims(s: string)
    requires s != "" && !IsSpace(s[0])
    ensures Trim(s) != ""
    decreases |s|
  {
    if IsSpace(s[|s| - 1]) {
      NonBlankStartTrims(s[..|s| - 1]);
    }
  }

  /** The order of `Array.prototype.sort` on strings: by code unit. */
  predicate Less(a: string, b: string) {
    b != "" && (a == "" || a[0] < b[0] || (a[0] == b[0] && Less(a[1..], b[1..])))
  }

  lemma {:induction false} LessTotal(a: string, b: string)
    ensures Less(a, b) || Less(b, a) || a == b
  {
    if a != "" && b != "" && a[0] == b[0] {
      LessTotal(a[1..], b[1..]);
      assert a == [a[0]] + a[1..] && b == [b[0]] + b[1..];
    }
  }

  lemma {:induction false} LessIrreflexive(a: string)
    ensures !Less(a, a)
  {
    if a != "" { LessIrreflexive(a[1..]); }
  }

  lemma {:induction false} LessTransitive(a: string, b: string, c: string)
    requires Less(a, b) && Less(b, c)
    ensures Less(a, c)
  {
    if a != "" && a[0] == b[0] && b[0] == c[0] {
      LessTransitive(a[1..], b[1..], c[1..]);
    }
  }

  ghost predicate StrictlySorted(xs: seq<string>) {
    forall i, j :: 0 <= i < j < |xs| ==> Less(xs[i], xs[j])
  }

  function Insert(x: string, xs: seq<string>): (r: seq<string>)
    requires StrictlySorted(xs)
    ensures StrictlySorted(r)
    ensures forall s :: s in r <==> s == x || s in xs
  {
    if xs == [] then [x]
    else if Less(x, xs[0]) then
      assert forall i :: 0 <= i < |xs| ==> Less(x, xs[i]) by {
        forall i | 0 < i < |xs| ensures Less(x, xs[i]) { LessTransitive(x, xs[0], xs[i]); }
      }
      [x] + xs
    else if x == xs[0] then xs
    else
      var rest := Insert(x, xs[1..]);
      assert forall i :: 0 <= i < |rest| ==> Less(xs[0], rest[i]) by {
        LessTotal(x, xs[0]);
        forall i | 0 <= i < |rest| ensures Less(xs[0], rest[i]) { assert rest[i] in rest; }
      }
      [xs[0]] + rest
  }

  /** `Array.from(new Set(xs)).sort()`. */
  function SortUnique(xs: seq<string>): (r: seq<string>)
    ensures StrictlySorted(r)
    ensures forall s :: s in r <==> s in xs
  {
    if xs == [] then [] else Insert(xs[0], SortUnique(xs[1..]))
  }

  /** A strictly sorted list is determined by its set of elements. */
  lemma {:induction false} SortedIsUnique(xs: seq<string>, ys: seq<string>)
    requires StrictlySorted(xs) && StrictlySorted(ys)
    requires forall s :: s in xs <==> s in ys
    ensures xs == ys
  {
    assert xs != [] ==> xs[0] in xs;
    assert ys != [] ==> ys[0] in ys;
    if xs != [] {
      HeadIsLeast(xs);
      HeadIsLeast(ys);
      assert xs[0] in ys && ys[0] in xs;
      if xs[0] != ys[0] {
        assert Less(xs[0], ys[0]) && Less(ys[0], xs[0]);
        LessTransitive(xs[0], ys[0], xs[0]);
        LessIrreflexive(xs[0]);
      }
      TailDropsHead(xs);
      TailDropsHead(ys);
      SortedIsUnique(xs[1..], ys[1..]);
    }
  }

  lemma HeadIsLeast(xs: seq<string>)
    requires StrictlySorted(xs) && xs != []
    ensures forall s :: s in xs ==> s == xs[0] || Less(xs[0], s)
  {
  }

  lemma TailDropsHead(xs: seq<string>)
    requires StrictlySorted(xs) && xs != []
    ensures StrictlySorted(xs[1..])
    ensures forall s :: s in xs[1..] <==> s in xs && s != xs[0]
  {
    forall s | s in xs[1..] ensures s != xs[0] {
      LessIrreflexive(s);
    }
  }

  /** Equal sets sort to equal lists. */
  lemma SortDependsOnSet(xs: seq<string>, ys: seq<string>)
    requires forall s :: s in xs <==> s in ys
    ensures SortUnique(xs) == SortUnique(ys)
  {
    SortedIsUnique(SortUnique(xs), SortUnique(ys));
  }

  lemma {:induction false} SortedHasNoDuplicates(xs: seq<string>)
    requires StrictlySorted(xs)
    ensures |xs| == |set s | s in xs|
  {
    if xs != [] {
      TailDropsHead(xs);
      SortedHasNoDuplicates(xs[1..]);
      assert (set s | s in xs) == (set s | s in xs[1..]) + {xs[0]};
    }
  }
}
