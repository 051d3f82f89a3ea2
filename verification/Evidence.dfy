/**
  * Evidence bundles of packages/agent-runtime/src/engine/evidence.ts: the checksum file, the optional
  * signature, and the verifier. Hash and signature scheme are parameters.
  */
module Evidence {
  import opened Basics
  import opened Strings
  import opened CommandLine

  const CHECKSUM_FILE := "checksums.sha256"
  const SIGNATURE_FILE := "checksums.sig"

  datatype Entry = File(contents: string) | Folder

  type Directory = map<string, Entry>

  datatype SignatureStatus = Missing | Untrusted | Verified | Invalid

  /** The signature scheme; `check` is false where the library throws. */
  datatype Scheme<!Key> = Scheme(sign: (Key, string) -> string, publicOf: Key -> Key, check: (Key, string, string) -> bool)

  datatype Keys<Key> = Keys(signing: Option<Key>, verification: Option<Key>)

  datatype Verification = Verification(
    valid: bool,
    missing: seq<string>,
    mismatched: seq<string>,
    unexpected: seq<string>,
    duplicateEntries: seq<string>,
    signature: SignatureStatus)

  // ---- checksum lines ----

  datatype Listed = Listed(hash: string, name: string)

  predicate HexDigest(s: string) {
    |s| == 64 && forall i :: 0 <= i < |s| ==> '0' <= s[i] <= '9' || 'a' <= s[i] <= 'f'
  }

  /** A digest, two blanks, and a name up to the end of the line. */
  function ParseLine(line: string): Option<Listed> {
    if |line| >= 67 && HexDigest(line[..64]) && IsSpace(line[64]) && IsSpace(line[65])
       && forall i :: 66 <= i < |line| ==> !IsLineTerminator(line[i])
    then Some(Listed(line[..64], line[66..]))
    else None
  }

  function Blankless(lines: seq<string>): seq<string> {
    if lines == [] then [] else (if Trim(lines[0]) == "" then [] else [lines[0]]) + Blankless(lines[1..])
  }

  function ChecksumLines(text: string): seq<string> {
    Blankless(Split(text, '\n'))
  }

  lemma {:induction false} BlanklessMeans(lines: seq<string>, line: string)
    ensures line in Blankless(lines) <==> line in lines && Trim(line) != ""
  {
    if lines != [] {
      BlanklessMeans(lines[1..], line);
      assert line in lines <==> line == lines[0] || line in lines[1..];
    }
  }

  /** The lines that count are those of the text with something in them. */
  lemma ChecksumLinesMean(text: string, line: string)
    ensures line in ChecksumLines(text) <==> line in Split(text, '\n') && exists i :: 0 <= i < |line| && !IsSpace(line[i])
  {
    BlanklessMeans(Split(text, '\n'), line);
    var before, after := TrimSplits(line);
    if Trim(line) != "" {
      assert line[|before|] == Trim(line)[0];
    }
  }

  predicate Admissible(name: string) {
    BaseName(name) == name && !Contains(name, "..") && name != CHECKSUM_FILE && name != SIGNATURE_FILE
  }

  // ---- the findings of the verifier, line by line ----

  datatype Findings = Findings(missing: seq<string>, mismatched: seq<string>, duplicates: seq<string>, expected: set<string>) {
    predicate Clean() {
      missing == [] && mismatched == [] && duplicates == []
    }
  }

  function CheckLine(f: Findings, line: string, dir: Directory, sha: string -> string): (r: Exit<Findings>)
    ensures !r.Crashed?
  {
    var parsed := ParseLine(line);
    if parsed.None? then Done(f.(mismatched := f.mismatched + [line]))
    else
      var name := parsed.value.name;
      if !Admissible(name) then Done(f.(mismatched := f.mismatched + [name]))
      else if name in f.expected then Done(f.(duplicates := f.duplicates + [name]))
      else
        var noted := f.(expected := f.expected + {name});
        if name !in dir then Done(noted.(missing := f.missing + [name]))
        else if dir[name].Folder? then Thrown(EvidenceFailure)
        else if sha(dir[name].contents) != parsed.value.hash then Done(noted.(mismatched := f.mismatched + [name]))
        else Done(noted)
  }

  const NOTHING := Findings([], [], [], {})

  function CheckLines(lines: seq<string>, dir: Directory, sha: string -> string): (r: Exit<Findings>)
    ensures !r.Crashed?
  {
    if lines == [] then Done(NOTHING)
    else
      var f :- CheckLines(lines[..|lines| - 1], dir, sha);
      CheckLine(f, lines[|lines| - 1], dir, sha)
  }

  predicate Unexpected(name: string, dir: Directory, expected: set<string>)
    requires name in dir
  {
    name != CHECKSUM_FILE && name != SIGNATURE_FILE && (dir[name].Folder? || name !in expected)
  }

  function StatusOf<Key>(dir: Directory, text: string, keys: Keys<Key>, scheme: Scheme<Key>): SignatureStatus {
    if SIGNATURE_FILE !in dir then Missing
    else if keys.verification.None? && keys.signing.None? then Untrusted
    else if dir[SIGNATURE_FILE].Folder? then Invalid
    else
      var key := if keys.verification.Some? then keys.verification.value else scheme.publicOf(keys.signing.value);
      if scheme.check(key, text, Trim(dir[SIGNATURE_FILE].contents)) then Verified else Invalid
  }

  method ListDirectory(dir: Directory) returns (names: seq<string>)
    ensures forall n :: n in names <==> n in dir
  {
    names := [];
    var rest := dir.Keys;
    while rest != {}
      invariant rest <= dir.Keys
      invariant forall n :: n in names <==> n in dir.Keys - rest
      decreases rest
    {
      var n :| n in rest;
      names := names + [n];
      rest := rest - {n};
    }
  }

  method ListUnexpected(dir: Directory, expected: set<string>) returns (unexpected: seq<string>)
    ensures StrictlySorted(unexpected)
    ensures forall n :: n in unexpected <==> n in dir && Unexpected(n, dir, expected)
  {
    var names := ListDirectory(dir);
    var found: seq<string> := [];
    for i := 0 to |names|
      invariant forall n :: n in found <==> n in names[..i] && Unexpected(n, dir, expected)
    {
      assert names[i] in names && forall n :: n in names[..i + 1] <==> n in names[..i] || n == names[i];
      if Unexpected(names[i], dir, expected) {
        found := found + [names[i]];
      }
    }
    assert names[..|names|] == names;
    unexpected := SortUnique(found);
  }

  /** The loop over the checksum lines. */
  method CheckListed(lines: seq<string>, dir: Directory, sha: string -> string) returns (r: Exit<Findings>)
    ensures r == CheckLines(lines, dir, sha)
  {
    hide ParseLine, Admissible;
    var missing: seq<string>, mismatched: seq<string>, duplicateEntries: seq<string> := [], [], [];
    var expectedNames: set<string> := {};
    for i := 0 to |lines|
      invariant CheckLines(lines[..i], dir, sha) == Done(Findings(missing, mismatched, duplicateEntries, expectedNames))
    {
      var line := lines[i];
      assert lines[..i + 1][..i] == lines[..i];
      var match_ := ParseLine(line);
      if match_.None? {
        mismatched := mismatched + [line];
        continue;
      }
      var name := match_.value.name;
      if !Admissible(name) {
        mismatched := mismatched + [name];
        continue;
      }
      if name in expectedNames {
        duplicateEntries := duplicateEntries + [name];
        continue;
      }
      expectedNames := expectedNames + {name};
      if name !in dir {
        missing := missing + [name];
        continue;
      }
      if dir[name].Folder? {
        ThrowsAtOnce(lines, i, dir, sha);
        return Thrown(EvidenceFailure);
      }
      if sha(dir[name].contents) != match_.value.hash {
        mismatched := mismatched + [name];
      }
    }
    assert lines[..|lines|] == lines;
    r := Done(Findings(missing, mismatched, duplicateEntries, expectedNames));
  }

  lemma {:induction false} ThrowsAtOnce(lines: seq<string>, i: nat, dir: Directory, sha: string -> string)
    requires i < |lines| && CheckLines(lines[..i + 1], dir, sha) == Thrown(EvidenceFailure)
    ensures CheckLines(lines, dir, sha) == Thrown(EvidenceFailure)
    decreases |lines|
  {
    if i + 1 == |lines| {
      assert lines[..i + 1] == lines;
    } else {
      var front := lines[..|lines| - 1];
      assert front[..i + 1] == lines[..i + 1];
      ThrowsAtOnce(front, i, dir, sha);
    }
  }

  // ---- what validity means ----

  ghost predicate LineAgrees(line: string, dir: Directory, sha: string -> string) {
    && ParseLine(line).Some?
    && var listed := ParseLine(line).value;
       && Admissible(listed.name) && listed.name in dir && dir[listed.name].File?
       && sha(dir[listed.name].contents) == listed.hash
  }

  function NameOf(line: string): string {
    if ParseLine(line).Some? then ParseLine(line).value.name else ""
  }

  ghost predicate Agree(lines: seq<string>, dir: Directory, sha: string -> string) {
    && (forall i :: 0 <= i < |lines| ==> LineAgrees(lines[i], dir, sha))
    && (forall i, j :: 0 <= i < j < |lines| ==> NameOf(lines[i]) != NameOf(lines[j]))
  }

  ghost predicate Names(lines: seq<string>, name: string) {
    exists i :: 0 <= i < |lines| && NameOf(lines[i]) == name
  }

  lemma {:induction false} CleanIffAgree(lines: seq<string>, dir: Directory, sha: string -> string)
    ensures CheckLines(lines, dir, sha).Done? && CheckLines(lines, dir, sha).value.Clean() <==> Agree(lines, dir, sha)
    ensures Agree(lines, dir, sha) ==>
              forall name :: name in CheckLines(lines, dir, sha).value.expected <==> Names(lines, name)
    decreases |lines|
  {
    hide ParseLine, Admissible, Agree, Names;
    if lines == [] {
      NoLinesAgree(dir, sha);
    } else {
      var front, last := lines[..|lines| - 1], lines[|lines| - 1];
      CleanIffAgree(front, dir, sha);
      AgreeGrows(lines, dir, sha);
      forall name ensures Names(lines, name) <==> Names(front, name) || name == NameOf(last) {
        NamesGrow(lines, name);
      }
    }
  }

  lemma NoLinesAgree(dir: Directory, sha: string -> string)
    ensures Agree([], dir, sha) && forall name :: !Names([], name)
  {
  }

  lemma NamesGrow(lines: seq<string>, name: string)
    requires lines != []
    ensures Names(lines, name) <==> Names(lines[..|lines| - 1], name) || name == NameOf(lines[|lines| - 1])
  {
    hide NameOf;
    var front := lines[..|lines| - 1];
    if Names(front, name) {
      var i :| 0 <= i < |front| && NameOf(front[i]) == name;
      assert NameOf(lines[i]) == name;
    }
  }

  lemma AgreeGrows(lines: seq<string>, dir: Directory, sha: string -> string)
    requires lines != []
    ensures var front, last := lines[..|lines| - 1], lines[|lines| - 1];
            Agree(lines, dir, sha) <==> Agree(front, dir, sha) && LineAgrees(last, dir, sha) && !Names(front, NameOf(last))
  {
    hide NameOf, LineAgrees;
    var front := lines[..|lines| - 1];
    assert forall i :: 0 <= i < |front| ==> lines[i] == front[i];
  }

  /** The directory is exactly what the checksum file says. */
  ghost predicate Exact(dir: Directory, sha: string -> string) {
    && CHECKSUM_FILE in dir && dir[CHECKSUM_FILE].File?
    && var lines := ChecksumLines(dir[CHECKSUM_FILE].contents);
       && Agree(lines, dir, sha)
       && (forall n :: n in dir && n != CHECKSUM_FILE && n != SIGNATURE_FILE ==> dir[n].File? && Names(lines, n))
  }

  /**
    * Tamper evidence: under a hash that tells contents apart, the checksum file determines every other file. Of two
    * exact bundles with the same checksum file, none has a payload file more, or other contents in one.
    */
  lemma ChecksumsFixTheFiles(a: Directory, b: Directory, sha: string -> string)
    requires Exact(a, sha) && Exact(b, sha) && a[CHECKSUM_FILE] == b[CHECKSUM_FILE]
    requires forall s, t :: sha(s) == sha(t) ==> s == t
    ensures forall n :: n != SIGNATURE_FILE ==> (n in a <==> n in b)
    ensures forall n :: n != SIGNATURE_FILE && n in a && n in b ==> a[n] == b[n]
  {
    hide ParseLine, Admissible, ChecksumLines;
    forall n | n != SIGNATURE_FILE && n in a ensures n in b && b[n] == a[n] {
      ListedInBoth(a, b, sha, n);
    }
    forall n | n != SIGNATURE_FILE && n in b ensures n in a {
      ListedInBoth(b, a, sha, n);
    }
  }

  lemma ListedInBoth(a: Directory, b: Directory, sha: string -> string, n: string)
    requires Exact(a, sha) && Exact(b, sha) && a[CHECKSUM_FILE] == b[CHECKSUM_FILE]
    requires forall s, t :: sha(s) == sha(t) ==> s == t
    requires n in a && n != SIGNATURE_FILE
    ensures n in b && b[n] == a[n]
  {
    hide ParseLine, Admissible, ChecksumLines;
    var lines := ChecksumLines(a[CHECKSUM_FILE].contents);
    if n != CHECKSUM_FILE {
      var i :| 0 <= i < |lines| && NameOf(lines[i]) == n;
      assert LineAgrees(lines[i], a, sha) && LineAgrees(lines[i], b, sha);
      assert sha(a[n].contents) == sha(b[n].contents);
    }
  }

  /** A name may be listed exactly if it is one segment without two dots in a row, and not one of the bundle's own. */
  lemma AdmissibleMeans(name: string)
    ensures Admissible(name) <==>
            && '/' !in name && (forall i :: 0 <= i < |name| - 1 ==> name[i] != '.' || name[i + 1] != '.')
            && name != "checksums.sha256" && name != "checksums.sig"
  {
    hide BaseName, Contains;
    BaseNameMeans(name);
    TwinDotsMean(name);
  }

  lemma BaseNameMeans(name: string)
    ensures BaseName(name) == name <==> '/' !in name
  {
    var parts := Split(DropTrailingSlashes(name), '/');
    SplitParts(DropTrailingSlashes(name));
    assert parts[|parts| - 1] in parts;
    if '/' !in name && name != "" {
      PlainBaseName(name);
    }
  }

  lemma TwinDotsMean(name: string)
    ensures Contains(name, "..") <==> exists i :: 0 <= i < |name| - 1 && name[i] == '.' && name[i + 1] == '.'
  {
    if i :| 0 <= i < |name| - 1 && name[i] == '.' && name[i + 1] == '.' {
      assert name[i..][0] == '.' && name[i..][1] == '.';
      assert ".." <= name[i..];
    }
    if i :| 0 <= i <= |name| && ".." <= name[i..] {
      assert name[i] == name[i..][0] == '.' && name[i + 1] == name[i..][1] == '.';
    }
  }

  /** A line is read exactly if it is a digest, two blanks, and a name that ends with the line. */
  lemma LineMeans(line: string, l: Listed)
    ensures ParseLine(line) == Some(l) <==>
            && |line| >= 67 && line[..64] == l.hash && line[66..] == l.name && IsSpace(line[64]) && IsSpace(line[65])
            && (forall c :: c in l.hash ==> c in "0123456789abcdef")
            && (forall c :: c in l.name ==> !IsLineTerminator(c))
  {
    hide IsSpace, IsLineTerminator;
    if |line| >= 67 {
      var hash, name := line[..64], line[66..];
      DigestMeans(hash);
      assert (forall i :: 66 <= i < |line| ==> !IsLineTerminator(line[i])) <==>
             (forall c :: c in name ==> !IsLineTerminator(c)) by {
        assert forall i :: 66 <= i < |line| ==> line[i] == name[i - 66] && line[i] in name;
      }
    }
  }

  lemma DigestMeans(hash: string)
    ensures HexDigest(hash) <==> |hash| == 64 && forall c :: c in hash ==> c in "0123456789abcdef"
  {
    forall c: char ensures '0' <= c <= '9' || 'a' <= c <= 'f' <==> c in "0123456789abcdef" {
      HexMeans(c);
    }
    assert forall i :: 0 <= i < |hash| ==> hash[i] in hash;
  }

  lemma HexMeans(c: char)
    ensures '0' <= c <= '9' || 'a' <= c <= 'f' <==> c in "0123456789abcdef"
  {
    var hex := "0123456789abcdef";
    if '0' <= c <= '9' {
      assert hex[c as int - '0' as int] == c;
    } else if 'a' <= c <= 'f' {
      assert hex[10 + (c as int - 'a' as int)] == c;
    }
  }

  /**
    * The verifier reports a bundle as valid exactly when every checksum line is well formed, names are
    * distinct, admissible and those of the payload files present, hashes agree, and the signature, if
    * there is one and a key to check it with, is good.
    */
  method VerifyEvidenceBundle<Key>(dir: Directory, keys: Keys<Key>, scheme: Scheme<Key>, sha: string -> string)
    returns (r: Exit<Verification>)
    ensures SIGNATURE_FILE !in dir || (keys.verification.None? && keys.signing.None?) ==>
              (r.Done? && r.value.valid <==> Exact(dir, sha))
    ensures SIGNATURE_FILE in dir && keys.verification.Some? ==>
              (r.Done? && r.value.valid <==>
                 && Exact(dir, sha) && dir[SIGNATURE_FILE].File?
                 && scheme.check(keys.verification.value, dir[CHECKSUM_FILE].contents,
                                 Trim(dir[SIGNATURE_FILE].contents)))
    ensures SIGNATURE_FILE in dir && keys.verification.None? && keys.signing.Some? ==>
              (r.Done? && r.value.valid <==>
                 && Exact(dir, sha) && dir[SIGNATURE_FILE].File?
                 && scheme.check(scheme.publicOf(keys.signing.value), dir[CHECKSUM_FILE].contents,
                                 Trim(dir[SIGNATURE_FILE].contents)))
    ensures r.Done? && CHECKSUM_FILE in dir && dir[CHECKSUM_FILE].File? ==>
              r.value.signature ==
                if SIGNATURE_FILE !in dir then Missing
                else if keys.verification.None? && keys.signing.None? then Untrusted
                else if dir[SIGNATURE_FILE].File?
                        && scheme.check(if keys.verification.Some? then keys.verification.value
                                        else scheme.publicOf(keys.signing.value),
                                        dir[CHECKSUM_FILE].contents, Trim(dir[SIGNATURE_FILE].contents))
                then Verified
                else Invalid
    ensures CHECKSUM_FILE !in dir ==> r == Done(Verification(false, [CHECKSUM_FILE], [], [], [], Missing))
    ensures CHECKSUM_FILE in dir && dir[CHECKSUM_FILE].Folder? ==> r == Thrown(EvidenceFailure)
    ensures CHECKSUM_FILE in dir && dir[CHECKSUM_FILE].File? ==>
              var text := dir[CHECKSUM_FILE].contents;
              var checked := CheckLines(ChecksumLines(text), dir, sha);
              && (r.Done? <==> checked.Done?) && !r.Crashed?
              && (r.Done? ==>
                    && r.value.missing == checked.value.missing && r.value.mismatched == checked.value.mismatched
                    && r.value.duplicateEntries == checked.value.duplicates
                    && (forall n :: n in r.value.unexpected <==> n in dir && Unexpected(n, dir, checked.value.expected))
                    && (r.value.valid <==> checked.value.Clean() && r.value.unexpected == [] && r.value.signature != Invalid))
  {
    hide CheckLine, Split, ParseLine, Admissible, LineAgrees, Blankless;
    if CHECKSUM_FILE !in dir {
      return Done(Verification(false, [CHECKSUM_FILE], [], [], [], Missing));
    }
    if dir[CHECKSUM_FILE].Folder? {
      return Thrown(EvidenceFailure);
    }
    var text := dir[CHECKSUM_FILE].contents;
    var checking := CheckListed(ChecksumLines(text), dir, sha);
    CleanIffAgree(ChecksumLines(text), dir, sha);
    var found :- checking;
    var unexpected := ListUnexpected(dir, found.expected);
    assert unexpected != [] ==> unexpected[0] in unexpected;
    var signature := StatusOf(dir, text, keys, scheme);
    var valid := |found.missing| == 0 && |found.mismatched| == 0 && |unexpected| == 0 && |found.duplicates| == 0
                 && signature != Invalid;
    r := Done(Verification(valid, found.missing, found.mismatched, unexpected, found.duplicates, signature));
  }

  // ---- writing a bundle ----

  /** A file name that survives being listed. */
  predicate PayloadName(name: string) {
    name != "" && Admissible(name) && forall i :: 0 <= i < |name| ==> !IsLineTerminator(name[i])
  }

  function ChecksumLine(hash: string, name: string): string {
    hash + "  " + name
  }

  /** `lines.join("\n")`. */
  function JoinLines(lines: seq<string>): string {
    if lines == [] then "" else if |lines| == 1 then lines[0] else lines[0] + "\n" + JoinLines(lines[1..])
  }

  lemma LineReadsBack(hash: string, name: string)
    requires HexDigest(hash) && name != "" && forall i :: 0 <= i < |name| ==> !IsLineTerminator(name[i])
    ensures ParseLine(ChecksumLine(hash, name)) == Some(Listed(hash, name))
    ensures '\n' !in ChecksumLine(hash, name) && Trim(ChecksumLine(hash, name)) != ""
  {
    var line := ChecksumLine(hash, name);
    assert line[..64] == hash && line[66..] == name;
    NonBlankStartTrims(line);
  }

  lemma {:induction false} JoinedLinesSplit(lines: seq<string>)
    requires lines != [] && forall l :: l in lines ==> '\n' !in l
    ensures Split(JoinLines(lines) + "\n", '\n') == lines + [""]
  {
    var first := lines[0];
    assert first in lines;
    assert Split("", '\n') == [""];
    if |lines| == 1 {
      SplitAfter("", '\n');
      SplitAt(first, "\n", '\n');
      assert ['\n'] + "" == "\n" && [""] + [""] == ["", ""] && ["", ""][1..] == [""] && lines == [first];
    } else {
      var rest := JoinLines(lines[1..]) + "\n";
      JoinedLinesSplit(lines[1..]);
      SplitAfter(rest, '\n');
      SplitAt(first, ['\n'] + rest, '\n');
      assert JoinLines(lines) + "\n" == first + (['\n'] + rest);
      assert ([""] + (lines[1..] + [""]))[1..] == lines[1..] + [""];
      assert [first] + (lines[1..] + [""]) == lines + [""];
    }
  }

  lemma {:induction false} NoneAreBlank(lines: seq<string>)
    requires forall l :: l in lines ==> Trim(l) != ""
    ensures Blankless(lines + [""]) == lines
  {
    if lines == [] {
      assert [""][1..] == [] && lines + [""] == [""];
    } else {
      assert lines[0] in lines && (lines + [""])[1..] == lines[1..] + [""];
      NoneAreBlank(lines[1..]);
    }
  }

  /** The checksum line of each name, in order. */
  function LinesFor(names: seq<string>, dir: Directory, sha: string -> string): (lines: seq<string>)
    requires forall i :: 0 <= i < |names| ==> names[i] in dir && dir[names[i]].File?
    ensures |lines| == |names|
    ensures forall i :: 0 <= i < |names| ==> lines[i] == ChecksumLine(sha(dir[names[i]].contents), names[i])
  {
    seq(|names|, i requires 0 <= i < |names| => ChecksumLine(sha(dir[names[i]].contents), names[i]))
  }

  /** Names and contents survive the checksum file. */
  lemma ListedBundleAgrees(names: seq<string>, dir: Directory, sha: string -> string)
    requires names != [] && StrictlySorted(names)
    requires forall i :: 0 <= i < |names| ==> names[i] in dir && dir[names[i]].File? && PayloadName(names[i])
    requires forall s :: HexDigest(sha(s))
    ensures ChecksumLines(JoinLines(LinesFor(names, dir, sha)) + "\n") == LinesFor(names, dir, sha)
    ensures Agree(LinesFor(names, dir, sha), dir, sha)
    ensures forall n :: n in names ==> Names(LinesFor(names, dir, sha), n)
  {
    hide ParseLine, Admissible, ChecksumLine, Trim, Less, HexDigest, JoinLines, Blankless, Split;
    var lines := LinesFor(names, dir, sha);
    forall i | 0 <= i < |lines|
      ensures '\n' !in lines[i] && Trim(lines[i]) != "" && LineAgrees(lines[i], dir, sha) && NameOf(lines[i]) == names[i]
    {
      LineReadsBack(sha(dir[names[i]].contents), names[i]);
    }
    JoinedLinesSplit(lines);
    NoneAreBlank(lines);
    forall i, j | 0 <= i < j < |lines| ensures NameOf(lines[i]) != NameOf(lines[j]) {
      LessIrreflexive(names[i]);
    }
    forall n | n in names ensures Names(lines, n) {
      var i :| 0 <= i < |names| && names[i] == n;
      assert NameOf(lines[i]) == n;
    }
  }

  /** The texts of a bundle, before redaction. */
  datatype Texts = Texts(
    summary: string, manifest: string, plan: string, events: string, approvals: string, decisions: string,
    validations: string, patch: string)

  function PayloadFiles(t: Texts, redact: string -> string): Directory {
    map["summary.md" := File(redact(t.summary)),
        "manifest.json" := File(redact(t.manifest)),
        "plan.snapshot.json" := File(redact(t.plan)),
        "events.jsonl" := File(redact(t.events)),
        "approvals.json" := File(redact(t.approvals)),
        "policy-decisions.json" := File(redact(t.decisions)),
        "validations.json" := File(redact(t.validations)),
        "patch.diff" := File(redact(t.patch))]
  }

  ghost predicate Payload(files: Directory) {
    files.Keys != {} && forall n :: n in files ==> files[n].File? && PayloadName(n)
  }

  /** Files whose checksum lines are in the checksum file, plus perhaps a signature, are an exact bundle. */
  lemma SealedIsExact(payload: Directory, dir: Directory, names: seq<string>, text: string, sha: string -> string)
    requires Payload(payload) && StrictlySorted(names) && names != [] && forall n :: n in names <==> n in payload
    requires forall s :: HexDigest(sha(s))
    requires text == JoinLines(LinesFor(names, payload, sha)) + "\n"
    requires CHECKSUM_FILE in dir && dir[CHECKSUM_FILE] == File(text)
    requires forall n :: n in payload ==> n in dir && dir[n] == payload[n]
    requires forall n :: n in dir ==> n in payload || n == CHECKSUM_FILE || n == SIGNATURE_FILE
    ensures Exact(dir, sha)
  {
    hide ParseLine, Admissible, ChecksumLine, JoinLines, ChecksumLines, HexDigest, StrictlySorted, Agree, Names;
    assert LinesFor(names, dir, sha) == LinesFor(names, payload, sha);
    ListedBundleAgrees(names, dir, sha);
  }

  /** Lists the payload files and their checksums, and signs the list when there is a key. */
  method SealBundle<Key>(payload: Directory, signing: Option<Key>, scheme: Scheme<Key>, sha: string -> string)
    returns (dir: Directory)
    requires Payload(payload) && forall s :: HexDigest(sha(s))
    ensures Exact(dir, sha)
    ensures forall n :: n in payload ==> n in dir && dir[n] == payload[n]
    ensures SIGNATURE_FILE in dir <==> signing.Some?
    ensures signing.Some? ==>
              dir[SIGNATURE_FILE] == File(scheme.sign(signing.value, dir[CHECKSUM_FILE].contents) + "\n")
  {
    hide ParseLine, Admissible, ChecksumLine, HexDigest, Agree, Names, ChecksumLines, JoinLines, Exact;
    assert CHECKSUM_FILE !in payload && SIGNATURE_FILE !in payload by { OwnFilesAreNotPayload(payload); }
    var listed := ListDirectory(payload);
    var files := SortUnique(listed);
    assert files != [] by {
      var n :| n in payload.Keys;
      assert n in files;
    }
    var lines: seq<string> := [];
    for i := 0 to |files|
      invariant |lines| == i
      invariant forall k :: 0 <= k < i ==>
                  && files[k] in payload && payload[files[k]].File?
                  && lines[k] == ChecksumLine(sha(payload[files[k]].contents), files[k])
    {
      assert files[i] in files;
      lines := lines + [ChecksumLine(sha(payload[files[i]].contents), files[i])];
    }
    assert lines == LinesFor(files, payload, sha);
    var text := JoinLines(lines) + "\n";
    dir := payload[CHECKSUM_FILE := File(text)];
    if signing.Some? {
      dir := dir[SIGNATURE_FILE := File(scheme.sign(signing.value, text) + "\n")];
    }
    SealedIsExact(payload, dir, files, text, sha);
  }

  lemma OwnFilesAreNotPayload(payload: Directory)
    requires Payload(payload)
    ensures CHECKSUM_FILE !in payload && SIGNATURE_FILE !in payload
  {
  }

  /** `writeEvidenceBundle`: the redacted payload files, their checksums, and the signature. */
  method WriteEvidenceBundle<Key>(t: Texts, redact: string -> string, signing: Option<Key>, scheme: Scheme<Key>,
                                  sha: string -> string)
    returns (dir: Directory)
    requires forall s :: HexDigest(sha(s))
    ensures Exact(dir, sha)
    ensures forall n :: n in PayloadFiles(t, redact) ==> n in dir && dir[n] == PayloadFiles(t, redact)[n]
    ensures SIGNATURE_FILE in dir <==> signing.Some?
    ensures signing.Some? ==>
              dir[SIGNATURE_FILE] == File(scheme.sign(signing.value, dir[CHECKSUM_FILE].contents) + "\n")
  {
    hide Exact, PayloadName, HexDigest;
    var payload: Directory := map[];
    payload := payload["summary.md" := File(redact(t.summary))];
    payload := payload["manifest.json" := File(redact(t.manifest))];
    payload := payload["plan.snapshot.json" := File(redact(t.plan))];
    payload := payload["events.jsonl" := File(redact(t.events))];
    payload := payload["approvals.json" := File(redact(t.approvals))];
    payload := payload["policy-decisions.json" := File(redact(t.decisions))];
    payload := payload["validations.json" := File(redact(t.validations))];
    payload := payload["patch.diff" := File(redact(t.patch))];
    assert payload == PayloadFiles(t, redact);
    FixedNamesArePayload();
    assert "summary.md" in payload.Keys;
    dir := SealBundle(payload, signing, scheme, sha);
  }

  predicate PlainPart(s: string) {
    s != "" && '.' !in s && '/' !in s && forall i :: 0 <= i < |s| ==> !IsLineTerminator(s[i])
  }

  /** What may follow the first dot. */
  predicate Suffix(s: string) {
    && s != "" && s[0] != '.' && '/' !in s
    && forall i :: 0 <= i < |s| ==> !IsLineTerminator(s[i]) && (s[i] == '.' && i + 1 < |s| ==> s[i + 1] != '.')
  }

  lemma FirstDot(first: string, rest: string, k: nat)
    requires '.' !in first && k < |first + "." + rest| && (first + "." + rest)[k] == '.'
    requires forall i :: 0 <= i < k ==> (first + "." + rest)[i] != '.'
    ensures |first| == k
  {
    var name := first + "." + rest;
    assert name[|first|] == '.';
    assert forall i :: 0 <= i < |first| ==> name[i] in first;
  }

  lemma OwnNamesStartWithChecksums(first: string, rest: string)
    requires '.' !in first && first + "." + rest in {CHECKSUM_FILE, SIGNATURE_FILE}
    ensures first == "checksums"
  {
    var name := first + "." + rest;
    assert name[9] == '.' && name[..9] == "checksums";
    assert forall i :: 0 <= i < 9 ==> name[i] == "checksums"[i] && name[i] != '.';
    FirstDot(first, rest, 9);
    assert name[..|first|] == first;
  }

  lemma DottedNameIsPayload(first: string, rest: string)
    requires PlainPart(first) && Suffix(rest) && first != "checksums"
    ensures PayloadName(first + "." + rest)
  {
    var name := first + "." + rest;
    assert name == first + ("." + rest);
    PlainBaseName(name);
    assert !Contains(name, "..") by {
      forall i | 0 <= i <= |name| ensures !(".." <= name[i..]) {
        if ".." <= name[i..] {
          NoTwinDots(first, rest, i);
        }
      }
    }
    if name in {CHECKSUM_FILE, SIGNATURE_FILE} {
      OwnNamesStartWithChecksums(first, rest);
    }
  }

  lemma NoTwinDots(first: string, rest: string, i: nat)
    requires '.' !in first && Suffix(rest)
    ensures i + 1 < |first + "." + rest| ==> !((first + "." + rest)[i] == '.' && (first + "." + rest)[i + 1] == '.')
  {
    var name := first + "." + rest;
    if i < |first| {
      assert name[i] in first;
    } else if |first| < i < |name| - 1 {
      assert name[i] == rest[i - |first| - 1] && name[i + 1] == rest[i - |first|];
    }
  }

  lemma PlainBaseName(name: string)
    requires name != "" && '/' !in name
    ensures BaseName(name) == name
  {
    assert name[|name| - 1] in name;
    SplitAt(name, "", '/');
    assert name + "" == name && Split("", '/') == [""] && [name] + [""][1..] == [name];
  }

  lemma RecordsArePayload()
    ensures PayloadName("summary.md") && PayloadName("manifest.json")
  {
    hide PayloadName;
    DottedNameIsPayload("summary", "md");
    DottedNameIsPayload("manifest", "json");
    assert "summary" + "." + "md" == "summary.md";
    assert "manifest" + "." + "json" == "manifest.json";
  }

  lemma PlanIsPayload()
    ensures PayloadName("plan.snapshot.json")
  {
    hide PayloadName;
    DottedNameIsPayload("plan", "snapshot.json");
    assert "plan" + "." + "snapshot.json" == "plan.snapshot.json";
  }

  lemma LogsArePayload()
    ensures PayloadName("events.jsonl") && PayloadName("approvals.json")
  {
    hide PayloadName;
    DottedNameIsPayload("events", "jsonl");
    DottedNameIsPayload("approvals", "json");
    assert "events" + "." + "jsonl" == "events.jsonl";
    assert "approvals" + "." + "json" == "approvals.json";
  }

  lemma OutcomesArePayload()
    ensures PayloadName("validations.json") && PayloadName("patch.diff")
  {
    hide PayloadName;
    DottedNameIsPayload("validations", "json");
    DottedNameIsPayload("patch", "diff");
    assert "validations" + "." + "json" == "validations.json";
    assert "patch" + "." + "diff" == "patch.diff";
  }

  lemma DecisionsArePayload()
    ensures PayloadName("policy-decisions.json")
  {
    hide PayloadName;
    DottedNameIsPayload("policy-decisions", "json");
    assert "policy-decisions" + "." + "json" == "policy-decisions.json";
  }

  lemma FixedNamesArePayload()
    ensures PayloadName("summary.md") && PayloadName("manifest.json") && PayloadName("plan.snapshot.json")
    ensures PayloadName("events.jsonl") && PayloadName("approvals.json") && PayloadName("policy-decisions.json")
    ensures PayloadName("validations.json") && PayloadName("patch.diff")
  {
    hide PayloadName;
    RecordsArePayload();
    PlanIsPayload();
    LogsArePayload();
    DecisionsArePayload();
    OutcomesArePayload();
  }

  // ---- the round trip ----

  /** What a public key makes of a signature as it is stored. */
  ghost predicate SchemeOk<Key(!new)>(scheme: Scheme<Key>) {
    forall key, text :: scheme.check(scheme.publicOf(key), text, Trim(scheme.sign(key, text) + "\n"))
  }

  /** The verifier can use the signer's key pair: it was given the public key, or the signing key itself, or nothing. */
  predicate MatchingKeys<Key(==)>(signing: Option<Key>, keys: Keys<Key>, scheme: Scheme<Key>) {
    signing.Some? ==>
      && (keys.verification.Some? ==> keys.verification.value == scheme.publicOf(signing.value))
      && (keys.verification.None? && keys.signing.Some? ==> keys.signing.value == signing.value)
  }

  /** Every bundle just written verifies: without keys, or with keys that belong together. */
  method WriteAndVerify<Key(!new,==)>(t: Texts, redact: string -> string, signing: Option<Key>, keys: Keys<Key>,
                            scheme: Scheme<Key>,
                              sha: string -> string) returns (r: Exit<Verification>)
    requires (forall s :: HexDigest(sha(s))) && SchemeOk(scheme) && MatchingKeys(signing, keys, scheme)
    ensures r.Done? && r.value.valid
    ensures r.value.signature == if signing.None? then Missing
                                 else if keys.verification.None? && keys.signing.None? then Untrusted else Verified
  {
    hide Exact, HexDigest, CheckLines, ChecksumLines;
    var dir := WriteEvidenceBundle(t, redact, signing, scheme, sha);
    assert CHECKSUM_FILE in dir && dir[CHECKSUM_FILE].File? by { ExactHasChecksums(dir, sha); }
    r := VerifyEvidenceBundle(dir, keys, scheme, sha);
  }

  lemma ExactHasChecksums(dir: Directory, sha: string -> string)
    requires Exact(dir, sha)
    ensures CHECKSUM_FILE in dir && dir[CHECKSUM_FILE].File?
  {
  }
}
