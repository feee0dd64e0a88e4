/**
 Accepted-line counting: the parser that reads a unified diff line by line, the printer of a
 structured git diff, and the proof that the parser undoes the printer.

 Fingerprints are kept as the pair that the source hashes. `isAlphanumeric` stands for the
 Unicode test of that name and is left open.
 */
module DiffParser {
  import opened Basics

  datatype Fingerprint = Fingerprint(path: string, line: string)

  datatype Summary = Summary(added: nat, deleted: nat, fingerprints: seq<Fingerprint>)

  // ---------------------------------------------------------------- text helpers

  /** The Unicode `White_Space` characters. */
  predicate IsSpace(c: char) {
    var n := c as int;
    || 0x09 <= n <= 0x0D || n == 0x20 || n == 0x85 || n == 0xA0 || n == 0x1680
    || 0x2000 <= n <= 0x200A || n == 0x2028 || n == 0x2029 || n == 0x202F || n == 0x205F || n == 0x3000
  }

  function Utf8Width(c: char): nat {
    var n := c as int;
    if n < 0x80 then 1 else if n < 0x800 then 2 else if n < 0x10000 then 3 else 4
  }

  function Utf8Length(s: string): nat {
    if s == [] then 0 else Utf8Width(s[0]) + Utf8Length(s[1..])
  }

  function TrimStart(s: string): string {
    if s != [] && IsSpace(s[0]) then TrimStart(s[1..]) else s
  }

  function TrimEnd(s: string): string {
    if s != [] && IsSpace(s[|s| - 1]) then TrimEnd(s[..|s| - 1]) else s
  }

  /** `str::trim`. */
  function Trim(s: string): string {
    TrimEnd(TrimStart(s))
  }

  /** The length of the word at the front. */
  function WordLength(s: string): (n: nat)
    ensures n <= |s|
    ensures s != [] && !IsSpace(s[0]) ==> n > 0
  {
    if s == [] || IsSpace(s[0]) then 0 else 1 + WordLength(s[1..])
  }

  /** `str::split_whitespace`. */
  function Words(s: string): seq<string>
    decreases |s|
  {
    if s == [] then []
    else if IsSpace(s[0]) then Words(s[1..])
    else [s[..WordLength(s)]] + Words(s[WordLength(s)..])
  }

  function JoinWords(words: seq<string>): string {
    if words == [] then "" else if |words| == 1 then words[0] else words[0] + " " + JoinWords(words[1..])
  }

  // ---------------------------------------------------------------- the parser

  const GIT := "diff --git "
  const HUNK := "@@ "
  const NEW := "+++ "
  const OLD := "--- "

  function NormalizePath(path: string): Option<string> {
    var p := Trim(path);
    if p == "/dev/null" then None
    else if "b/" <= p || "a/" <= p then Some(p[2..])
    else Some(p)
  }

  function NormalizeLine(isAlphanumeric: char -> bool, line: string): Option<string> {
    var n := JoinWords(Words(line));
    if Utf8Length(n) <= 3 then None
    else if !exists i :: 0 <= i < |n| && (isAlphanumeric(n[i]) || n[i] == '_') then None
    else Some(n)
  }

  /** The loop state of the parser. */
  datatype Parser = Parser(path: Option<string>, inHunk: bool, summary: Summary)

  const EMPTY := Summary(0, 0, [])
  const START := Parser(None, false, EMPTY)

  function AddLine(isAlphanumeric: char -> bool, p: Parser, text: string): Parser {
    var n := NormalizeLine(isAlphanumeric, text);
    var more := if p.path.Some? && n.Some? then [Fingerprint(p.path.value, n.value)] else [];
    p.(summary := p.summary.(added := p.summary.added + 1, fingerprints := p.summary.fingerprints + more))
  }

  function ParseLine(isAlphanumeric: char -> bool, p: Parser, line: string): Parser {
    if GIT <= line then p.(path := None, inHunk := false)
    else if HUNK <= line then p.(inHunk := true)
    else if !p.inHunk && NEW <= line then p.(path := NormalizePath(line[|NEW|..]))
    else if !p.inHunk && OLD <= line then p
    else if "+" <= line then AddLine(isAlphanumeric, p, line[1..])
    else if "-" <= line then p.(summary := p.summary.(deleted := p.summary.deleted + 1))
    else p
  }

  function ParseFrom(isAlphanumeric: char -> bool, p: Parser, lines: seq<string>): Parser
    decreases lines
  {
    if lines == [] then p else ParseFrom(isAlphanumeric, ParseLine(isAlphanumeric, p, lines[0]), lines[1..])
  }

  /** What the parser makes of a diff. */
  function Parse(isAlphanumeric: char -> bool, lines: seq<string>): Summary {
    ParseFrom(isAlphanumeric, START, lines).summary
  }

  lemma {:induction false} ParseConcat(isAlphanumeric: char -> bool, p: Parser, a: seq<string>, b: seq<string>)
    ensures ParseFrom(isAlphanumeric, p, a + b) == ParseFrom(isAlphanumeric, ParseFrom(isAlphanumeric, p, a), b)
    decreases a
  {
    if a == [] {
      assert a + b == b;
    } else {
      assert (a + b)[1..] == a[1..] + b;
      ParseConcat(isAlphanumeric, ParseLine(isAlphanumeric, p, a[0]), a[1..], b);
    }
  }

  /** The source's loop, with its five variables. */
  method AcceptedLines(isAlphanumeric: char -> bool, lines: seq<string>) returns (summary: Summary)
    ensures summary == Parse(isAlphanumeric, lines)
  {
    var currentPath: Option<string>, inHunk := None, false;
    var added, deleted: nat, fingerprints := 0, 0, [];
    for i := 0 to |lines|
      invariant Parser(currentPath, inHunk, Summary(added, deleted, fingerprints)) == ParseFrom(isAlphanumeric, START, lines[..i])
    {
      var line := lines[i];
      ParseConcat(isAlphanumeric, START, lines[..i], [line]);
      assert lines[..i + 1] == lines[..i] + [line];
      if GIT <= line {
        currentPath, inHunk := None, false;
        continue;
      }
      if HUNK <= line {
        inHunk := true;
        continue;
      }
      if !inHunk && NEW <= line {
        currentPath := NormalizePath(line[|NEW|..]);
        continue;
      }
      if !inHunk && OLD <= line {
        continue;
      }
      if "+" <= line {
        added := added + 1;
        if currentPath.Some? {
          var normalized := NormalizeLine(isAlphanumeric, line[1..]);
          if normalized.Some? {
            fingerprints := fingerprints + [Fingerprint(currentPath.value, normalized.value)];
          }
        }
        continue;
      }
      if "-" <= line {
        deleted := deleted + 1;
      }
    }
    assert lines[..|lines|] == lines;
    summary := Summary(added, deleted, fingerprints);
  }

  // ---------------------------------------------------------------- concatenation

  function Plus(a: Summary, b: Summary): Summary {
    Summary(a.added + b.added, a.deleted + b.deleted, a.fingerprints + b.fingerprints)
  }

  /** Parsing only ever adds to the summary it starts with. */
  lemma {:induction false} ParseAddsUp(isAlphanumeric: char -> bool, p: Parser, lines: seq<string>)
    ensures var fresh_ := ParseFrom(isAlphanumeric, p.(summary := EMPTY), lines);
            ParseFrom(isAlphanumeric, p, lines) == fresh_.(summary := Plus(p.summary, fresh_.summary))
    decreases lines
  {
    if lines == [] {
      assert Plus(p.summary, EMPTY) == p.summary;
    } else {
      var q := ParseLine(isAlphanumeric, p, lines[0]);
      var q0 := ParseLine(isAlphanumeric, p.(summary := EMPTY), lines[0]);
      assert q.(summary := EMPTY) == q0.(summary := EMPTY);
      assert q.summary == Plus(p.summary, q0.summary);
      ParseAddsUp(isAlphanumeric, q, lines[1..]);
      ParseAddsUp(isAlphanumeric, q0, lines[1..]);
      var rest := ParseFrom(isAlphanumeric, q.(summary := EMPTY), lines[1..]).summary;
      assert Plus(Plus(p.summary, q0.summary), rest) == Plus(p.summary, Plus(q0.summary, rest));
    }
  }

  /** Diffs add up: a section that begins with its `diff --git` line is parsed as if it stood alone. */
  lemma ParseSections(isAlphanumeric: char -> bool, a: seq<string>, b: seq<string>)
    requires b != [] && GIT <= b[0]
    ensures Parse(isAlphanumeric, a + b) == Plus(Parse(isAlphanumeric, a), Parse(isAlphanumeric, b))
  {
    var p := ParseFrom(isAlphanumeric, START, a);
    ParseConcat(isAlphanumeric, START, a, b);
    ParseAddsUp(isAlphanumeric, p, b);
    assert ParseLine(isAlphanumeric, p.(summary := EMPTY), b[0]) == ParseLine(isAlphanumeric, START, b[0]);
  }

  // ---------------------------------------------------------------- the printer

  datatype HunkLine = Context(text: string) | Added(text: string) | Deleted(text: string) | NoNewline

  datatype Hunk = Hunk(range: string, lines: seq<HunkLine>)

  datatype FileName = DevNull | File(path: string)

  /** The extended header lines git writes between `diff --git` and the file names. */
  datatype Header =
    | OldMode(text: string)
    | NewMode(text: string)
    | DeletedFileMode(text: string)
    | NewFileMode(text: string)
    | CopyFrom(text: string)
    | CopyTo(text: string)
    | RenameFrom(text: string)
    | RenameTo(text: string)
    | Similarity(text: string)
    | Dissimilarity(text: string)
    | Index(text: string)
    | BinaryFiles(text: string)

  datatype Body = NoBody | Body(old_: FileName, new_: FileName, hunks: seq<Hunk>)

  datatype Section = Section(names: string, headers: seq<Header>, body: Body)

  function PrintHunkLine(l: HunkLine): string {
    match l
    case Context(text) => " " + text
    case Added(text) => "+" + text
    case Deleted(text) => "-" + text
    case NoNewline => "\\ No newline at end of file"
  }

  function PrintHunkLines(ls: seq<HunkLine>): seq<string> {
    if ls == [] then [] else [PrintHunkLine(ls[0])] + PrintHunkLines(ls[1..])
  }

  function PrintHunks(hs: seq<Hunk>): seq<string> {
    if hs == [] then [] else [HUNK + hs[0].range] + PrintHunkLines(hs[0].lines) + PrintHunks(hs[1..])
  }

  function PrintHeader(h: Header): string {
    match h
    case OldMode(t) => "old mode " + t
    case NewMode(t) => "new mode " + t
    case DeletedFileMode(t) => "deleted file mode " + t
    case NewFileMode(t) => "new file mode " + t
    case CopyFrom(t) => "copy from " + t
    case CopyTo(t) => "copy to " + t
    case RenameFrom(t) => "rename from " + t
    case RenameTo(t) => "rename to " + t
    case Similarity(t) => "similarity index " + t
    case Dissimilarity(t) => "dissimilarity index " + t
    case Index(t) => "index " + t
    case BinaryFiles(t) => "Binary files " + t
  }

  function PrintHeaders(hs: seq<Header>): seq<string> {
    if hs == [] then [] else [PrintHeader(hs[0])] + PrintHeaders(hs[1..])
  }

  function PrintName(prefix: string, f: FileName): string {
    if f.DevNull? then "/dev/null" else prefix + f.path
  }

  function PrintBody(b: Body): seq<string> {
    if b.NoBody? then []
    else [OLD + PrintName("a/", b.old_)] + ([NEW + PrintName("b/", b.new_)] + PrintHunks(b.hunks))
  }

  function PrintSection(s: Section): seq<string> {
    [GIT + s.names] + (PrintHeaders(s.headers) + PrintBody(s.body))
  }

  function PrintDiff(d: seq<Section>): seq<string> {
    if d == [] then [] else PrintDiff(d[..|d| - 1]) + PrintSection(d[|d| - 1])
  }

  // ---------------------------------------------------------------- what a diff means

  /** A file's path as reported: trailing white space is lost to the trim. */
  function ReportedPath(f: FileName): Option<string> {
    if f.DevNull? then None else Some(TrimEnd(f.path))
  }

  function LineMeaning(isAlphanumeric: char -> bool, path: Option<string>, l: HunkLine): Summary {
    match l
    case Added(text) =>
      var n := NormalizeLine(isAlphanumeric, text);
      Summary(1, 0, if path.Some? && n.Some? then [Fingerprint(path.value, n.value)] else [])
    case Deleted(_) => Summary(0, 1, [])
    case _ => EMPTY
  }

  function LinesMeaning(isAlphanumeric: char -> bool, path: Option<string>, ls: seq<HunkLine>): Summary {
    if ls == [] then EMPTY
    else Plus(LineMeaning(isAlphanumeric, path, ls[0]), LinesMeaning(isAlphanumeric, path, ls[1..]))
  }

  function HunksMeaning(isAlphanumeric: char -> bool, path: Option<string>, hs: seq<Hunk>): Summary {
    if hs == [] then EMPTY
    else Plus(LinesMeaning(isAlphanumeric, path, hs[0].lines), HunksMeaning(isAlphanumeric, path, hs[1..]))
  }

  function SectionMeaning(isAlphanumeric: char -> bool, s: Section): Summary {
    if s.body.NoBody? then EMPTY
    else HunksMeaning(isAlphanumeric, ReportedPath(s.body.new_), s.body.hunks)
  }

  function DiffMeaning(isAlphanumeric: char -> bool, d: seq<Section>): Summary {
    if d == [] then EMPTY
    else Plus(DiffMeaning(isAlphanumeric, d[..|d| - 1]), SectionMeaning(isAlphanumeric, d[|d| - 1]))
  }

  // ---------------------------------------------------------------- parsing undoes printing

  lemma PlusLaws(a: Summary, b: Summary, c: Summary)
    ensures Plus(Plus(a, b), c) == Plus(a, Plus(b, c))
    ensures Plus(a, EMPTY) == a && Plus(EMPTY, a) == a
  {
  }

  /** The first character of a line settles which prefixes it can have. */
  lemma FirstChar(line: string)
    requires line != []
    ensures (GIT <= line ==> line[0] == 'd') && (HUNK <= line ==> line[0] == '@')
    ensures (NEW <= line ==> line[0] == '+') && (OLD <= line ==> line[0] == '-')
    ensures ("+" <= line <==> line[0] == '+') && ("-" <= line <==> line[0] == '-')
  {
    assert GIT[0] == 'd' && HUNK[0] == '@' && NEW[0] == '+' && OLD[0] == '-';
  }

  lemma AddedParsed(isAlphanumeric: char -> bool, p: Parser, text: string)
    requires p.inHunk
    ensures ParseLine(isAlphanumeric, p, "+" + text) == AddLine(isAlphanumeric, p, text)
  {
    FirstChar("+" + text);
    assert ("+" + text)[1..] == text;
  }

  lemma DeletedParsed(isAlphanumeric: char -> bool, p: Parser, text: string)
    requires p.inHunk
    ensures ParseLine(isAlphanumeric, p, "-" + text) == p.(summary := p.summary.(deleted := p.summary.deleted + 1))
  {
    FirstChar("-" + text);
  }

  lemma OtherIgnored(isAlphanumeric: char -> bool, p: Parser, line: string)
    requires line != [] && line[0] != 'd' && line[0] != '@' && line[0] != '+' && line[0] != '-'
    ensures ParseLine(isAlphanumeric, p, line) == p
  {
    FirstChar(line);
  }

  /** Inside a hunk every line counts as what it is, also when its text looks like a header. */
  lemma HunkLineParsed(isAlphanumeric: char -> bool, p: Parser, l: HunkLine)
    requires p.inHunk
    ensures ParseLine(isAlphanumeric, p, PrintHunkLine(l)) ==
            p.(summary := Plus(p.summary, LineMeaning(isAlphanumeric, p.path, l)))
  {
    PlusLaws(p.summary, EMPTY, EMPTY);
    match l
    case Added(text) => AddedParsed(isAlphanumeric, p, text);
    case Deleted(text) => DeletedParsed(isAlphanumeric, p, text);
    case Context(text) =>
      assert (" " + text)[0] == ' ';
      OtherIgnored(isAlphanumeric, p, " " + text);
    case NoNewline => OtherIgnored(isAlphanumeric, p, "\\ No newline at end of file");
  }

  lemma {:induction false} HunkLinesParsed(isAlphanumeric: char -> bool, p: Parser, ls: seq<HunkLine>)
    requires p.inHunk
    ensures ParseFrom(isAlphanumeric, p, PrintHunkLines(ls)) ==
            p.(summary := Plus(p.summary, LinesMeaning(isAlphanumeric, p.path, ls)))
    decreases ls
  {
    if ls == [] {
      PlusLaws(p.summary, EMPTY, EMPTY);
    } else {
      HunkLineParsed(isAlphanumeric, p, ls[0]);
      var q := ParseLine(isAlphanumeric, p, PrintHunkLine(ls[0]));
      assert PrintHunkLines(ls)[1..] == PrintHunkLines(ls[1..]);
      HunkLinesParsed(isAlphanumeric, q, ls[1..]);
      PlusLaws(p.summary, LineMeaning(isAlphanumeric, p.path, ls[0]), LinesMeaning(isAlphanumeric, p.path, ls[1..]));
    }
  }

  lemma HunkOpens(isAlphanumeric: char -> bool, p: Parser, range: string)
    ensures ParseLine(isAlphanumeric, p, HUNK + range) == p.(inHunk := true)
  {
    FirstChar(HUNK + range);
  }

  /** A parser state reads one line and then the rest. */
  lemma ParseOne(isAlphanumeric: char -> bool, p: Parser, line: string, rest: seq<string>)
    ensures ParseFrom(isAlphanumeric, p, [line] + rest) == ParseFrom(isAlphanumeric, ParseLine(isAlphanumeric, p, line), rest)
  {
    assert ([line] + rest)[1..] == rest;
  }

  lemma HunkParsed(isAlphanumeric: char -> bool, p: Parser, h: Hunk, rest: seq<string>)
    ensures ParseFrom(isAlphanumeric, p, [HUNK + h.range] + PrintHunkLines(h.lines) + rest) ==
            ParseFrom(isAlphanumeric, Parser(p.path, true, Plus(p.summary, LinesMeaning(isAlphanumeric, p.path, h.lines))), rest)
  {
    var body, q := PrintHunkLines(h.lines), p.(inHunk := true);
    assert [HUNK + h.range] + body + rest == [HUNK + h.range] + (body + rest);
    ParseOne(isAlphanumeric, p, HUNK + h.range, body + rest);
    HunkOpens(isAlphanumeric, p, h.range);
    ParseConcat(isAlphanumeric, q, body, rest);
    HunkLinesParsed(isAlphanumeric, q, h.lines);
  }

  lemma {:induction false} HunksParsed(isAlphanumeric: char -> bool, p: Parser, hs: seq<Hunk>)
    ensures ParseFrom(isAlphanumeric, p, PrintHunks(hs)).summary ==
            Plus(p.summary, HunksMeaning(isAlphanumeric, p.path, hs))
    decreases hs
  {
    if hs == [] {
      PlusLaws(p.summary, EMPTY, EMPTY);
    } else {
      var first, rest := LinesMeaning(isAlphanumeric, p.path, hs[0].lines), HunksMeaning(isAlphanumeric, p.path, hs[1..]);
      HunkParsed(isAlphanumeric, p, hs[0], PrintHunks(hs[1..]));
      HunksParsed(isAlphanumeric, Parser(p.path, true, Plus(p.summary, first)), hs[1..]);
      PlusLaws(p.summary, first, rest);
    }
  }

  lemma HeaderIgnored(isAlphanumeric: char -> bool, p: Parser, h: Header)
    requires !p.inHunk
    ensures ParseLine(isAlphanumeric, p, PrintHeader(h)) == p
  {
    var line := PrintHeader(h);
    assert GIT[0] == 'd' && GIT[1] == 'i' && GIT[2] == 'f' && HUNK[0] == '@' && NEW[0] == '+' && OLD[0] == '-';
    assert line[0] != '@' && line[0] != '+' && line[0] != '-';
    assert line[0] == 'd' ==> line[1] != 'i' || line[2] != 'f';
  }

  lemma {:induction false} HeadersIgnored(isAlphanumeric: char -> bool, p: Parser, hs: seq<Header>)
    requires !p.inHunk
    ensures ParseFrom(isAlphanumeric, p, PrintHeaders(hs)) == p
    decreases hs
  {
    if hs != [] {
      HeaderIgnored(isAlphanumeric, p, hs[0]);
      assert PrintHeaders(hs)[1..] == PrintHeaders(hs[1..]);
      HeadersIgnored(isAlphanumeric, p, hs[1..]);
    }
  }

  lemma {:induction false} TrimEndAfter(prefix: string, s: string)
    requires prefix != [] && !IsSpace(prefix[|prefix| - 1])
    ensures TrimEnd(prefix + s) == prefix + TrimEnd(s)
    decreases |s|
  {
    if s == [] {
      assert prefix + s == prefix;
    } else if IsSpace(s[|s| - 1]) {
      assert (prefix + s)[..|prefix + s| - 1] == prefix + s[..|s| - 1];
      TrimEndAfter(prefix, s[..|s| - 1]);
    }
  }

  lemma NameReported(f: FileName)
    ensures NormalizePath(PrintName("b/", f)) == ReportedPath(f)
  {
    if f.File? {
      var line := "b/" + f.path;
      TrimEndAfter("b/", f.path);
      assert TrimStart(line) == line;
      assert Trim(line) == "b/" + TrimEnd(f.path);
      assert Trim(line)[0] == 'b' && "/dev/null"[0] == '/';
    } else {
      assert TrimStart("/dev/null") == "/dev/null";
      assert TrimEnd("/dev/null") == "/dev/null";
    }
  }

  lemma OldNameIgnored(isAlphanumeric: char -> bool, p: Parser, name: string)
    requires !p.inHunk
    ensures ParseLine(isAlphanumeric, p, OLD + name) == p
  {
    assert (OLD + name)[0] == '-' && OLD <= OLD + name;
    FirstChar(OLD + name);
  }

  lemma NewNameSetsPath(isAlphanumeric: char -> bool, p: Parser, f: FileName)
    requires !p.inHunk
    ensures ParseLine(isAlphanumeric, p, NEW + PrintName("b/", f)) == p.(path := ReportedPath(f))
  {
    var line := NEW + PrintName("b/", f);
    assert line[0] == '+' && NEW <= line;
    FirstChar(line);
    assert line[|NEW|..] == PrintName("b/", f);
    NameReported(f);
  }

  /** A parser state reads two lines and then the rest. */
  lemma ParseTwo(isAlphanumeric: char -> bool, p: Parser, a: string, b: string, rest: seq<string>)
    ensures ParseFrom(isAlphanumeric, p, [a] + ([b] + rest)) ==
            ParseFrom(isAlphanumeric, ParseLine(isAlphanumeric, ParseLine(isAlphanumeric, p, a), b), rest)
  {
    var lines := [a] + ([b] + rest);
    assert lines[1..] == [b] + rest && lines[1..][1..] == rest;
  }

  lemma BodyParsed(isAlphanumeric: char -> bool, b: Body)
    ensures ParseFrom(isAlphanumeric, START, PrintBody(b)).summary ==
            if b.NoBody? then EMPTY else HunksMeaning(isAlphanumeric, ReportedPath(b.new_), b.hunks)
  {
    if b.Body? {
      ParseTwo(isAlphanumeric, START, OLD + PrintName("a/", b.old_), NEW + PrintName("b/", b.new_), PrintHunks(b.hunks));
      OldNameIgnored(isAlphanumeric, START, PrintName("a/", b.old_));
      NewNameSetsPath(isAlphanumeric, START, b.new_);
      HunksParsed(isAlphanumeric, START.(path := ReportedPath(b.new_)), b.hunks);
      PlusLaws(HunksMeaning(isAlphanumeric, ReportedPath(b.new_), b.hunks), EMPTY, EMPTY);
    }
  }

  lemma SectionParsed(isAlphanumeric: char -> bool, s: Section)
    ensures Parse(isAlphanumeric, PrintSection(s)) == SectionMeaning(isAlphanumeric, s)
  {
    var line := GIT + s.names;
    assert GIT <= line;
    assert ParseLine(isAlphanumeric, START, line) == START;
    assert PrintSection(s)[1..] == PrintHeaders(s.headers) + PrintBody(s.body);
    ParseConcat(isAlphanumeric, START, PrintHeaders(s.headers), PrintBody(s.body));
    HeadersIgnored(isAlphanumeric, START, s.headers);
    BodyParsed(isAlphanumeric, s.body);
  }

  /**
   Parsing undoes printing: for every structured git diff, the parser returns the numbers of added
   and deleted hunk lines and the effective added lines in order, each with its section's path.
   */
  lemma {:induction false} ParseUndoesPrint(isAlphanumeric: char -> bool, d: seq<Section>)
    ensures Parse(isAlphanumeric, PrintDiff(d)) == DiffMeaning(isAlphanumeric, d)
    decreases d
  {
    if d != [] {
      var front, last := d[..|d| - 1], d[|d| - 1];
      ParseUndoesPrint(isAlphanumeric, front);
      SectionParsed(isAlphanumeric, last);
      assert GIT <= PrintSection(last)[0];
      ParseSections(isAlphanumeric, PrintDiff(front), PrintSection(last));
    }
  }

  /** The reported path is the file's own exactly when that does not end in white space. */
  lemma PathKept(path: string)
    ensures ReportedPath(File(path)) == Some(path) <==> path == [] || !IsSpace(path[|path| - 1])
  {
    if path != [] && IsSpace(path[|path| - 1]) {
      TrimEndShortens(path[..|path| - 1]);
    }
  }

  lemma {:induction false} TrimEndShortens(s: string)
    ensures |TrimEnd(s)| <= |s|
    decreases |s|
  {
    if s != [] && IsSpace(s[|s| - 1]) {
      TrimEndShortens(s[..|s| - 1]);
    }
  }

  // ---------------------------------------------------------------- whole texts

  function LineLength(text: string): (n: nat)
    ensures n <= |text|
    ensures forall i :: 0 <= i < n ==> text[i] != '\n'
    ensures n < |text| ==> text[n] == '\n'
  {
    if text == [] || text[0] == '\n' then 0 else 1 + LineLength(text[1..])
  }

  function StripCr(line: string): string {
    if line != [] && line[|line| - 1] == '\r' then line[..|line| - 1] else line
  }

  /** `str::lines`: a carriage return goes with the newline after it. */
  function Lines(text: string): seq<string>
    decreases |text|
  {
    if text == [] then [] else
    var n := LineLength(text);
    if n == |text| then [text] else [StripCr(text[..n])] + Lines(text[n + 1..])
  }

  function JoinLines(lines: seq<string>): string {
    if lines == [] then "" else lines[0] + "\n" + JoinLines(lines[1..])
  }

  function StripAll(lines: seq<string>): seq<string> {
    if lines == [] then [] else [StripCr(lines[0])] + StripAll(lines[1..])
  }

  lemma {:induction false} LineLengthOf(line: string, rest: string)
    requires '\n' !in line
    ensures LineLength(line + "\n" + rest) == |line|
  {
    var text := line + "\n" + rest;
    assert text[|line|] == '\n';
    assert forall i :: 0 <= i < |line| ==> text[i] == line[i] && line[i] in line;
  }

  lemma {:induction false} LinesOfJoin(lines: seq<string>)
    requires forall l :: l in lines ==> '\n' !in l
    ensures Lines(JoinLines(lines)) == StripAll(lines)
    decreases lines
  {
    if lines != [] {
      var rest := JoinLines(lines[1..]);
      var text := lines[0] + "\n" + rest;
      LineLengthOf(lines[0], rest);
      assert text[..|lines[0]|] == lines[0] && text[|lines[0]| + 1..] == rest;
      LinesOfJoin(lines[1..]);
    }
  }

  lemma {:induction false} WordLengthSnoc(s: string, c: char)
    requires IsSpace(c)
    ensures WordLength(s + [c]) == WordLength(s)
    decreases |s|
  {
    if s != [] && !IsSpace(s[0]) {
      assert (s + [c])[1..] == s[1..] + [c];
      WordLengthSnoc(s[1..], c);
    }
  }

  /** Trailing white space adds no word. */
  lemma {:induction false} WordsSnoc(s: string, c: char)
    requires IsSpace(c)
    ensures Words(s + [c]) == Words(s)
    decreases |s|
  {
    if s == [] {
      assert s + [c] == [c] && [c][1..] == [];
    } else if IsSpace(s[0]) {
      assert (s + [c])[1..] == s[1..] + [c];
      WordsSnoc(s[1..], c);
    } else {
      WordLengthSnoc(s, c);
      var n := WordLength(s);
      assert (s + [c])[..n] == s[..n] && (s + [c])[n..] == s[n..] + [c];
      WordsSnoc(s[n..], c);
    }
  }

  lemma {:induction false} TrimSnoc(s: string, c: char)
    requires IsSpace(c)
    ensures Trim(s + [c]) == Trim(s)
    decreases |s|
  {
    if s == [] {
      assert s + [c] == [c] && [c][1..] == [];
    } else if IsSpace(s[0]) {
      assert (s + [c])[1..] == s[1..] + [c];
      TrimSnoc(s[1..], c);
    } else {
      assert (s + [c])[..|s|] == s;
    }
  }

  lemma PrefixOfStripped(prefix: string, line: string)
    requires '\r' !in prefix
    ensures prefix <= StripCr(line) <==> prefix <= line
  {
    assert forall i :: 0 <= i < |prefix| ==> prefix[i] in prefix && prefix[i] != '\r';
    assert StripCr(line) <= line;
  }

  lemma AddLineIgnoresCr(isAlphanumeric: char -> bool, p: Parser, text: string)
    ensures AddLine(isAlphanumeric, p, text + ['\r']) == AddLine(isAlphanumeric, p, text)
  {
    WordsSnoc(text, '\r');
  }

  lemma PathIgnoresCr(text: string)
    ensures NormalizePath(text + ['\r']) == NormalizePath(text)
  {
    TrimSnoc(text, '\r');
  }

  /** A carriage return at the end changes none of the tests. */
  lemma SamePrefixes(line: string)
    ensures (GIT <= StripCr(line) <==> GIT <= line) && (HUNK <= StripCr(line) <==> HUNK <= line)
    ensures (NEW <= StripCr(line) <==> NEW <= line) && (OLD <= StripCr(line) <==> OLD <= line)
    ensures ("+" <= StripCr(line) <==> "+" <= line) && ("-" <= StripCr(line) <==> "-" <= line)
  {
    PrefixOfStripped(GIT, line);
    PrefixOfStripped(HUNK, line);
    PrefixOfStripped(NEW, line);
    PrefixOfStripped(OLD, line);
    PrefixOfStripped("+", line);
    PrefixOfStripped("-", line);
  }

  lemma StrippedTail(line: string, n: nat)
    requires n <= |StripCr(line)| && StripCr(line) != line
    ensures n <= |line| && line[n..] == StripCr(line)[n..] + ['\r']
  {
  }

  lemma CrIgnored(isAlphanumeric: char -> bool, p: Parser, line: string)
    ensures ParseLine(isAlphanumeric, p, StripCr(line)) == ParseLine(isAlphanumeric, p, line)
  {
    SamePrefixes(line);
    var bare := StripCr(line);
    if bare != line && NEW <= bare {
      StrippedTail(line, |NEW|);
      PathIgnoresCr(bare[|NEW|..]);
    }
    if bare != line && "+" <= bare {
      StrippedTail(line, 1);
      AddLineIgnoresCr(isAlphanumeric, p, bare[1..]);
    }
  }

  lemma {:induction false} CrsIgnored(isAlphanumeric: char -> bool, p: Parser, lines: seq<string>)
    ensures ParseFrom(isAlphanumeric, p, StripAll(lines)) == ParseFrom(isAlphanumeric, p, lines)
    decreases lines
  {
    if lines != [] {
      CrIgnored(isAlphanumeric, p, lines[0]);
      CrsIgnored(isAlphanumeric, ParseLine(isAlphanumeric, p, lines[0]), lines[1..]);
    }
  }

  /** The round trip through one text, carriage returns included; no piece may contain a newline. */
  lemma ParseUndoesText(isAlphanumeric: char -> bool, d: seq<Section>)
    requires forall l :: l in PrintDiff(d) ==> '\n' !in l
    ensures Parse(isAlphanumeric, Lines(JoinLines(PrintDiff(d)))) == DiffMeaning(isAlphanumeric, d)
  {
    LinesOfJoin(PrintDiff(d));
    CrsIgnored(isAlphanumeric, START, PrintDiff(d));
    ParseUndoesPrint(isAlphanumeric, d);
  }

  // ---------------------------------------------------------------- effective lines

  predicate IsWord(w: string) {
    w != [] && forall i :: 0 <= i < |w| ==> !IsSpace(w[i])
  }

  lemma {:induction false} WordLengthStops(s: string)
    ensures var n := WordLength(s);
            (forall i :: 0 <= i < n ==> !IsSpace(s[i])) && (n < |s| ==> IsSpace(s[n]))
    decreases |s|
  {
    if s != [] && !IsSpace(s[0]) {
      WordLengthStops(s[1..]);
    }
  }

  lemma {:induction false} WordsAreWords(s: string)
    ensures forall w :: w in Words(s) ==> IsWord(w)
    decreases |s|
  {
    if s != [] {
      if IsSpace(s[0]) {
        WordsAreWords(s[1..]);
      } else {
        WordLengthStops(s);
        WordsAreWords(s[WordLength(s)..]);
      }
    }
  }

  lemma WordLengthOfWord(w: string, rest: string)
    requires IsWord(w) && (rest == [] || IsSpace(rest[0]))
    ensures WordLength(w + rest) == |w|
  {
    var s := w + rest;
    WordLengthStops(s);
    assert forall i :: 0 <= i < |w| ==> s[i] == w[i];
    assert rest != [] ==> s[|w|] == rest[0];
  }

  lemma FirstWord(w: string, rest: string)
    requires IsWord(w) && (rest == [] || IsSpace(rest[0]))
    ensures Words(w + rest) == [w] + Words(rest)
  {
    var s := w + rest;
    WordLengthOfWord(w, rest);
    assert s[0] == w[0] && s[..|w|] == w && s[|w|..] == rest;
  }

  lemma SpaceSkipped(rest: string)
    ensures Words(" " + rest) == Words(rest)
  {
    assert (" " + rest)[0] == ' ' && (" " + rest)[1..] == rest;
  }

  /** Splitting undoes joining. */
  lemma {:induction false} WordsOfJoin(ws: seq<string>)
    requires forall w :: w in ws ==> IsWord(w)
    ensures Words(JoinWords(ws)) == ws
    decreases ws
  {
    if |ws| == 1 {
      assert ws[0] in ws && ws[0] + "" == ws[0];
      FirstWord(ws[0], "");
    } else if |ws| > 1 {
      var rest := JoinWords(ws[1..]);
      assert ws[0] in ws && ws[0] + " " + rest == ws[0] + (" " + rest);
      FirstWord(ws[0], " " + rest);
      SpaceSkipped(rest);
      WordsOfJoin(ws[1..]);
    }
  }

  /** A normalized line is its own normal form. */
  lemma NormalizeIdempotent(isAlphanumeric: char -> bool, line: string)
    ensures var n := NormalizeLine(isAlphanumeric, line);
            n.Some? ==> NormalizeLine(isAlphanumeric, n.value) == n
  {
    WordsAreWords(line);
    WordsOfJoin(Words(line));
  }
}
