/**
 The diff parser on arbitrary text: which lines count, for which path, and with what text, said position by
 position and without the parser's state.
 */
module DiffCounting {
  import opened Basics
  import opened DiffParser

  // ---------------------------------------------------------------- which lines count

  /** No file header lies strictly between lines `j` and `i`. */
  predicate SameFile(lines: seq<string>, j: int, i: int)
    requires 0 <= j && i <= |lines|
  {
    forall m :: j < m < i ==> !("diff --git " <= lines[m])
  }

  /** Line `i` lies in a hunk: a hunk header came before it and no file header since. */
  predicate InHunkAt(lines: seq<string>, i: nat)
    requires i <= |lines|
  {
    exists j :: 0 <= j < i && "@@ " <= lines[j] && SameFile(lines, j, i)
  }

  /** A line that begins with a plus counts as added, unless it is a file name outside a hunk. */
  predicate IsAdded(lines: seq<string>, i: nat)
    requires i < |lines|
  {
    "+" <= lines[i] && ("+++ " <= lines[i] ==> InHunkAt(lines, i))
  }

  /** A line that begins with a minus counts as deleted, unless it is a file name outside a hunk. */
  predicate IsDeleted(lines: seq<string>, i: nat)
    requires i < |lines|
  {
    "-" <= lines[i] && ("--- " <= lines[i] ==> InHunkAt(lines, i))
  }

  /** Line `i` names the file that the lines after it belong to. */
  predicate NamesFile(lines: seq<string>, i: nat)
    requires i < |lines|
  {
    "+++ " <= lines[i] && !InHunkAt(lines, i)
  }

  /** The file that line `i` belongs to: the last one named since the last file header. */
  function PathAt(lines: seq<string>, i: nat): Option<string>
    requires i <= |lines|
  {
    if i == 0 || "diff --git " <= lines[i - 1] then None
    else if NamesFile(lines, i - 1) then NormalizePath(lines[i - 1][4..])
    else PathAt(lines, i - 1)
  }

  function AddedBefore(lines: seq<string>, n: nat): nat
    requires n <= |lines|
  {
    if n == 0 then 0 else AddedBefore(lines, n - 1) + if IsAdded(lines, n - 1) then 1 else 0
  }

  function DeletedBefore(lines: seq<string>, n: nat): nat
    requires n <= |lines|
  {
    if n == 0 then 0 else DeletedBefore(lines, n - 1) + if IsDeleted(lines, n - 1) then 1 else 0
  }

  /** The fingerprint of line `i`, if it is an added line of a known file and has an effective text. */
  function PrintAt(isAlphanumeric: char -> bool, lines: seq<string>, i: nat): seq<Fingerprint>
    requires i < |lines|
  {
    if !IsAdded(lines, i) then [] else
    var path, text := PathAt(lines, i), NormalizeLine(isAlphanumeric, lines[i][1..]);
    if path.Some? && text.Some? then [Fingerprint(path.value, text.value)] else []
  }

  function PrintsBefore(isAlphanumeric: char -> bool, lines: seq<string>, n: nat): seq<Fingerprint>
    requires n <= |lines|
  {
    if n == 0 then [] else PrintsBefore(isAlphanumeric, lines, n - 1) + PrintAt(isAlphanumeric, lines, n - 1)
  }

  lemma HunkNext(lines: seq<string>, i: nat)
    requires i < |lines|
    ensures InHunkAt(lines, i + 1) <==>
              if "diff --git " <= lines[i] then false else if "@@ " <= lines[i] then true else InHunkAt(lines, i)
  {
    FirstCharOf(lines[i]);
    if "@@ " <= lines[i] {
      assert SameFile(lines, i, i + 1);
    } else if InHunkAt(lines, i) && !("diff --git " <= lines[i]) {
      var j :| 0 <= j < i && "@@ " <= lines[j] && SameFile(lines, j, i);
      assert SameFile(lines, j, i + 1);
    }
  }

  /** No line has two of the prefixes that tell lines apart. */
  lemma FirstCharOf(line: string)
    ensures "diff --git " <= line ==> !("@@ " <= line) && !("+" <= line) && !("-" <= line) && !("+++ " <= line) && !("--- " <= line)
    ensures "@@ " <= line ==> !("+" <= line) && !("-" <= line) && !("+++ " <= line) && !("--- " <= line)
    ensures "+++ " <= line ==> "+" <= line && !("-" <= line) && !("--- " <= line)
    ensures "--- " <= line ==> "-" <= line && !("+" <= line)
    ensures "+" <= line ==> !("-" <= line)
  {
    if line != [] {
      assert "diff --git "[0] == 'd' && "@@ "[0] == '@' && "+++ "[0] == '+' && "--- "[0] == '-';
    }
  }

  /** Where the parser stands after `n` lines. */
  function StandAt(isAlphanumeric: char -> bool, lines: seq<string>, n: nat): Parser
    requires n <= |lines|
  {
    Parser(PathAt(lines, n), InHunkAt(lines, n),
           Summary(AddedBefore(lines, n), DeletedBefore(lines, n), PrintsBefore(isAlphanumeric, lines, n)))
  }

  lemma StandNext(isAlphanumeric: char -> bool, lines: seq<string>, n: nat)
    requires n < |lines|
    ensures ParseLine(isAlphanumeric, StandAt(isAlphanumeric, lines, n), lines[n]) == StandAt(isAlphanumeric, lines, n + 1)
  {
    HunkNext(lines, n);
    FirstCharOf(lines[n]);
  }

  /**
   The parser on any text: it counts exactly the lines that are added or deleted by their position, and
   reports the effective added lines in order, each with the file named last before it.
   */
  lemma {:induction false} ParseCounts(isAlphanumeric: char -> bool, lines: seq<string>, n: nat)
    requires n <= |lines|
    ensures ParseFrom(isAlphanumeric, START, lines[..n]) == StandAt(isAlphanumeric, lines, n)
  {
    if n == 0 {
      assert !InHunkAt(lines, 0);
    } else {
      ParseCounts(isAlphanumeric, lines, n - 1);
      assert lines[..n] == lines[..n - 1] + [lines[n - 1]];
      ParseConcat(isAlphanumeric, START, lines[..n - 1], [lines[n - 1]]);
      StandNext(isAlphanumeric, lines, n - 1);
    }
  }

  lemma ParseByPosition(isAlphanumeric: char -> bool, lines: seq<string>)
    ensures var n := |lines|;
            Parse(isAlphanumeric, lines) == Summary(AddedBefore(lines, n), DeletedBefore(lines, n), PrintsBefore(isAlphanumeric, lines, n))
  {
    ParseCounts(isAlphanumeric, lines, |lines|);
    assert lines[..|lines|] == lines;
  }

  // ---------------------------------------------------------------- paths

  predicate Blank(s: string) {
    forall i :: 0 <= i < |s| ==> IsSpace(s[i])
  }

  /** A text that neither begins nor ends in white space. */
  predicate Tight(s: string) {
    s != [] ==> !IsSpace(s[0]) && !IsSpace(s[|s| - 1])
  }

  lemma {:induction false} TrimStartBlank(a: string, s: string)
    requires Blank(a) && s != [] && !IsSpace(s[0])
    ensures TrimStart(a + s) == s
    decreases a
  {
    if a == [] {
      assert a + s == s;
    } else {
      assert (a + s)[0] == a[0] && (a + s)[1..] == a[1..] + s;
      TrimStartBlank(a[1..], s);
    }
  }

  lemma {:induction false} TrimEndBlank(s: string, b: string)
    requires Blank(b) && s != [] && !IsSpace(s[|s| - 1])
    ensures TrimEnd(s + b) == s
    decreases b
  {
    if b == [] {
      assert s + b == s;
    } else {
      assert (s + b)[..|s + b| - 1] == s + b[..|b| - 1];
      TrimEndBlank(s, b[..|b| - 1]);
    }
  }

  /** A file name, whatever blanks surround it, is reported without them and without its `a/` or `b/`; the null device is none. */
  lemma FileNameReported(before: string, name: string, after: string)
    requires Blank(before) && Blank(after) && name != [] && Tight(name)
    ensures NormalizePath(before + name + after) ==
              if name == "/dev/null" then None
              else if name[0] in {'a', 'b'} && |name| >= 2 && name[1] == '/' then Some(name[2..])
              else Some(name)
  {
    assert before + name + after == before + (name + after) && (name + after)[0] == name[0];
    TrimStartBlank(before, name + after);
    TrimEndBlank(name, after);
    assert "b/" <= name <==> |name| >= 2 && name[0] == 'b' && name[1] == '/';
    assert "a/" <= name <==> |name| >= 2 && name[0] == 'a' && name[1] == '/';
  }

  // ---------------------------------------------------------------- effective lines

  /** A line with every stretch of white space made one blank, and none at its ends, built character by character. */
  function Collapse(s: string): string {
    if s == [] then "" else
    var r, c := Collapse(s[..|s| - 1]), s[|s| - 1];
    if IsSpace(c) then r
    else if r != "" && |s| >= 2 && IsSpace(s[|s| - 2]) then r + " " + [c]
    else r + [c]
  }

  /** The words of a text to which one more character is added. */
  function WordsThen(ws: seq<string>, afterSpace: bool, c: char): seq<string> {
    if afterSpace || ws == [] then ws + [[c]] else ws[..|ws| - 1] + [ws[|ws| - 1] + [c]]
  }

  lemma {:induction false} WordLengthThen(s: string, c: char)
    requires !IsSpace(c)
    ensures WordLength(s + [c]) == if WordLength(s) == |s| then |s| + 1 else WordLength(s)
    decreases |s|
  {
    if s == [] {
      assert s + [c] == [c] && [c][1..] == [];
    } else if !IsSpace(s[0]) {
      assert (s + [c])[1..] == s[1..] + [c];
      WordLengthThen(s[1..], c);
    }
  }

  lemma OneWord(s: string)
    requires s != [] && WordLength(s) == |s|
    ensures Words(s) == [s] && !IsSpace(s[|s| - 1])
  {
    WordLengthStops(s);
    assert s[..|s|] == s && s[|s|..] == [];
  }

  predicate EndsWord(s: string) {
    s != [] && !IsSpace(s[|s| - 1])
  }

  lemma LongerAfterSpace(s: string, c: char)
    requires !IsSpace(c) && s != [] && IsSpace(s[0]) && Words(s[1..] + [c]) == WordsThen(Words(s[1..]), !EndsWord(s[1..]), c)
    ensures Words(s + [c]) == WordsThen(Words(s), !EndsWord(s), c)
  {
    assert (s + [c])[1..] == s[1..] + [c] && (s + [c])[0] == s[0];
    if |s| == 1 { assert s[1..] == []; }
  }

  lemma LongerLastWord(s: string, c: char)
    requires !IsSpace(c) && s != [] && WordLength(s) == |s|
    ensures Words(s + [c]) == WordsThen(Words(s), !EndsWord(s), c)
  {
    WordLengthThen(s, c);
    OneWord(s);
    OneWord(s + [c]);
  }

  lemma WordsThenAfter(first: string, ws: seq<string>, afterSpace: bool, c: char)
    requires afterSpace || ws != []
    ensures WordsThen([first] + ws, afterSpace, c) == [first] + WordsThen(ws, afterSpace, c)
  {
    if !afterSpace {
      assert ([first] + ws)[..|ws|] == [first] + ws[..|ws| - 1];
    }
  }

  lemma FirstWordSplits(s: string, n: nat)
    requires s != [] && !IsSpace(s[0]) && n == WordLength(s)
    ensures Words(s) == [s[..n]] + Words(s[n..])
  {
  }

  lemma LongerRest(s: string, c: char, n: nat, rest: string)
    requires !IsSpace(c) && s != [] && !IsSpace(s[0]) && n == WordLength(s) < |s| && rest == s[n..]
    requires Words(rest + [c]) == WordsThen(Words(rest), !EndsWord(rest), c)
    ensures Words(s + [c]) == WordsThen(Words(s), !EndsWord(s), c)
  {
    var t := s + [c];
    WordLengthThen(s, c);
    assert t[..n] == s[..n] && t[n..] == rest + [c];
    FirstWordSplits(s, n);
    FirstWordSplits(t, n);
    assert rest[|rest| - 1] == s[|s| - 1];
    SuffixWords(s, n);
    WordsThenAfter(s[..n], Words(rest), !EndsWord(rest), c);
  }

  lemma {:induction false} WordsOfLonger(s: string, c: char)
    requires !IsSpace(c)
    ensures Words(s + [c]) == WordsThen(Words(s), !EndsWord(s), c)
    decreases |s|
  {
    if s == [] {
      assert s + [c] == [c];
      OneWordOf(c);
    } else if IsSpace(s[0]) {
      WordsOfLonger(s[1..], c);
      LongerAfterSpace(s, c);
    } else if WordLength(s) == |s| {
      LongerLastWord(s, c);
    } else {
      WordsOfLonger(s[WordLength(s)..], c);
      LongerRest(s, c, WordLength(s), s[WordLength(s)..]);
    }
  }

  lemma OneWordOf(c: char)
    requires !IsSpace(c)
    ensures Words([c]) == [[c]]
  {
    assert [c][1..] == [];
    OneWord([c]);
  }

  /** A text that ends in a word character has a word. */
  lemma {:induction false} SuffixWords(s: string, n: nat)
    requires n < |s|
    ensures !IsSpace(s[|s| - 1]) ==> Words(s[n..]) != []
    decreases |s| - n
  {
    if !IsSpace(s[|s| - 1]) && IsSpace(s[n]) {
      SuffixWords(s, n + 1);
      assert s[n..][1..] == s[n + 1..];
    }
  }

  lemma {:induction false} JoinThen(ws: seq<string>, w: string)
    ensures JoinWords(ws + [w]) == if ws == [] then w else JoinWords(ws) + " " + w
    decreases ws
  {
    if |ws| > 1 {
      assert (ws + [w])[1..] == ws[1..] + [w];
      JoinThen(ws[1..], w);
    } else if |ws| == 1 {
      assert (ws + [w])[1..] == [w];
    }
  }

  lemma {:induction false} JoinExtends(ws: seq<string>, c: char)
    requires ws != []
    ensures JoinWords(ws[..|ws| - 1] + [ws[|ws| - 1] + [c]]) == JoinWords(ws) + [c]
  {
    var front, last := ws[..|ws| - 1], ws[|ws| - 1];
    assert ws == front + [last];
    JoinThen(front, last);
    JoinThen(front, last + [c]);
  }

  lemma {:induction false} JoinNonEmpty(ws: seq<string>)
    requires forall w :: w in ws ==> IsWord(w)
    ensures JoinWords(ws) == "" <==> ws == []
  {
    if ws != [] { assert ws[0] in ws; }
  }

  /** Splitting into words and joining them collapses the white space. */
  lemma {:induction false} JoinedIsCollapsed(s: string)
    ensures JoinWords(Words(s)) == Collapse(s)
    decreases s
  {
    if s != [] {
      var front, c := s[..|s| - 1], s[|s| - 1];
      var ws := Words(front);
      assert s == front + [c];
      JoinedIsCollapsed(front);
      WordsAreWords(front);
      JoinNonEmpty(ws);
      if IsSpace(c) {
        WordsSnoc(front, c);
      } else {
        WordsOfLonger(front, c);
        JoinThen(ws, [c]);
        if ws != [] { JoinExtends(ws, c); }
      }
    }
  }

  /** The texts of at most three UTF-8 bytes. */
  predicate Tiny(s: string) {
    || s == []
    || (|s| == 1 && s[0] as int < 0x10000)
    || (|s| == 2 && s[0] as int < 0x800 && s[1] as int < 0x800 && (s[0] as int < 0x80 || s[1] as int < 0x80))
    || (|s| == 3 && s[0] as int < 0x80 && s[1] as int < 0x80 && s[2] as int < 0x80)
  }

  lemma {:induction false} LengthAtLeast(s: string)
    ensures Utf8Length(s) >= |s|
    decreases s
  {
    if s != [] { LengthAtLeast(s[1..]); }
  }

  lemma TinyExactly(s: string)
    ensures Utf8Length(s) <= 3 <==> Tiny(s)
  {
    LengthAtLeast(s);
    if 1 <= |s| <= 3 {
      assert Utf8Length(s) == Utf8Width(s[0]) + Utf8Length(s[1..]);
      if |s| >= 2 {
        assert s[1..][0] == s[1] && s[1..][1..] == s[2..];
        assert Utf8Length(s[1..]) == Utf8Width(s[1]) + Utf8Length(s[2..]);
        if |s| == 3 {
          assert s[2..][0] == s[2] && s[2..][1..] == [];
          assert Utf8Length(s[2..]) == Utf8Width(s[2]) + Utf8Length([]);
        } else {
          assert s[2..] == [];
        }
      } else {
        assert s[1..] == [];
      }
    }
  }

  /**
   The effective text of an added line: the line with its white space collapsed, unless that has at most three
   bytes or neither a letter, a digit nor an underscore.
   */
  lemma EffectiveText(isAlphanumeric: char -> bool, line: string)
    ensures var n := Collapse(line);
            NormalizeLine(isAlphanumeric, line) ==
              if !Tiny(n) && (exists i :: 0 <= i < |n| && (isAlphanumeric(n[i]) || n[i] == '_')) then Some(n) else None
  {
    JoinedIsCollapsed(line);
    TinyExactly(Collapse(line));
  }

  // ---------------------------------------------------------------- lines of a text

  /** A last line that no newline ends is a line, too, and keeps its carriage return. */
  lemma {:induction false} UnendedLine(lines: seq<string>, last: string)
    requires (forall l :: l in lines ==> '\n' !in l) && last != [] && '\n' !in last
    ensures Lines(JoinLines(lines) + last) == StripAll(lines) + [last]
    decreases lines
  {
    if lines == [] {
      assert JoinLines(lines) + last == last;
      assert forall i :: 0 <= i < |last| ==> last[i] in last;
    } else {
      var rest := JoinLines(lines[1..]) + last;
      var text := lines[0] + "\n" + rest;
      assert JoinLines(lines) + last == text;
      LineLengthOf(lines[0], rest);
      assert text[..|lines[0]|] == lines[0] && text[|lines[0]| + 1..] == rest;
      UnendedLine(lines[1..], last);
    }
  }
}
