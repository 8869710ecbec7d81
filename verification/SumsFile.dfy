/**
 The SHA256SUMS file (packages/slas-fetch/slas_fetch/fetch.py, write_sums and read_sums): one
 line `<digest>  <name>` per file, read back line by line.
 */
module SumsFile {
  import Chunker

  /** Where Python's `splitlines` breaks. */
  predicate IsLineBreak(c: char) {
    var n := c as int;
    0x0A <= n <= 0x0D || 0x1C <= n <= 0x1E || n == 0x85 || n == 0x2028 || n == 0x2029
  }

  predicate OneLine(s: string) { forall i :: 0 <= i < |s| ==> !IsLineBreak(s[i]) }

  function LineEnd(s: string): (n: nat)
    ensures n <= |s| && OneLine(s[..n])
    ensures n < |s| ==> IsLineBreak(s[n])
  {
    if s == "" || IsLineBreak(s[0]) then 0
    else
      var n := LineEnd(s[1..]);
      assert s[..n + 1] == [s[0]] + s[1..][..n];
      n + 1
  }

  function SplitLines(s: string): (lines: seq<string>)
    decreases |s|
  {
    if s == "" then []
    else
      var n := LineEnd(s);
      var next := if n + 1 < |s| && s[n..n + 2] == "\r\n" then n + 2 else if n < |s| then n + 1 else n;
      [s[..n]] + (if n < |s| then SplitLines(s[next..]) else [])
  }

  /** Where the first double space is, or the length. */
  function Gap(line: string): (n: nat)
    ensures n <= |line|
    ensures n < |line| ==> n + 2 <= |line| && line[n..n + 2] == "  "
  {
    if |line| < 2 then |line|
    else if line[0] == ' ' && line[1] == ' ' then 0
    else
      var n := Gap(line[1..]);
      assert n < |line| - 1 ==> line[n + 1..n + 3] == line[1..][n..n + 2];
      n + 1
  }

  /** `line.partition("  ")`: the name and the digest of one line. */
  function Parsed(line: string): (r: (string, string))
  {
    var n := Gap(line);
    if n < |line| then (line[n + 2..], line[..n]) else ("", line)
  }

  function ReadLines(lines: seq<string>): (sums: map<string, string>)
  {
    if lines == [] then map[]
    else
      var n := |lines| - 1;
      if Chunker.Strip(lines[n]) == "" then ReadLines(lines[..n])
      else ReadLines(lines[..n])[Parsed(lines[n]).0 := Parsed(lines[n]).1]
  }

  method ReadSums(text: string) returns (sums: map<string, string>)
    ensures sums == ReadLines(SplitLines(text))
  {
    hide SplitLines, Parsed, Chunker.Strip;
    sums := map[];
    var lines := SplitLines(text);
    for i := 0 to |lines|
      invariant sums == ReadLines(lines[..i])
    {
      assert lines[..i + 1][..i] == lines[..i];
      if Chunker.Strip(lines[i]) != "" {
        var (name, digest) := Parsed(lines[i]);
        sums := sums[name := digest];
      }
    }
    assert lines[..|lines|] == lines;
  }

  /** The line is read as this name with this digest: split at its first double space, or all of it the digest of the empty name. */
  predicate Tells(line: string, name: string, digest: string) {
    && !Chunker.AllSpace(line, 0, |line|)
    && if exists k :: 0 <= k < |line| - 1 && line[k] == ' ' && line[k + 1] == ' ' then
         && line == digest + "  " + name
         && forall k :: 0 <= k < |digest| ==> !(line[k] == ' ' && line[k + 1] == ' ')
       else name == "" && line == digest
  }

  lemma {:induction false} GapIsFirst(line: string)
    ensures forall k :: 0 <= k < Gap(line) && k < |line| - 1 ==> !(line[k] == ' ' && line[k + 1] == ' ')
    ensures Gap(line) == |line| ==> forall k :: 0 <= k < |line| - 1 ==> !(line[k] == ' ' && line[k + 1] == ' ')
  {
    if |line| >= 2 && !(line[0] == ' ' && line[1] == ' ') {
      GapIsFirst(line[1..]);
      assert forall k :: 0 <= k < |line| - 1 ==> line[k + 1] == line[1..][k];
    }
  }

  lemma {:induction false} ParsedTells(line: string)
    requires Chunker.Strip(line) != ""
    ensures Tells(line, Parsed(line).0, Parsed(line).1)
    ensures forall name, digest :: Tells(line, name, digest) ==> name == Parsed(line).0 && digest == Parsed(line).1
  {
    hide Chunker.Strip, Chunker.IsSpace;
    GapIsFirst(line);
    var n := Gap(line);
    if n < |line| {
      assert line[n] == line[n..n + 2][0] && line[n + 1] == line[n..n + 2][1];
      assert line[n] == ' ' && line[n + 1] == ' ';
      assert line == line[..n] + "  " + line[n + 2..];
      forall name, digest | Tells(line, name, digest) ensures name == line[n + 2..] && digest == line[..n] {
        SameSplit(line, name, digest, n);
      }
    }
  }

  lemma {:induction false} SameSplit(line: string, name: string, digest: string, n: nat)
    requires n + 2 <= |line| && line[n] == ' ' && line[n + 1] == ' '
    requires forall k :: 0 <= k < n ==> !(line[k] == ' ' && line[k + 1] == ' ')
    requires line == digest + "  " + name && forall k :: 0 <= k < |digest| ==> !(line[k] == ' ' && line[k + 1] == ' ')
    ensures name == line[n + 2..] && digest == line[..n]
  {
    assert line[|digest|] == ' ' && line[|digest| + 1] == ' ';
    assert |digest| == n;
  }

  /** A name is read exactly if some line that is not blank tells it, with the digest of the last such line. */
  lemma {:induction false} ReadsTheLast(lines: seq<string>, name: string, digest: string)
    ensures (name in ReadLines(lines) && ReadLines(lines)[name] == digest) <==> LastTells(lines, name, digest)
  {
    hide Chunker.Strip, Parsed, Tells;
    if lines != [] {
      var n := |lines| - 1;
      var p, line := lines[..n], lines[n];
      ReadsTheLast(p, name, digest);
      if Chunker.Strip(line) == "" { BlankTellsNothing(line); } else { ParsedTells(line); }
      var told := Chunker.Strip(line) != "" && Parsed(line).0 == name;
      assert forall d :: Tells(line, name, d) <==> told && d == Parsed(line).1;
      LastMore(lines, name, digest);
    }
  }

  lemma {:induction false} BlankTellsNothing(line: string)
    requires Chunker.Strip(line) == ""
    ensures forall name, digest :: !Tells(line, name, digest)
  {
  }

  ghost predicate LastTells(lines: seq<string>, name: string, digest: string) {
    exists i :: 0 <= i < |lines| && Tells(lines[i], name, digest) && forall k, d :: i < k < |lines| ==> !Tells(lines[k], name, d)
  }

  lemma {:induction false} LastMore(lines: seq<string>, name: string, digest: string)
    requires lines != []
    ensures var n := |lines| - 1;
      LastTells(lines, name, digest) <==>
        Tells(lines[n], name, digest) || ((forall d :: !Tells(lines[n], name, d)) && LastTells(lines[..n], name, digest))
  {
    hide Tells;
    var n := |lines| - 1;
    var p := lines[..n];
    if LastTells(lines, name, digest) && !Tells(lines[n], name, digest) {
      var i :| 0 <= i < |lines| && Tells(lines[i], name, digest) && forall k, d :: i < k < |lines| ==> !Tells(lines[k], name, d);
      assert i < n && p[i] == lines[i];
      assert forall k, d :: i < k < |p| ==> !Tells(p[k], name, d);
    }
    if (forall d :: !Tells(lines[n], name, d)) && LastTells(p, name, digest) {
      var i :| 0 <= i < |p| && Tells(p[i], name, digest) && forall k, d :: i < k < |p| ==> !Tells(p[k], name, d);
      assert Tells(lines[i], name, digest);
      forall k, d | i < k < |lines| ensures !Tells(lines[k], name, d) { if k < n { assert lines[k] == p[k]; } }
    }
  }

  // ---- writing ------------------------------------------------------------------------------------

  function Line(name: string, digest: string): (s: string) { digest + "  " + name }

  /** The text for the names in the order given (the writer sorts them). */
  function LinesText(names: seq<string>, files: map<string, string>): (s: string)
    requires forall n :: n in names ==> n in files
  {
    if names == [] then "" else Line(names[0], files[names[0]]) + "\n" + LinesText(names[1..], files)
  }

  /** `"\n".join(lines) + "\n"`: a single newline when there is no line. */
  function SumsText(names: seq<string>, files: map<string, string>): (s: string)
    requires forall n :: n in names ==> n in files
  {
    if names == [] then "\n" else LinesText(names, files)
  }

  /** A digest as `hexdigest` gives it: not empty, no whitespace. */
  predicate IsDigest(d: string) { d != "" && forall i :: 0 <= i < |d| ==> !Chunker.IsSpace(d[i]) }

  /** Each file listed once. */
  ghost predicate Lists(names: seq<string>, files: map<string, string>) {
    && (forall n :: n in names <==> n in files)
    && forall i, j :: 0 <= i < j < |names| ==> names[i] != names[j]
  }

  lemma {:induction false} LineEndAt(line: string, rest: string)
    requires OneLine(line)
    ensures LineEnd(line + "\n" + rest) == |line|
  {
    var s := line + "\n" + rest;
    var n := LineEnd(s);
    assert forall k :: 0 <= k < |line| ==> s[k] == line[k] && !IsLineBreak(s[k]);
    assert forall k :: 0 <= k < n ==> s[..n][k] == s[k] && !IsLineBreak(s[k]);
    assert IsLineBreak(s[|line|]);
  }

  lemma {:induction false} SplitFirst(line: string, rest: string)
    requires OneLine(line)
    ensures SplitLines(line + "\n" + rest) == [line] + SplitLines(rest)
  {
    hide LineEnd, IsLineBreak;
    var s := line + "\n" + rest;
    LineEndAt(line, rest);
    assert s != "" && s[|line|] == '\n';
    assert s[..|line|] == line;
    assert s[|line|] == '\n' && s[|line| + 1..] == rest;
  }

  lemma {:induction false} SplitAt(s: string, n: nat)
    requires LineEnd(s) == n < |s|
    ensures var crlf := n + 1 < |s| && s[n] == '\r' && s[n + 1] == '\n';
      SplitLines(s) == [s[..n]] + SplitLines(s[if crlf then n + 2 else n + 1..])
  {
    if n + 1 < |s| { assert s[n..n + 2] == [s[n], s[n + 1]]; }
    hide LineEnd, IsLineBreak;
  }

  /** A carriage return and a newline behind it are one break. */
  lemma {:induction false} CrLfBreaksOnce(line: string, rest: string)
    requires OneLine(line)
    ensures SplitLines(line + ("\r\n" + rest)) == [line] + SplitLines(rest)
  {
    var s := line + ("\r\n" + rest);
    EndsAtBreak(line, "\r\n" + rest);
    hide SplitLines, LineEnd, IsLineBreak;
    SplitAt(s, |line|);
    assert s[|line|] == '\r' && s[|line| + 1] == '\n';
    assert s[..|line|] == line && s[|line| + 2..] == rest;
  }

  lemma {:induction false} EndsAtBreak(line: string, more: string)
    requires OneLine(line) && more != "" && IsLineBreak(more[0])
    ensures LineEnd(line + more) == |line|
  {
    var s := line + more;
    var n := LineEnd(s);
    assert forall k :: 0 <= k < |line| ==> s[k] == line[k] && !IsLineBreak(s[k]);
    assert forall k :: 0 <= k < n ==> s[..n][k] == s[k] && !IsLineBreak(s[k]);
    assert IsLineBreak(s[|line|]);
  }

  lemma {:induction false} GapAt(name: string, digest: string)
    requires IsDigest(digest)
    ensures Gap(Line(name, digest)) == |digest|
    decreases |digest|
  {
    var line := Line(name, digest);
    assert !Chunker.IsSpace(digest[0]) && line[0] == digest[0];
    if |digest| == 1 {
      assert line[1..] == "  " + name;
    } else {
      assert line[1..] == Line(name, digest[1..]);
      GapAt(name, digest[1..]);
    }
  }

  lemma {:induction false} ParsedLine(name: string, digest: string)
    requires IsDigest(digest)
    ensures Parsed(Line(name, digest)) == (name, digest) && Chunker.Strip(Line(name, digest)) != ""
  {
    GapAt(name, digest);
    var line := Line(name, digest);
    assert line[|digest| + 2..] == name && line[..|digest|] == digest;
    assert line[0] == digest[0];
  }

  function LinesOf(names: seq<string>, files: map<string, string>): (lines: seq<string>)
    requires forall n :: n in names ==> n in files
  {
    seq(|names|, i requires 0 <= i < |names| => Line(names[i], files[names[i]]))
  }

  lemma {:induction false} SplitWritten(names: seq<string>, files: map<string, string>)
    requires forall n :: n in names ==> n in files && OneLine(n) && OneLine(files[n])
    ensures SplitLines(LinesText(names, files)) == LinesOf(names, files)
  {
    if names != [] {
      var first := Line(names[0], files[names[0]]);
      assert names[0] in names;
      assert OneLine(first);
      SplitWritten(names[1..], files);
      SplitFirst(first, LinesText(names[1..], files));
      assert LinesOf(names, files) == [first] + LinesOf(names[1..], files);
    }
  }

  /** The text is one line per name: the digest, two spaces, the name. */
  lemma {:induction false} WrittenLines(names: seq<string>, files: map<string, string>)
    requires names != [] && forall n :: n in names ==> n in files && OneLine(n) && OneLine(files[n])
    ensures SplitLines(SumsText(names, files)) == seq(|names|, i requires 0 <= i < |names| => files[names[i]] + "  " + names[i])
  {
    hide SplitLines, LinesText, OneLine;
    SplitWritten(names, files);
  }

  lemma {:induction false} ReadWritten(names: seq<string>, files: map<string, string>, n: nat)
    requires n <= |names| && forall k :: k in names ==> k in files && IsDigest(files[k])
    ensures ReadLines(LinesOf(names, files)[..n]) == map k | k in names[..n] :: files[k]
  {
    hide Parsed, Line, IsDigest, Chunker.Strip;
    if n > 0 {
      var lines, last := LinesOf(names, files), names[n - 1];
      ReadWritten(names, files, n - 1);
      assert lines[..n][..n - 1] == lines[..n - 1] && lines[..n][n - 1] == Line(last, files[last]);
      ParsedLine(last, files[last]);
      TableGrows(names, files, n);
    }
  }

  lemma {:induction false} TableGrows(names: seq<string>, files: map<string, string>, n: nat)
    requires 0 < n <= |names| && forall k :: k in names ==> k in files
    ensures (map k | k in names[..n - 1] :: files[k])[names[n - 1] := files[names[n - 1]]] == map k | k in names[..n] :: files[k]
  {
    assert names[..n] == names[..n - 1] + [names[n - 1]];
  }

  lemma {:induction false} DigestIsOneLine(d: string)
    requires IsDigest(d)
    ensures OneLine(d)
  {
  }

  lemma {:induction false} NothingReadsBack()
    ensures ReadLines(SplitLines("\n")) == map[]
  {
    SplitFirst("", "");
    assert "" + "\n" + "" == "\n";
    assert SplitLines("\n") == [""];
    assert [""][..0] == [];
    assert Chunker.Strip("") == "";
  }

  /** Round trip: the checksum file reads back as the table it was written from. */
  lemma {:induction false} SumsRoundTrip(names: seq<string>, files: map<string, string>)
    requires Lists(names, files)
    requires forall f :: f in files ==> OneLine(f) && IsDigest(files[f])
    ensures ReadLines(SplitLines(SumsText(names, files))) == files
  {
    hide IsLineBreak, LineEnd, IsDigest, OneLine, ReadLines, SplitLines, Line;
    if names == [] {
      NothingReadsBack();
      assert forall k :: k in files ==> k in names;
      assert files.Keys == {};
    } else {
      forall f | f in files ensures OneLine(files[f]) { DigestIsOneLine(files[f]); }
      SplitWritten(names, files);
      ReadWritten(names, files, |names|);
      assert LinesOf(names, files)[..|names|] == LinesOf(names, files);
      assert names[..|names|] == names;
      assert (map k | k in names :: files[k]) == files;
    }
  }

  lemma {:induction false} SplitLinesAreLines(s: string)
    ensures forall i :: 0 <= i < |SplitLines(s)| ==> OneLine(SplitLines(s)[i])
    decreases |s|
  {
    hide OneLine, LineEnd;
    if s != "" {
      var n := LineEnd(s);
      if n < |s| {
        SplitLinesAreLines(s[n + 1..]);
        if n + 1 < |s| { SplitLinesAreLines(s[n + 2..]); }
      }
    }
  }

  lemma {:induction false} ReadNamesAreLines(lines: seq<string>)
    requires forall i :: 0 <= i < |lines| ==> OneLine(lines[i])
    ensures forall k :: k in ReadLines(lines) ==> OneLine(k)
  {
    hide Gap, Chunker.Strip;
    if lines != [] { ReadNamesAreLines(lines[..|lines| - 1]); }
  }

  /** The file reads back as it was written exactly when no name holds a line break. */
  lemma {:induction false} ReadsBackIff(names: seq<string>, files: map<string, string>)
    requires Lists(names, files) && forall f :: f in files ==> IsDigest(files[f])
    ensures ReadLines(SplitLines(SumsText(names, files))) == files <==> forall f :: f in files ==> OneLine(f)
  {
    hide IsDigest, OneLine, ReadLines, SplitLines;
    if forall f :: f in files ==> OneLine(f) {
      SumsRoundTrip(names, files);
    } else {
      SplitLinesAreLines(SumsText(names, files));
      ReadNamesAreLines(SplitLines(SumsText(names, files)));
    }
  }

  /** A name with a line break does not survive: the file of this table reads back as another. */
  lemma {:induction false} NameWithBreakIsLost()
    ensures var files := map["a\nb" := "d"];
      Lists(["a\nb"], files) && ReadLines(SplitLines(SumsText(["a\nb"], files))) != files
  {
    var files := map["a\nb" := "d"];
    assert "a\nb"[1] == '\n' && !OneLine("a\nb");
    assert Lists(["a\nb"], files);
    hide ReadLines, SplitLines, SumsText, Lists;
    assert "a\nb" in files && IsDigest("d");
    ReadsBackIff(["a\nb"], files);
  }
}
