/**
 Scanning agrees with printing: a structured git diff is printed as text, and the scanner
 reads back exactly its totals and its effective added lines, each with its own file.
 */
module DiffRoundTrip {
  import opened Common
  import opened DiffScanner
  import opened DiffNormalized

  datatype BodyLine = Added(text: string) | Deleted(text: string) | Unchanged(text: string) | Remark(text: string)

  datatype Hunk = Hunk(range: string, body: seq<BodyLine>)

  /** The `---`/`+++` pair of a changed file.  `trailer` is the blank git puts after a name
      that contains blanks; a deleted file has no new name. */
  datatype Paths = Paths(before: string, after: Option<string>, trailer: string)

  /** A file's part of a git diff; a file without hunks has no paths. */
  datatype FileDiff =
    | Changed(header: string, extended: seq<string>, paths: Paths, hunks: seq<Hunk>)
    | Unhunked(header: string, extended: seq<string>)

  // ----- Printing -----

  function PrintBody(l: BodyLine): string {
    match l
    case Added(text) => "+" + text
    case Deleted(text) => "-" + text
    case Unchanged(text) => " " + text
    case Remark(text) => "\\" + text
  }

  function PrintBodies(body: seq<BodyLine>): seq<string> {
    if body == [] then [] else [PrintBody(body[0])] + PrintBodies(body[1..])
  }

  function PrintHunks(hunks: seq<Hunk>): seq<string> {
    if hunks == [] then []
    else ["@@ " + hunks[0].range] + PrintBodies(hunks[0].body) + PrintHunks(hunks[1..])
  }

  function PrintNewPath(p: Paths): string {
    "+++ " + (if p.after.Some? then "b/" + p.after.value + p.trailer else "/dev/null")
  }

  function PrintFile(f: FileDiff): seq<string> {
    match f
    case Changed(header, extended, paths, hunks) =>
      ["diff --git " + header] + extended + (["--- " + paths.before, PrintNewPath(paths)] + PrintHunks(hunks))
    case Unhunked(header, extended) =>
      ["diff --git " + header] + extended
  }

  function PrintFiles(files: seq<FileDiff>): seq<string> {
    if files == [] then [] else PrintFile(files[0]) + PrintFiles(files[1..])
  }

  /** Every line ended by a newline. */
  function Unlines(lines: seq<string>): string {
    if lines == [] then [] else lines[0] + "\n" + Unlines(lines[1..])
  }

  function Print(files: seq<FileDiff>): string {
    Unlines(PrintFiles(files))
  }

  // ----- Well-formed diffs -----

  predicate OneLine(s: string) {
    '\n' !in s
  }

  /** An extended header line (mode, index, rename, binary notice) is none of the marked lines. */
  predicate IsExtended(line: string) {
    OneLine(line) && !("diff --git " <= line) && !("@@ " <= line) && !("+" <= line) && !("-" <= line)
  }

  predicate AllExtended(lines: seq<string>) {
    lines == [] || (IsExtended(lines[0]) && AllExtended(lines[1..]))
  }

  predicate WellFormedHunk(h: Hunk) {
    OneLine(h.range) && forall i :: 0 <= i < |h.body| ==> OneLine(h.body[i].text)
  }

  predicate WellFormedPaths(p: Paths) {
    && OneLine(p.before) && OneLine(p.trailer) && (forall i :: 0 <= i < |p.trailer| ==> IsWhitespace(p.trailer[i]))
    && (p.after.Some? ==> OneLine(p.after.value))
  }

  predicate WellFormed(f: FileDiff) {
    && OneLine(f.header)
    && AllExtended(f.extended)
    && (f.Changed? ==> WellFormedPaths(f.paths) && forall i :: 0 <= i < |f.hunks| ==> WellFormedHunk(f.hunks[i]))
  }

  predicate WellFormedDiff(files: seq<FileDiff>) {
    files == [] || (WellFormed(files[0]) && WellFormedDiff(files[1..]))
  }

  // ----- What the diff says -----

  function BodySummary(path: Option<string>, l: BodyLine, alphanumeric: char -> bool): Summary {
    match l
    case Added(text) =>
      var line := NormalizeLine(text, alphanumeric);
      Summary(1, 0, if path.Some? && line.Some? then [Fingerprint(path.value, line.value)] else [])
    case Deleted(_) => Summary(0, 1, [])
    case _ => NOTHING
  }

  function BodiesSummary(path: Option<string>, body: seq<BodyLine>, alphanumeric: char -> bool): Summary {
    if body == [] then NOTHING
    else Plus(BodySummary(path, body[0], alphanumeric), BodiesSummary(path, body[1..], alphanumeric))
  }

  function HunksSummary(path: Option<string>, hunks: seq<Hunk>, alphanumeric: char -> bool): Summary {
    if hunks == [] then NOTHING
    else Plus(BodiesSummary(path, hunks[0].body, alphanumeric), HunksSummary(path, hunks[1..], alphanumeric))
  }

  function FileSummary(f: FileDiff, alphanumeric: char -> bool): Summary {
    if f.Changed? then HunksSummary(f.paths.after, f.hunks, alphanumeric) else NOTHING
  }

  function DiffSummary(files: seq<FileDiff>, alphanumeric: char -> bool): Summary {
    if files == [] then NOTHING else Plus(FileSummary(files[0], alphanumeric), DiffSummary(files[1..], alphanumeric))
  }

  // ----- Names that end in a blank -----

  /** The name the scanner sees: blanks at its end are taken for the trailer. */
  function ReadName(after: Option<string>): Option<string> {
    if after.Some? then Some(TrimEnd(after.value)) else None
  }

  function AsRead(f: FileDiff): FileDiff {
    if f.Changed? then f.(paths := f.paths.(after := ReadName(f.paths.after))) else f
  }

  function AllAsRead(files: seq<FileDiff>): seq<FileDiff> {
    if files == [] then [] else [AsRead(files[0])] + AllAsRead(files[1..])
  }

  predicate EndsInBlank(name: string) {
    name != [] && IsWhitespace(name[|name| - 1])
  }

  /** A line that gives a fingerprint. */
  predicate IsEffective(l: BodyLine, alphanumeric: char -> bool) {
    l.Added? && NormalizeLine(l.text, alphanumeric).Some?
  }

  predicate HasEffective(body: seq<BodyLine>, alphanumeric: char -> bool) {
    exists i :: 0 <= i < |body| && IsEffective(body[i], alphanumeric)
  }

  predicate AnyEffective(hunks: seq<Hunk>, alphanumeric: char -> bool) {
    exists i :: 0 <= i < |hunks| && HasEffective(hunks[i].body, alphanumeric)
  }

  /** A file whose name ends in a blank and to which an effective line is added. */
  predicate IsMisread(f: FileDiff, alphanumeric: char -> bool) {
    && f.Changed? && f.paths.after.Some? && EndsInBlank(f.paths.after.value)
    && AnyEffective(f.hunks, alphanumeric)
  }

  predicate AnyMisread(files: seq<FileDiff>, alphanumeric: char -> bool) {
    exists i :: 0 <= i < |files| && IsMisread(files[i], alphanumeric)
  }

  // ----- Blanks do not matter where the scanner normalises -----

  lemma {:induction false} TrimEndBlanks(s: string, blanks: string)
    requires forall i :: 0 <= i < |blanks| ==> IsWhitespace(blanks[i])
    ensures TrimEnd(s + blanks) == TrimEnd(s)
    decreases |blanks|
  {
    if blanks == [] {
      assert s + blanks == s;
    } else {
      var n := |blanks| - 1;
      assert (s + blanks)[..|s| + n] == s + blanks[..n];
      TrimEndBlanks(s, blanks[..n]);
    }
  }

  lemma {:induction false} TrimEndPrefix(p: string, s: string)
    requires p != [] && !IsWhitespace(p[|p| - 1])
    ensures TrimEnd(p + s) == p + TrimEnd(s)
    decreases |s|
  {
    if s == [] {
      assert p + s == p;
    } else if IsWhitespace(s[|s| - 1]) {
      assert (p + s)[..|p + s| - 1] == p + s[..|s| - 1];
      TrimEndPrefix(p, s[..|s| - 1]);
    }
  }

  /** A printed new path is read as the file's name without the blanks at its end. */
  lemma PrintedPathIsRead(p: Paths)
    requires WellFormedPaths(p)
    ensures NormalizePath(PrintNewPath(p)[4..]) == ReadName(p.after)
  {
    if p.after.Some? {
      var name := p.after.value;
      var raw := "b/" + name + p.trailer;
      assert PrintNewPath(p)[4..] == raw;
      assert TrimStart(raw) == raw;
      TrimEndBlanks("b/" + name, p.trailer);
      TrimEndPrefix("b/", name);
      assert ("b/" + TrimEnd(name))[2..] == TrimEnd(name);
    } else {
      assert PrintNewPath(p)[4..] == "/dev/null";
      assert TrimEnd("/dev/null") == "/dev/null";
    }
  }

  lemma {:induction false} WordsTrailingBlank(s: string, word: string, blank: char)
    requires IsWhitespace(blank)
    ensures WordsFrom(s + [blank], word) == WordsFrom(s, word)
    decreases |s|
  {
    if s == [] {
      assert (s + [blank])[1..] == [];
    } else {
      assert (s + [blank])[0] == s[0] && (s + [blank])[1..] == s[1..] + [blank];
      WordsTrailingBlank(s[1..], if IsWhitespace(s[0]) then [] else word + [s[0]], blank);
    }
  }

  lemma NormalizeLineIgnoresReturn(line: string, alphanumeric: char -> bool)
    ensures NormalizeLine(StripCarriageReturn(line), alphanumeric) == NormalizeLine(line, alphanumeric)
  {
    if line != [] && line[|line| - 1] == '\r' {
      var front := line[..|line| - 1];
      assert line == front + ['\r'];
      WordsTrailingBlank(front, [], '\r');
    }
  }

  lemma {:induction false} TrimStartEnd(s: string)
    ensures TrimEnd(TrimStart(s + ['\r'])) == TrimEnd(TrimStart(s))
    decreases |s|
  {
    if s == [] {
      assert (s + ['\r'])[1..] == [];
    } else if IsWhitespace(s[0]) {
      assert (s + ['\r'])[1..] == s[1..] + ['\r'];
      TrimStartEnd(s[1..]);
    } else {
      TrimEndBlanks(s, ['\r']);
    }
  }

  lemma NormalizePathIgnoresReturn(raw: string)
    ensures NormalizePath(StripCarriageReturn(raw)) == NormalizePath(raw)
  {
    if raw != [] && raw[|raw| - 1] == '\r' {
      var front := raw[..|raw| - 1];
      assert raw == front + ['\r'];
      TrimStartEnd(front);
    }
  }

  lemma PrefixIgnoresReturn(p: string, line: string)
    requires '\r' !in p
    ensures p <= StripCarriageReturn(line) <==> p <= line
    ensures p <= line ==> StripCarriageReturn(line)[|p|..] == StripCarriageReturn(line[|p|..])
  {
  }

  /** A carriage return before the newline changes nothing. */
  lemma LineIgnoresReturn(m: Mode, line: string, alphanumeric: char -> bool)
    ensures NextMode(m, StripCarriageReturn(line)) == NextMode(m, line)
    ensures LineSummary(m, StripCarriageReturn(line), alphanumeric) == LineSummary(m, line, alphanumeric)
  {
    PrefixIgnoresReturn(FILE_HEADER, line);
    PrefixIgnoresReturn(HUNK_HEADER, line);
    PrefixIgnoresReturn(NEW_PATH, line);
    PrefixIgnoresReturn(OLD_PATH, line);
    PrefixIgnoresReturn("+", line);
    PrefixIgnoresReturn("-", line);
    if NEW_PATH <= line {
      NormalizePathIgnoresReturn(line[4..]);
    }
    if "+" <= line {
      NormalizeLineIgnoresReturn(line[1..], alphanumeric);
    }
  }

  // ----- From text to lines -----

  lemma {:induction false} ReadLine(line: string, rest: string, read: string)
    requires OneLine(line)
    ensures LinesFrom(line + "\n" + rest, read) == [StripCarriageReturn(read + line)] + LinesFrom(rest, [])
    decreases |line|
  {
    var text := line + "\n" + rest;
    if line == [] {
      assert text[0] == '\n' && text[1..] == rest;
      assert read + line == read;
    } else {
      assert text[0] == line[0] && text[1..] == line[1..] + "\n" + rest;
      ReadLine(line[1..], rest, read + [line[0]]);
      assert (read + [line[0]]) + line[1..] == read + line;
    }
  }

  lemma {:induction false} ScanUnlines(m: Mode, lines: seq<string>, alphanumeric: char -> bool)
    requires forall i :: 0 <= i < |lines| ==> OneLine(lines[i])
    ensures ScanFrom(m, Lines(Unlines(lines)), alphanumeric) == ScanFrom(m, lines, alphanumeric)
    decreases |lines|
  {
    if lines != [] {
      var rest := Unlines(lines[1..]);
      ReadLine(lines[0], rest, []);
      assert [] + lines[0] == lines[0];
      var read := Lines(Unlines(lines));
      assert read[0] == StripCarriageReturn(lines[0]) && read[1..] == Lines(rest);
      LineIgnoresReturn(m, lines[0], alphanumeric);
      ScanUnlines(NextMode(m, lines[0]), lines[1..], alphanumeric);
    }
  }

  // ----- From lines to the summary -----

  lemma HasPrefix(p: string, s: string)
    ensures p <= p + s && (p + s)[|p|..] == s
  {
  }

  lemma ScanBody(m: Mode, l: BodyLine, alphanumeric: char -> bool)
    requires m.inHunk
    ensures NextMode(m, PrintBody(l)) == m
    ensures LineSummary(m, PrintBody(l), alphanumeric) == BodySummary(m.path, l, alphanumeric)
  {
    var line := PrintBody(l);
    assert line[1..] == l.text;
    NotAPrefix(FILE_HEADER, 0, line);
    NotAPrefix(HUNK_HEADER, 0, line);
    match l
    case Added(_) => assert "+" <= line;
    case Deleted(_) =>
      NotAPrefix("+", 0, line);
      assert "-" <= line;
    case _ =>
      NotAPrefix("+", 0, line);
      NotAPrefix("-", 0, line);
  }

  lemma ScanExtendedLine(line: string, alphanumeric: char -> bool)
    requires IsExtended(line)
    ensures NextMode(START, line) == START
    ensures LineSummary(START, line, alphanumeric) == NOTHING
  {
    assert NEW_PATH <= line ==> "+" <= line;
    assert OLD_PATH <= line ==> "-" <= line;
  }

  lemma ScanFileHeader(m: Mode, header: string, alphanumeric: char -> bool)
    ensures NextMode(m, FILE_HEADER + header) == START
    ensures LineSummary(m, FILE_HEADER + header, alphanumeric) == NOTHING
  {
    HasPrefix(FILE_HEADER, header);
  }

  lemma ScanHunkHeader(m: Mode, range: string, alphanumeric: char -> bool)
    ensures NextMode(m, HUNK_HEADER + range) == m.(inHunk := true)
    ensures LineSummary(m, HUNK_HEADER + range, alphanumeric) == NOTHING
  {
    HasPrefix(HUNK_HEADER, range);
    NotAPrefix(FILE_HEADER, 0, HUNK_HEADER + range);
  }

  lemma ScanOldPath(name: string, alphanumeric: char -> bool)
    ensures NextMode(START, OLD_PATH + name) == START
    ensures LineSummary(START, OLD_PATH + name, alphanumeric) == NOTHING
  {
    var line := OLD_PATH + name;
    HasPrefix(OLD_PATH, name);
    NotAPrefix(FILE_HEADER, 0, line);
    NotAPrefix(HUNK_HEADER, 0, line);
    NotAPrefix(NEW_PATH, 0, line);
  }

  lemma ScanNewPath(name: string, alphanumeric: char -> bool)
    ensures NextMode(START, NEW_PATH + name) == Mode(NormalizePath(name), false)
    ensures LineSummary(START, NEW_PATH + name, alphanumeric) == NOTHING
  {
    var line := NEW_PATH + name;
    HasPrefix(NEW_PATH, name);
    NotAPrefix(FILE_HEADER, 0, line);
    NotAPrefix(HUNK_HEADER, 0, line);
  }

  lemma {:induction false} ScanBodies(m: Mode, body: seq<BodyLine>, alphanumeric: char -> bool)
    requires m.inHunk
    ensures ModeAfter(m, PrintBodies(body)) == m
    ensures ScanFrom(m, PrintBodies(body), alphanumeric) == BodiesSummary(m.path, body, alphanumeric)
    decreases |body|
  {
    if body != [] {
      var lines := PrintBodies(body);
      assert lines[0] == PrintBody(body[0]) && lines[1..] == PrintBodies(body[1..]);
      ScanBody(m, body[0], alphanumeric);
      ScanBodies(m, body[1..], alphanumeric);
    }
  }

  lemma {:induction false} ScanHunks(m: Mode, hunks: seq<Hunk>, alphanumeric: char -> bool)
    ensures ScanFrom(m, PrintHunks(hunks), alphanumeric) == HunksSummary(m.path, hunks, alphanumeric)
    decreases |hunks|
  {
    if hunks != [] {
      var top := HUNK_HEADER + hunks[0].range;
      var body, more := PrintBodies(hunks[0].body), PrintHunks(hunks[1..]);
      var inside := m.(inHunk := true);
      assert PrintHunks(hunks) == [top] + (body + more);
      assert PrintHunks(hunks)[0] == top && PrintHunks(hunks)[1..] == body + more;
      ScanHunkHeader(m, hunks[0].range, alphanumeric);
      ScanBodies(inside, hunks[0].body, alphanumeric);
      ScanConcat(inside, body, more, alphanumeric);
      ScanHunks(inside, hunks[1..], alphanumeric);
      SkipLine(m, PrintHunks(hunks), alphanumeric);
    }
  }

  lemma SkipLine(m: Mode, lines: seq<string>, alphanumeric: char -> bool)
    requires lines != [] && LineSummary(m, lines[0], alphanumeric) == NOTHING
    ensures ScanFrom(m, lines, alphanumeric) == ScanFrom(NextMode(m, lines[0]), lines[1..], alphanumeric)
  {
    PlusNothing(ScanFrom(NextMode(m, lines[0]), lines[1..], alphanumeric));
  }

  lemma {:induction false} SkipExtended(extended: seq<string>, tail: seq<string>, alphanumeric: char -> bool)
    requires AllExtended(extended)
    ensures ScanFrom(START, extended + tail, alphanumeric) == ScanFrom(START, tail, alphanumeric)
    decreases |extended|
  {
    if extended == [] {
      assert extended + tail == tail;
    } else {
      var lines := extended + tail;
      assert lines[0] == extended[0] && lines[1..] == extended[1..] + tail;
      ScanExtendedLine(extended[0], alphanumeric);
      SkipLine(START, lines, alphanumeric);
      SkipExtended(extended[1..], tail, alphanumeric);
    }
  }

  /** The two path lines and the hunks, read outside any hunk. */
  lemma ScanChange(paths: Paths, hunks: seq<Hunk>, alphanumeric: char -> bool)
    requires WellFormedPaths(paths)
    ensures ScanFrom(START, [OLD_PATH + paths.before, PrintNewPath(paths)] + PrintHunks(hunks), alphanumeric) ==
            HunksSummary(ReadName(paths.after), hunks, alphanumeric)
  {
    var oldLine, newLine, rest := OLD_PATH + paths.before, PrintNewPath(paths), PrintHunks(hunks);
    var lines := [oldLine, newLine] + rest;
    var m := Mode(ReadName(paths.after), false);
    assert lines[0] == oldLine && lines[1..][0] == newLine && lines[1..][1..] == rest;
    PrintedPathIsRead(paths);
    ScanOldPath(paths.before, alphanumeric);
    ScanNewPath(newLine[4..], alphanumeric);
    assert newLine == NEW_PATH + newLine[4..];
    SkipLine(START, lines, alphanumeric);
    SkipLine(START, lines[1..], alphanumeric);
    ScanHunks(m, hunks, alphanumeric);
  }

  /** The top of a file's part puts the scanner back to its start. */
  lemma ScanTop(m: Mode, header: string, extended: seq<string>, tail: seq<string>, alphanumeric: char -> bool)
    requires AllExtended(extended)
    ensures ScanFrom(m, [FILE_HEADER + header] + extended + tail, alphanumeric) == ScanFrom(START, tail, alphanumeric)
  {
    var lines := [FILE_HEADER + header] + extended + tail;
    assert lines[0] == FILE_HEADER + header && lines[1..] == extended + tail;
    ScanFileHeader(m, header, alphanumeric);
    SkipLine(m, lines, alphanumeric);
    SkipExtended(extended, tail, alphanumeric);
  }

  lemma ScanFile(m: Mode, f: FileDiff, alphanumeric: char -> bool)
    requires WellFormed(f)
    ensures ScanFrom(m, PrintFile(f), alphanumeric) == FileSummary(AsRead(f), alphanumeric)
  {
    match f
    case Changed(header, extended, paths, hunks) =>
      ScanTop(m, header, extended, [OLD_PATH + paths.before, PrintNewPath(paths)] + PrintHunks(hunks), alphanumeric);
      ScanChange(paths, hunks, alphanumeric);
    case Unhunked(header, extended) =>
      ScanTop(m, header, extended, [], alphanumeric);
      assert [FILE_HEADER + header] + extended + [] == PrintFile(f);
  }

  lemma ScanParts(m: Mode, first: seq<string>, more: seq<string>, alphanumeric: char -> bool, a: Summary, b: Summary)
    requires ScanFrom(m, first, alphanumeric) == a
    requires ScanFrom(ModeAfter(m, first), more, alphanumeric) == b
    ensures ScanFrom(m, first + more, alphanumeric) == Plus(a, b)
  {
    ScanConcat(m, first, more, alphanumeric);
  }

  lemma {:induction false} ScanFiles(m: Mode, files: seq<FileDiff>, alphanumeric: char -> bool)
    requires WellFormedDiff(files)
    ensures ScanFrom(m, PrintFiles(files), alphanumeric) == DiffSummary(AllAsRead(files), alphanumeric)
    decreases |files|
  {
    if files != [] {
      var first, more := PrintFile(files[0]), PrintFiles(files[1..]);
      ScanFile(m, files[0], alphanumeric);
      ScanFiles(ModeAfter(m, first), files[1..], alphanumeric);
      ScanParts(m, first, more, alphanumeric, FileSummary(AsRead(files[0]), alphanumeric),
                DiffSummary(AllAsRead(files[1..]), alphanumeric));
      assert AllAsRead(files)[0] == AsRead(files[0]) && AllAsRead(files)[1..] == AllAsRead(files[1..]);
    }
  }

  lemma {:induction false} BodiesAreOneLine(body: seq<BodyLine>)
    requires forall i :: 0 <= i < |body| ==> OneLine(body[i].text)
    ensures forall i :: 0 <= i < |PrintBodies(body)| ==> OneLine(PrintBodies(body)[i])
    decreases |body|
  {
    if body != [] {
      BodiesAreOneLine(body[1..]);
    }
  }

  lemma {:induction false} HunksAreOneLine(hunks: seq<Hunk>)
    requires forall i :: 0 <= i < |hunks| ==> WellFormedHunk(hunks[i])
    ensures forall i :: 0 <= i < |PrintHunks(hunks)| ==> OneLine(PrintHunks(hunks)[i])
    decreases |hunks|
  {
    if hunks != [] {
      assert WellFormedHunk(hunks[0]);
      BodiesAreOneLine(hunks[0].body);
      HunksAreOneLine(hunks[1..]);
    }
  }

  lemma {:induction false} ExtendedAreOneLine(extended: seq<string>)
    requires AllExtended(extended)
    ensures forall i :: 0 <= i < |extended| ==> OneLine(extended[i])
    decreases |extended|
  {
    if extended != [] {
      ExtendedAreOneLine(extended[1..]);
    }
  }

  lemma {:induction false} FilesAreOneLine(files: seq<FileDiff>)
    requires WellFormedDiff(files)
    ensures forall i :: 0 <= i < |PrintFiles(files)| ==> OneLine(PrintFiles(files)[i])
    decreases |files|
  {
    if files != [] {
      ExtendedAreOneLine(files[0].extended);
      if files[0].Changed? {
        HunksAreOneLine(files[0].hunks);
      }
      FilesAreOneLine(files[1..]);
    }
  }

  // ----- What a misread name changes -----

  /** Whatever the name, the totals and the number of fingerprints are the same; each fingerprint
      is under that name, and there are some exactly when a line is effective. */
  predicate SummaryUnder(s: Summary, path: string, added: nat, deleted: nat, lines: nat, effective: bool) {
    && s.added == added && s.deleted == deleted && |s.fingerprints| == lines
    && (forall i :: 0 <= i < |s.fingerprints| ==> s.fingerprints[i].path == path)
    && (s.fingerprints != [] <==> effective)
  }

  lemma SummaryUnderPlus(a: Summary, b: Summary, path: string, added: nat, deleted: nat, lines: nat, effective: bool,
                         added': nat, deleted': nat, lines': nat, effective': bool)
    requires SummaryUnder(a, path, added, deleted, lines, effective)
    requires SummaryUnder(b, path, added', deleted', lines', effective')
    ensures SummaryUnder(Plus(a, b), path, added + added', deleted + deleted', lines + lines', effective || effective')
  {
  }

  lemma HasEffectiveCons(body: seq<BodyLine>, alphanumeric: char -> bool)
    requires body != []
    ensures HasEffective(body, alphanumeric) <==> IsEffective(body[0], alphanumeric) || HasEffective(body[1..], alphanumeric)
  {
    var rest := body[1..];
    if HasEffective(body, alphanumeric) {
      var i :| 0 <= i < |body| && IsEffective(body[i], alphanumeric);
      assert i > 0 ==> rest[i - 1] == body[i];
    }
    if HasEffective(rest, alphanumeric) {
      var i :| 0 <= i < |rest| && IsEffective(rest[i], alphanumeric);
      assert body[i + 1] == rest[i];
    }
  }

  lemma AnyEffectiveCons(hunks: seq<Hunk>, alphanumeric: char -> bool)
    requires hunks != []
    ensures AnyEffective(hunks, alphanumeric) <==> HasEffective(hunks[0].body, alphanumeric) || AnyEffective(hunks[1..], alphanumeric)
  {
    var rest := hunks[1..];
    if AnyEffective(hunks, alphanumeric) {
      var i :| 0 <= i < |hunks| && HasEffective(hunks[i].body, alphanumeric);
      assert i > 0 ==> rest[i - 1] == hunks[i];
    }
    if AnyEffective(rest, alphanumeric) {
      var i :| 0 <= i < |rest| && HasEffective(rest[i].body, alphanumeric);
      assert hunks[i + 1] == rest[i];
    }
  }

  lemma {:induction false} BodiesUnder(path: string, other: string, body: seq<BodyLine>, alphanumeric: char -> bool)
    ensures var o := BodiesSummary(Some(other), body, alphanumeric);
            SummaryUnder(BodiesSummary(Some(path), body, alphanumeric), path, o.added, o.deleted, |o.fingerprints|,
                         HasEffective(body, alphanumeric))
    decreases |body|
  {
    if body != [] {
      BodiesUnder(path, other, body[1..], alphanumeric);
      HasEffectiveCons(body, alphanumeric);
      var o, more := BodySummary(Some(other), body[0], alphanumeric), BodiesSummary(Some(other), body[1..], alphanumeric);
      SummaryUnderPlus(BodySummary(Some(path), body[0], alphanumeric), BodiesSummary(Some(path), body[1..], alphanumeric), path,
                       o.added, o.deleted, |o.fingerprints|, IsEffective(body[0], alphanumeric),
                       more.added, more.deleted, |more.fingerprints|, HasEffective(body[1..], alphanumeric));
    }
  }

  lemma {:induction false} HunksUnder(path: string, other: string, hunks: seq<Hunk>, alphanumeric: char -> bool)
    ensures var o := HunksSummary(Some(other), hunks, alphanumeric);
            SummaryUnder(HunksSummary(Some(path), hunks, alphanumeric), path, o.added, o.deleted, |o.fingerprints|,
                         AnyEffective(hunks, alphanumeric))
    decreases |hunks|
  {
    if hunks != [] {
      HunksUnder(path, other, hunks[1..], alphanumeric);
      BodiesUnder(path, other, hunks[0].body, alphanumeric);
      AnyEffectiveCons(hunks, alphanumeric);
      var o, more := BodiesSummary(Some(other), hunks[0].body, alphanumeric), HunksSummary(Some(other), hunks[1..], alphanumeric);
      SummaryUnderPlus(BodiesSummary(Some(path), hunks[0].body, alphanumeric), HunksSummary(Some(path), hunks[1..], alphanumeric), path,
                       o.added, o.deleted, |o.fingerprints|, HasEffective(hunks[0].body, alphanumeric),
                       more.added, more.deleted, |more.fingerprints|, AnyEffective(hunks[1..], alphanumeric));
    }
  }

  /** Two summaries that can only differ in which files their lines are paired with. */
  predicate SameCounts(a: Summary, b: Summary) {
    a.added == b.added && a.deleted == b.deleted && |a.fingerprints| == |b.fingerprints|
  }

  lemma TrimEndKeeps(name: string)
    ensures |TrimEnd(name)| <= |name|
    ensures TrimEnd(name) == name <==> !EndsInBlank(name)
  {
  }

  lemma ReadFile(f: FileDiff, alphanumeric: char -> bool)
    ensures SameCounts(FileSummary(AsRead(f), alphanumeric), FileSummary(f, alphanumeric))
    ensures FileSummary(AsRead(f), alphanumeric) == FileSummary(f, alphanumeric) <==> !IsMisread(f, alphanumeric)
  {
    if f.Changed? && f.paths.after.Some? {
      var name := f.paths.after.value;
      TrimEndKeeps(name);
      HunksUnder(TrimEnd(name), name, f.hunks, alphanumeric);
      HunksUnder(name, name, f.hunks, alphanumeric);
      var a, b := FileSummary(AsRead(f), alphanumeric), FileSummary(f, alphanumeric);
      if AnyEffective(f.hunks, alphanumeric) {
        assert a.fingerprints[0].path == TrimEnd(name) && b.fingerprints[0].path == name;
      }
    }
  }

  lemma PlusIsEqual(a: Summary, b: Summary, a': Summary, b': Summary)
    requires SameCounts(a, a') && SameCounts(b, b')
    ensures SameCounts(Plus(a, b), Plus(a', b'))
    ensures Plus(a, b) == Plus(a', b') <==> a == a' && b == b'
  {
    if Plus(a, b) == Plus(a', b') {
      var n := |a.fingerprints|;
      assert a.fingerprints == Plus(a, b).fingerprints[..n] && b.fingerprints == Plus(a, b).fingerprints[n..];
      assert a'.fingerprints == Plus(a', b').fingerprints[..n] && b'.fingerprints == Plus(a', b').fingerprints[n..];
    }
  }

  lemma AnyMisreadCons(files: seq<FileDiff>, alphanumeric: char -> bool)
    requires files != []
    ensures AnyMisread(files, alphanumeric) <==> IsMisread(files[0], alphanumeric) || AnyMisread(files[1..], alphanumeric)
  {
    var rest := files[1..];
    if AnyMisread(files, alphanumeric) {
      var i :| 0 <= i < |files| && IsMisread(files[i], alphanumeric);
      assert i > 0 ==> rest[i - 1] == files[i];
    }
    if AnyMisread(rest, alphanumeric) {
      var i :| 0 <= i < |rest| && IsMisread(rest[i], alphanumeric);
      assert files[i + 1] == rest[i];
    }
  }

  lemma {:induction false} ReadFiles(files: seq<FileDiff>, alphanumeric: char -> bool)
    ensures SameCounts(DiffSummary(AllAsRead(files), alphanumeric), DiffSummary(files, alphanumeric))
    ensures DiffSummary(AllAsRead(files), alphanumeric) == DiffSummary(files, alphanumeric) <==> !AnyMisread(files, alphanumeric)
    decreases |files|
  {
    if files != [] {
      assert AllAsRead(files)[0] == AsRead(files[0]) && AllAsRead(files)[1..] == AllAsRead(files[1..]);
      ReadFile(files[0], alphanumeric);
      ReadFiles(files[1..], alphanumeric);
      AnyMisreadCons(files, alphanumeric);
      PlusIsEqual(FileSummary(AsRead(files[0]), alphanumeric), DiffSummary(AllAsRead(files[1..]), alphanumeric),
                  FileSummary(files[0], alphanumeric), DiffSummary(files[1..], alphanumeric));
    }
  }

  // ----- The round trip -----

  /** For every git diff, whatever its bodies look like, scanning the printed text gives its
      added and deleted totals and its effective added lines paired with their files, but for
      blanks at the end of a file's name.  So it gives exactly what the diff says, if and only if
      no file whose name ends in a blank has an effective added line. */
  lemma ScanReadsWhatWasPrinted(files: seq<FileDiff>, alphanumeric: char -> bool)
    requires WellFormedDiff(files)
    ensures Scan(Print(files), alphanumeric) == DiffSummary(AllAsRead(files), alphanumeric)
    ensures SameCounts(Scan(Print(files), alphanumeric), DiffSummary(files, alphanumeric))
    ensures Scan(Print(files), alphanumeric) == DiffSummary(files, alphanumeric) <==> !AnyMisread(files, alphanumeric)
  {
    FilesAreOneLine(files);
    ScanUnlines(START, PrintFiles(files), alphanumeric);
    ScanFiles(START, files, alphanumeric);
    ReadFiles(files, alphanumeric);
  }

  lemma {:induction false} BytesAtLeast(s: string)
    ensures ByteLength(s) >= |s|
  {
    if s != [] {
      BytesAtLeast(s[1..]);
    }
  }

  lemma OneWordIsEffective(text: string, alphanumeric: char -> bool)
    requires |text| > 3 && '_' in text && forall i :: 0 <= i < |text| ==> !IsWhitespace(text[i])
    ensures IsEffective(Added(text), alphanumeric)
  {
    OneWord(text, []);
    assert [] + text == text;
    BytesAtLeast(text);
    var i :| 0 <= i < |text| && text[i] == '_';
    assert alphanumeric(text[i]) || text[i] == '_';
  }

  /** The exception is real: a file whose name is followed by a blank, with one added word. */
  lemma NameEndingInBlankIsMisread(name: string, text: string, alphanumeric: char -> bool)
    requires OneLine(name) && OneLine(text)
    requires |text| > 3 && '_' in text && forall i :: 0 <= i < |text| ==> !IsWhitespace(text[i])
    ensures var files := [Changed([], [], Paths([], Some(name + " "), []), [Hunk([], [Added(text)])])];
            WellFormedDiff(files) && Scan(Print(files), alphanumeric) != DiffSummary(files, alphanumeric)
  {
    var hunk := Hunk([], [Added(text)]);
    var f := Changed([], [], Paths([], Some(name + " "), []), [hunk]);
    OneWordIsEffective(text, alphanumeric);
    assert HasEffective(hunk.body, alphanumeric) by { assert IsEffective(hunk.body[0], alphanumeric); }
    assert AnyEffective(f.hunks, alphanumeric) by { assert HasEffective(f.hunks[0].body, alphanumeric); }
    var files := [f];
    assert files[1..] == [];
    assert IsMisread(files[0], alphanumeric);
    ScanReadsWhatWasPrinted(files, alphanumeric);
  }

  // ----- Additivity -----

  lemma {:induction false} LinesConcat(a: string, b: string, read: string)
    requires a != [] && a[|a| - 1] == '\n'
    ensures LinesFrom(a + b, read) == LinesFrom(a, read) + LinesFrom(b, [])
    decreases |a|
  {
    assert (a + b)[0] == a[0] && (a + b)[1..] == a[1..] + b;
    if |a| == 1 {
      assert a[1..] + b == b;
    } else if a[0] == '\n' {
      LinesConcat(a[1..], b, []);
    } else {
      LinesConcat(a[1..], b, read + [a[0]]);
    }
  }

  /** A text that starts a file starts with a file line. */
  lemma {:induction false} FirstLine(p: string, text: string, read: string)
    requires OneLine(p) && '\r' !in p && p <= read + text && |read| <= |p| && p != []
    ensures LinesFrom(text, read) != [] && p <= LinesFrom(text, read)[0]
    decreases |p| - |read|, |text|
  {
    if text == [] {
      assert read + text == read;
    } else if |read| < |p| {
      assert text[0] == (read + text)[|read|] == p[|read|];
      assert text[0] != '\n';
      assert read + text == (read + [text[0]]) + text[1..];
      FirstLine(p, text[1..], read + [text[0]]);
    } else {
      assert read == p;
      FirstLineDone(p, text, read);
    }
  }

  lemma {:induction false} FirstLineDone(p: string, text: string, read: string)
    requires p <= read && p != [] && '\r' !in p
    ensures LinesFrom(text, read) != [] && p <= LinesFrom(text, read)[0]
    decreases |text|
  {
    if text != [] {
      if text[0] == '\n' {
        PrefixIgnoresReturn(p, read);
      } else {
        FirstLineDone(p, text[1..], read + [text[0]]);
      }
    }
  }

  lemma StartsWithFileLine(text: string)
    requires FILE_HEADER <= text
    ensures Lines(text) != [] && FILE_HEADER <= Lines(text)[0]
  {
    assert [] + text == text;
    FirstLine(FILE_HEADER, text, []);
  }

  /** A file line is read the same in every mode, and so is everything after it. */
  lemma HeaderResets(m: Mode, lines: seq<string>, alphanumeric: char -> bool)
    requires lines != [] && FILE_HEADER <= lines[0]
    ensures ScanFrom(m, lines, alphanumeric) == ScanFrom(START, lines, alphanumeric)
  {
    ScanCons(m, lines, alphanumeric);
    ScanCons(START, lines, alphanumeric);
  }

  lemma LinesAreAdditive(a: seq<string>, b: seq<string>, alphanumeric: char -> bool)
    requires b != [] && FILE_HEADER <= b[0]
    ensures ScanFrom(START, a + b, alphanumeric) == Plus(ScanFrom(START, a, alphanumeric), ScanFrom(START, b, alphanumeric))
  {
    ScanConcat(START, a, b, alphanumeric);
    HeaderResets(ModeAfter(START, a), b, alphanumeric);
  }

  /** Scanning is additive at file boundaries: nothing of one file's reading leaks into the next. */
  lemma ScanIsAdditive(a: string, b: string, alphanumeric: char -> bool)
    requires a == [] || a[|a| - 1] == '\n'
    requires "diff --git " <= b
    ensures Scan(a + b, alphanumeric) == Plus(Scan(a, alphanumeric), Scan(b, alphanumeric))
  {
    StartsWithFileLine(b);
    LinesOfBoth(a, b);
    LinesAreAdditive(Lines(a), Lines(b), alphanumeric);
  }

  lemma LinesOfBoth(a: string, b: string)
    requires a == [] || a[|a| - 1] == '\n'
    ensures Lines(a + b) == Lines(a) + Lines(b)
  {
    if a == [] {
      assert a + b == b && Lines(a) == [];
    } else {
      LinesConcat(a, b, []);
    }
  }
}
