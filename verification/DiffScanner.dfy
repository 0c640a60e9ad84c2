/**
 The scanner that turns a turn's unified diff into accepted-line totals and fingerprints.
 A fingerprint is kept as the path and the normalised line it is the hash of.
 */
module DiffScanner {
  import opened Common

  // ----- Text -----

  /** The characters of Unicode's White_Space property. */
  predicate IsWhitespace(c: char) {
    || '\t' <= c <= '\r' || c == ' ' || c == '\U{85}' || c == '\U{A0}' || c == '\U{1680}'
    || '\U{2000}' <= c <= '\U{200A}' || c == '\U{2028}' || c == '\U{2029}' || c == '\U{202F}'
    || c == '\U{205F}' || c == '\U{3000}'
  }

  /** Bytes of a character in UTF-8. */
  function Utf8Length(c: char): nat {
    if c < '\U{80}' then 1 else if c < '\U{800}' then 2 else if c < '\U{10000}' then 3 else 4
  }

  function ByteLength(s: string): nat {
    if s == [] then 0 else Utf8Length(s[0]) + ByteLength(s[1..])
  }

  /** One line ending is a newline with at most one carriage return before it. */
  function StripCarriageReturn(line: string): string {
    if line != [] && line[|line| - 1] == '\r' then line[..|line| - 1] else line
  }

  /** The lines of a text; `line` is what was read since the last newline. */
  function LinesFrom(text: string, line: string): seq<string>
    decreases |text|
  {
    if text == [] then (if line == [] then [] else [line])
    else if text[0] == '\n' then [StripCarriageReturn(line)] + LinesFrom(text[1..], [])
    else LinesFrom(text[1..], line + [text[0]])
  }

  function Lines(text: string): seq<string> {
    LinesFrom(text, [])
  }

  function TrimStart(s: string): string {
    if s != [] && IsWhitespace(s[0]) then TrimStart(s[1..]) else s
  }

  function TrimEnd(s: string): string {
    if s != [] && IsWhitespace(s[|s| - 1]) then TrimEnd(s[..|s| - 1]) else s
  }

  /** The maximal runs of non-blank characters; `word` is the run being read. */
  function WordsFrom(s: string, word: string): seq<string>
    decreases |s|
  {
    if s == [] then (if word == [] then [] else [word])
    else if IsWhitespace(s[0]) then (if word == [] then [] else [word]) + WordsFrom(s[1..], [])
    else WordsFrom(s[1..], word + [s[0]])
  }

  function JoinWords(words: seq<string>): string {
    if words == [] then [] else if |words| == 1 then words[0] else words[0] + " " + JoinWords(words[1..])
  }

  // ----- The scanner -----

  datatype Fingerprint = Fingerprint(path: string, line: string)

  datatype Summary = Summary(added: nat, deleted: nat, fingerprints: seq<Fingerprint>)

  function Plus(a: Summary, b: Summary): Summary {
    Summary(a.added + b.added, a.deleted + b.deleted, a.fingerprints + b.fingerprints)
  }

  const NOTHING: Summary := Summary(0, 0, [])

  const FILE_HEADER := "diff --git "
  const HUNK_HEADER := "@@ "
  const OLD_PATH := "--- "
  const NEW_PATH := "+++ "

  function NormalizePath(raw: string): Option<string> {
    var path := TrimEnd(TrimStart(raw));
    if path == "/dev/null" then None
    else if "b/" <= path || "a/" <= path then Some(path[2..])
    else Some(path)
  }

  /** The effective form of an added line, if it is long enough and says something.
      Which characters are alphanumeric is a parameter. */
  function NormalizeLine(line: string, alphanumeric: char -> bool): Option<string> {
    var normalized := JoinWords(WordsFrom(line, []));
    if ByteLength(normalized) <= 3 then None
    else if exists i :: 0 <= i < |normalized| && (alphanumeric(normalized[i]) || normalized[i] == '_') then Some(normalized)
    else None
  }

  /** What the scanner remembers from line to line. */
  datatype Mode = Mode(path: Option<string>, inHunk: bool)

  const START: Mode := Mode(None, false)

  function NextMode(m: Mode, line: string): Mode {
    if FILE_HEADER <= line then START
    else if HUNK_HEADER <= line then m.(inHunk := true)
    else if !m.inHunk && NEW_PATH <= line then m.(path := NormalizePath(line[4..]))
    else m
  }

  /** What one line adds to the summary. */
  function LineSummary(m: Mode, line: string, alphanumeric: char -> bool): Summary {
    if FILE_HEADER <= line || HUNK_HEADER <= line then NOTHING
    else if !m.inHunk && (NEW_PATH <= line || OLD_PATH <= line) then NOTHING
    else if "+" <= line then
      var normalized := NormalizeLine(line[1..], alphanumeric);
      Summary(1, 0, if m.path.Some? && normalized.Some? then [Fingerprint(m.path.value, normalized.value)] else [])
    else if "-" <= line then Summary(0, 1, [])
    else NOTHING
  }

  function ModeAfter(m: Mode, lines: seq<string>): Mode
    decreases |lines|
  {
    if lines == [] then m else ModeAfter(NextMode(m, lines[0]), lines[1..])
  }

  function ScanFrom(m: Mode, lines: seq<string>, alphanumeric: char -> bool): Summary
    decreases |lines|
  {
    if lines == [] then NOTHING
    else Plus(LineSummary(m, lines[0], alphanumeric), ScanFrom(NextMode(m, lines[0]), lines[1..], alphanumeric))
  }

  function Scan(diff: string, alphanumeric: char -> bool): Summary {
    ScanFrom(START, Lines(diff), alphanumeric)
  }

  lemma {:induction false} ModeConcat(m: Mode, a: seq<string>, b: seq<string>)
    ensures ModeAfter(m, a + b) == ModeAfter(ModeAfter(m, a), b)
    decreases |a|
  {
    if a == [] {
      assert a + b == b;
    } else {
      assert (a + b)[0] == a[0] && (a + b)[1..] == a[1..] + b;
      ModeConcat(NextMode(m, a[0]), a[1..], b);
    }
  }

  lemma ScanCons(m: Mode, lines: seq<string>, alphanumeric: char -> bool)
    requires lines != []
    ensures ScanFrom(m, lines, alphanumeric) ==
            Plus(LineSummary(m, lines[0], alphanumeric), ScanFrom(NextMode(m, lines[0]), lines[1..], alphanumeric))
  {
  }

  lemma PlusNothing(s: Summary)
    ensures Plus(NOTHING, s) == s && Plus(s, NOTHING) == s
  {
  }

  lemma {:induction false} ScanConcat(m: Mode, a: seq<string>, b: seq<string>, alphanumeric: char -> bool)
    ensures ScanFrom(m, a + b, alphanumeric) ==
            Plus(ScanFrom(m, a, alphanumeric), ScanFrom(ModeAfter(m, a), b, alphanumeric))
    decreases |a|
  {
    if a == [] {
      assert a + b == b;
      PlusNothing(ScanFrom(m, b, alphanumeric));
    } else {
      assert (a + b)[0] == a[0] && (a + b)[1..] == a[1..] + b;
      var next := NextMode(m, a[0]);
      ScanCons(m, a + b, alphanumeric);
      ScanCons(m, a, alphanumeric);
      ScanConcat(next, a[1..], b, alphanumeric);
      PlusAssociates(LineSummary(m, a[0], alphanumeric), ScanFrom(next, a[1..], alphanumeric),
                     ScanFrom(ModeAfter(next, a[1..]), b, alphanumeric));
    }
  }

  /** The scanning loop. */
  method AcceptedLines(diff: string, alphanumeric: char -> bool) returns (summary: Summary)
    ensures summary == Scan(diff, alphanumeric)
  {
    var lines := Lines(diff);
    var currentPath: Option<string> := None;
    var inHunk := false;
    var added, deleted, fingerprints := 0, 0, [];
    for i := 0 to |lines|
      invariant Plus(Summary(added, deleted, fingerprints), ScanFrom(Mode(currentPath, inHunk), lines[i..], alphanumeric))
                == Scan(diff, alphanumeric)
    {
      var line := lines[i];
      assert lines[i..][0] == line && lines[i..][1..] == lines[i + 1..];
      ghost var before := Summary(added, deleted, fingerprints);
      ghost var m := Mode(currentPath, inHunk);
      if FILE_HEADER <= line {
        currentPath := None;
        inHunk := false;
      } else if HUNK_HEADER <= line {
        inHunk := true;
      } else if !inHunk && NEW_PATH <= line {
        currentPath := NormalizePath(line[4..]);
      } else if !inHunk && OLD_PATH <= line {
      } else if "+" <= line {
        added := added + 1;
        var normalized := NormalizeLine(line[1..], alphanumeric);
        if currentPath.Some? && normalized.Some? {
          fingerprints := fingerprints + [Fingerprint(currentPath.value, normalized.value)];
        }
      } else if "-" <= line {
        deleted := deleted + 1;
      }
      PlusAssociates(before, LineSummary(m, line, alphanumeric), ScanFrom(NextMode(m, line), lines[i + 1..], alphanumeric));
      assert Plus(before, LineSummary(m, line, alphanumeric)) == Summary(added, deleted, fingerprints);
      assert NextMode(m, line) == Mode(currentPath, inHunk);
    }
    assert lines[|lines|..] == [];
    summary := Summary(added, deleted, fingerprints);
  }

  lemma PlusAssociates(a: Summary, b: Summary, c: Summary)
    ensures Plus(Plus(a, b), c) == Plus(a, Plus(b, c))
  {
    assert (a.fingerprints + b.fingerprints) + c.fingerprints == a.fingerprints + (b.fingerprints + c.fingerprints);
  }

  /** The totals do not depend on which characters are alphanumeric. */
  function LineTotals(diff: string): (nat, nat) {
    var summary := Scan(diff, c => false);
    (summary.added, summary.deleted)
  }

  lemma {:induction false} TotalsIgnoreTheAlphabet(m: Mode, lines: seq<string>, a: char -> bool, b: char -> bool)
    ensures ScanFrom(m, lines, a).added == ScanFrom(m, lines, b).added
    ensures ScanFrom(m, lines, a).deleted == ScanFrom(m, lines, b).deleted
    decreases |lines|
  {
    if lines != [] {
      TotalsIgnoreTheAlphabet(NextMode(m, lines[0]), lines[1..], a, b);
    }
  }
}
