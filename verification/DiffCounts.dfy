/**
 What the scanner counts in a text that need not be a well-formed diff, told by the lines alone.
 */
module DiffCounts {
  import opened Common
  import opened DiffScanner

  predicate OpensHunk(line: string) {
    "@@ " <= line
  }

  predicate OpensFile(line: string) {
    "diff --git " <= line
  }

  /** A hunk was opened among the lines, and no file after it. */
  predicate EndInHunk(lines: seq<string>) {
    exists i :: 0 <= i < |lines| && OpensHunk(lines[i]) && NoFileAfter(lines, i)
  }

  predicate NoFileAfter(lines: seq<string>, i: nat) {
    forall j :: i < j < |lines| ==> !OpensFile(lines[j])
  }

  /** A plus line counts, but outside a hunk the line of the new path does not; likewise a minus line. */
  predicate IsAdded(lines: seq<string>, i: nat)
    requires i < |lines|
  {
    "+" <= lines[i] && ("+++ " <= lines[i] ==> EndInHunk(lines[..i]))
  }

  predicate IsDeleted(lines: seq<string>, i: nat)
    requires i < |lines|
  {
    "-" <= lines[i] && ("--- " <= lines[i] ==> EndInHunk(lines[..i]))
  }

  function CountAdded(lines: seq<string>, n: nat): nat
    requires n <= |lines|
  {
    if n == 0 then 0 else CountAdded(lines, n - 1) + if IsAdded(lines, n - 1) then 1 else 0
  }

  function CountDeleted(lines: seq<string>, n: nat): nat
    requires n <= |lines|
  {
    if n == 0 then 0 else CountDeleted(lines, n - 1) + if IsDeleted(lines, n - 1) then 1 else 0
  }

  lemma OpensOneThing(line: string)
    requires OpensHunk(line)
    ensures !OpensFile(line)
  {
    assert line[0] == "@@ "[0];
    NotAPrefix("diff --git ", 0, line);
  }

  lemma StillInHunk(lines: seq<string>, line: string)
    requires !OpensFile(line) && (OpensHunk(line) || EndInHunk(lines))
    ensures EndInHunk(lines + [line])
  {
    var all := lines + [line];
    if OpensHunk(line) {
      assert all[|lines|] == line && NoFileAfter(all, |lines|);
    } else {
      var i :| 0 <= i < |lines| && OpensHunk(lines[i]) && NoFileAfter(lines, i);
      assert all[i] == lines[i] && NoFileAfter(all, i);
    }
  }

  lemma WasInHunk(lines: seq<string>, line: string)
    requires EndInHunk(lines + [line])
    ensures !OpensFile(line) && (OpensHunk(line) || EndInHunk(lines))
  {
    var all := lines + [line];
    var i :| 0 <= i < |all| && OpensHunk(all[i]) && NoFileAfter(all, i);
    assert all[|lines|] == line;
    if i < |lines| {
      assert all[i] == lines[i] && !OpensFile(all[|lines|]);
      forall j | i < j < |lines| ensures !OpensFile(lines[j]) {
        assert all[j] == lines[j];
      }
      assert NoFileAfter(lines, i);
    } else {
      OpensOneThing(line);
    }
  }

  lemma EndInHunkAppend(lines: seq<string>, line: string)
    ensures EndInHunk(lines + [line]) <==> !OpensFile(line) && (OpensHunk(line) || EndInHunk(lines))
  {
    if EndInHunk(lines + [line]) {
      WasInHunk(lines, line);
    }
    if !OpensFile(line) && (OpensHunk(line) || EndInHunk(lines)) {
      StillInHunk(lines, line);
    }
  }

  /** The reader is inside a hunk exactly when one was opened since the last file line. */
  lemma {:induction false} InHunkExactlyWhen(lines: seq<string>)
    ensures ModeAfter(START, lines).inHunk <==> EndInHunk(lines)
    decreases |lines|
  {
    if lines != [] {
      var n := |lines| - 1;
      var before, line := lines[..n], lines[n];
      assert lines == before + [line];
      InHunkExactlyWhen(before);
      ModeConcat(START, before, [line]);
      OneMode(ModeAfter(START, before), line);
      EndInHunkAppend(before, line);
    }
  }

  lemma OneMode(m: Mode, line: string)
    ensures ModeAfter(m, [line]) == NextMode(m, line)
    ensures NextMode(m, line).inHunk <==> !OpensFile(line) && (OpensHunk(line) || m.inHunk)
  {
    assert [line][1..] == [];
  }

  lemma SignOpensNothing(line: string)
    requires line != [] && (line[0] == '+' || line[0] == '-')
    ensures !OpensFile(line) && !OpensHunk(line)
  {
    NotAPrefix("diff --git ", 0, line);
    NotAPrefix("@@ ", 0, line);
  }

  lemma PlusLine(line: string)
    requires "+" <= line
    ensures !OpensFile(line) && !OpensHunk(line) && !("-" <= line) && !("--- " <= line)
  {
    assert line[0] == "+"[0];
    SignOpensNothing(line);
    NotAPrefix("-", 0, line);
    NotAPrefix("--- ", 0, line);
  }

  lemma MinusLine(line: string)
    requires "-" <= line
    ensures !OpensFile(line) && !OpensHunk(line) && !("+" <= line) && !("+++ " <= line)
  {
    assert line[0] == "-"[0];
    SignOpensNothing(line);
    NotAPrefix("+", 0, line);
    NotAPrefix("+++ ", 0, line);
  }

  lemma LineCounts(m: Mode, line: string, alphanumeric: char -> bool)
    ensures var s := LineSummary(m, line, alphanumeric);
            && s.added == (if "+" <= line && ("+++ " <= line ==> m.inHunk) then 1 else 0)
            && s.deleted == (if "-" <= line && ("--- " <= line ==> m.inHunk) then 1 else 0)
  {
    if "+" <= line {
      PlusLine(line);
    }
    if "-" <= line {
      MinusLine(line);
    }
  }

  predicate Counts(s: Summary, added: int, deleted: int) {
    s.added == added && s.deleted == deleted
  }

  lemma SumCounts(a: Summary, b: Summary)
    ensures Counts(Plus(a, b), a.added + b.added, a.deleted + b.deleted)
  {
  }

  lemma ModeAt(lines: seq<string>, k: nat)
    requires k < |lines|
    ensures ModeAfter(START, lines[..k + 1]) == NextMode(ModeAfter(START, lines[..k]), lines[k])
  {
    assert lines[..k + 1] == lines[..k] + [lines[k]];
    ModeConcat(START, lines[..k], [lines[k]]);
    OneMode(ModeAfter(START, lines[..k]), lines[k]);
  }

  lemma LineIsCounted(lines: seq<string>, k: nat, alphanumeric: char -> bool)
    requires k < |lines|
    ensures Counts(LineSummary(ModeAfter(START, lines[..k]), lines[k], alphanumeric),
                   if IsAdded(lines, k) then 1 else 0, if IsDeleted(lines, k) then 1 else 0)
  {
    InHunkExactlyWhen(lines[..k]);
    LineCounts(ModeAfter(START, lines[..k]), lines[k], alphanumeric);
  }

  lemma {:induction false} LinesAreCounted(lines: seq<string>, k: nat, alphanumeric: char -> bool)
    requires k <= |lines|
    ensures Counts(ScanFrom(ModeAfter(START, lines[..k]), lines[k..], alphanumeric),
                   CountAdded(lines, |lines|) - CountAdded(lines, k), CountDeleted(lines, |lines|) - CountDeleted(lines, k))
    decreases |lines| - k
  {
    if k < |lines| {
      var m, rest := ModeAfter(START, lines[..k]), lines[k..];
      assert rest[0] == lines[k] && rest[1..] == lines[k + 1..];
      LinesAreCounted(lines, k + 1, alphanumeric);
      ModeAt(lines, k);
      LineIsCounted(lines, k, alphanumeric);
      ScanCons(m, rest, alphanumeric);
      SumCounts(LineSummary(m, lines[k], alphanumeric), ScanFrom(NextMode(m, lines[k]), lines[k + 1..], alphanumeric));
    }
  }

  /** Of any text, the counts are the plus and the minus lines that are not path lines outside a hunk. */
  lemma ScanCountsTheLines(text: string, alphanumeric: char -> bool)
    ensures var s, lines := Scan(text, alphanumeric), Lines(text);
            s.added == CountAdded(lines, |lines|) && s.deleted == CountDeleted(lines, |lines|)
  {
    var lines := Lines(text);
    LinesAreCounted(lines, 0, alphanumeric);
    assert lines[..0] == [] && lines[0..] == lines;
  }
}
