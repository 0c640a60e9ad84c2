/** Paths resolved by the app-server host's rules, and how joining relates to components. */
module AppServerPath {
  import opened Common
  import opened TextRuns

  predicate IsAsciiAlphabetic(c: char) {
    'a' <= c <= 'z' || 'A' <= c <= 'Z'
  }

  /** A drive followed by a separator, or two equal leading separators. */
  predicate IsWindowsAbsolute(path: string) {
    || (|path| >= 3 && IsAsciiAlphabetic(path[0]) && path[1] == ':' && (path[2] == '\\' || path[2] == '/'))
    || "\\\\" <= path || "//" <= path
  }

  predicate IsSeparator(c: char, windows: bool) {
    c == '/' || (windows && c == '\\')
  }

  /** The parts between separators; `part` is the one being read. */
  function SplitFrom(s: string, part: string, windows: bool): seq<string>
    decreases |s|
  {
    if s == [] then [part]
    else if IsSeparator(s[0], windows) then [part] + SplitFrom(s[1..], [], windows)
    else SplitFrom(s[1..], part + [s[0]], windows)
  }

  function NonEmpty(parts: seq<string>): seq<string> {
    if parts == [] then [] else (if parts[0] == [] then [] else [parts[0]]) + NonEmpty(parts[1..])
  }

  function Components(path: string): seq<string> {
    NonEmpty(SplitFrom(path, [], IsWindowsAbsolute(path)))
  }

  function TrimSeparators(s: string, windows: bool): string {
    if s != [] && IsSeparator(s[|s| - 1], windows) then TrimSeparators(s[..|s| - 1], windows) else s
  }

  function Join(path: string, segment: string): string {
    var windows := IsWindowsAbsolute(path);
    TrimSeparators(path, windows) + [if windows then '\\' else '/'] + segment
  }

  // ----- Parts -----

  function Parts(s: string, part: string, windows: bool): seq<string> {
    NonEmpty(SplitFrom(s, part, windows))
  }

  lemma {:induction false} NonEmptyConcat(a: seq<string>, b: seq<string>)
    ensures NonEmpty(a + b) == NonEmpty(a) + NonEmpty(b)
    decreases |a|
  {
    if a == [] {
      assert a + b == b;
    } else {
      assert (a + b)[0] == a[0] && (a + b)[1..] == a[1..] + b;
      NonEmptyConcat(a[1..], b);
    }
  }

  lemma {:induction false} SplitAtSeparator(a: string, c: char, b: string, part: string, windows: bool)
    requires IsSeparator(c, windows)
    ensures SplitFrom(a + [c] + b, part, windows) == SplitFrom(a, part, windows) + SplitFrom(b, [], windows)
    decreases |a|
  {
    var s := a + [c] + b;
    if a == [] {
      assert s[0] == c && s[1..] == b;
    } else {
      assert s[0] == a[0] && s[1..] == a[1..] + [c] + b;
      SplitAtSeparator(a[1..], c, b, if IsSeparator(a[0], windows) then [] else part + [a[0]], windows);
    }
  }

  lemma PartsAtSeparator(a: string, c: char, b: string, windows: bool)
    requires IsSeparator(c, windows)
    ensures Parts(a + [c] + b, [], windows) == Parts(a, [], windows) + Parts(b, [], windows)
  {
    SplitAtSeparator(a, c, b, [], windows);
    NonEmptyConcat(SplitFrom(a, [], windows), SplitFrom(b, [], windows));
  }

  predicate SeparatorFree(s: string, windows: bool) {
    forall i :: 0 <= i < |s| ==> !IsSeparator(s[i], windows)
  }

  lemma {:induction false} SplitSeparatorFree(s: string, part: string, windows: bool)
    requires SeparatorFree(s, windows)
    ensures SplitFrom(s, part, windows) == [part + s]
    decreases |s|
  {
    if s == [] {
      assert part + s == part;
    } else {
      SplitSeparatorFree(s[1..], part + [s[0]], windows);
      assert (part + [s[0]]) + s[1..] == part + s;
    }
  }

  lemma OnePart(s: string, windows: bool)
    requires SeparatorFree(s, windows)
    ensures Parts(s, [], windows) == if s == [] then [] else [s]
  {
    SplitSeparatorFree(s, [], windows);
    assert [] + s == s;
    assert SplitFrom(s, [], windows) == [s];
    assert [s][0] == s && [s][1..] == [];
    assert NonEmpty([s]) == (if s == [] then [] else [s]) + NonEmpty([]);
  }

  /** Trailing separators carry no component. */
  lemma {:induction false} TrimKeepsParts(s: string, windows: bool)
    ensures Parts(TrimSeparators(s, windows), [], windows) == Parts(s, [], windows)
    ensures TrimSeparators(s, windows) <= s
    ensures TrimSeparators(s, windows) != [] ==>
              !IsSeparator(TrimSeparators(s, windows)[|TrimSeparators(s, windows)| - 1], windows)
    ensures forall i :: |TrimSeparators(s, windows)| <= i < |s| ==> IsSeparator(s[i], windows)
    decreases |s|
  {
    if s != [] && IsSeparator(s[|s| - 1], windows) {
      var front, c := s[..|s| - 1], s[|s| - 1];
      TrimKeepsParts(front, windows);
      assert s == front + [c] + [];
      PartsAtSeparator(front, c, [], windows);
      OnePart([], windows);
    }
  }

  lemma {:induction false} PartsAreClean(s: string, part: string, windows: bool)
    requires SeparatorFree(part, windows)
    ensures forall i :: 0 <= i < |SplitFrom(s, part, windows)| ==> SeparatorFree(SplitFrom(s, part, windows)[i], windows)
    decreases |s|
  {
    if s != [] {
      PartsAreClean(s[1..], if IsSeparator(s[0], windows) then [] else part + [s[0]], windows);
    }
  }

  lemma {:induction false} NonEmptyIsClean(parts: seq<string>, windows: bool)
    requires forall i :: 0 <= i < |parts| ==> SeparatorFree(parts[i], windows)
    ensures forall i :: 0 <= i < |NonEmpty(parts)| ==> NonEmpty(parts)[i] != [] && SeparatorFree(NonEmpty(parts)[i], windows)
    decreases |parts|
  {
    if parts != [] {
      NonEmptyIsClean(parts[1..], windows);
    }
  }

  /** No component is empty or contains a separator. */
  lemma ComponentsAreClean(path: string)
    ensures forall i :: 0 <= i < |Components(path)| ==>
              Components(path)[i] != [] && SeparatorFree(Components(path)[i], IsWindowsAbsolute(path))
  {
    var windows := IsWindowsAbsolute(path);
    PartsAreClean(path, [], windows);
    NonEmptyIsClean(SplitFrom(path, [], windows), windows);
  }

  // ----- Joining -----

  /** A Windows root that is nothing but separators. */
  predicate IsBareRoot(path: string) {
    IsWindowsAbsolute(path) && forall i :: 0 <= i < |path| ==> IsSeparator(path[i], true)
  }

  predicate IsBareDrive(path: string) {
    |path| == 2 && IsAsciiAlphabetic(path[0]) && path[1] == ':'
  }

  /** Joining to this path gives a Windows path: it is one, or it is a drive without its separator. */
  predicate JoinsAsWindows(path: string) {
    IsWindowsAbsolute(path) || IsBareDrive(TrimSeparators(path, false))
  }

  predicate IsSegment(path: string, segment: string) {
    segment != [] && SeparatorFree(segment, JoinsAsWindows(path))
  }

  lemma WindowsJoin(path: string, segment: string)
    requires IsWindowsAbsolute(path) && !IsBareRoot(path)
    ensures IsWindowsAbsolute(Join(path, segment))
  {
    var t := TrimSeparators(path, true);
    TrimKeepsParts(path, true);
    assert t != [];
    if "\\\\" <= path || "//" <= path {
      assert |t| >= 3;
      assert Join(path, segment)[..2] == path[..2];
    } else {
      assert |t| >= 2;
    }
  }

  lemma OtherJoin(path: string, segment: string)
    requires !IsWindowsAbsolute(path) && segment != [] && segment[0] != '/'
    ensures IsWindowsAbsolute(Join(path, segment)) <==> IsBareDrive(TrimSeparators(path, false))
  {
    var t := TrimSeparators(path, false);
    var j := Join(path, segment);
    TrimKeepsParts(path, false);
    if |t| >= 3 {
      assert j[..3] == path[..3];
      assert j[..2] == path[..2];
    } else if |t| == 2 {
      assert j[..2] == path[..2];
      assert j[2] == '/';
    } else if |t| == 1 {
      assert j[0] == t[0] && j[1] == '/' && t[0] != '/';
    } else {
      assert j[0] == '/' && j[1] == segment[0];
    }
  }

  lemma JoinedConvention(path: string, segment: string)
    requires IsSegment(path, segment) && !IsBareRoot(path)
    ensures IsWindowsAbsolute(Join(path, segment)) == JoinsAsWindows(path)
  {
    if IsWindowsAbsolute(path) {
      WindowsJoin(path, segment);
    } else {
      assert !IsSeparator(segment[0], JoinsAsWindows(path));
      OtherJoin(path, segment);
    }
  }

  lemma DriveIsOnePart(drive: string, windows: bool)
    requires IsBareDrive(drive)
    ensures Parts(drive, [], windows) == [drive]
  {
    OnePart(drive, windows);
  }

  lemma JoinAddsTheSegment(path: string, segment: string)
    requires IsSegment(path, segment) && !IsBareRoot(path)
    ensures Components(Join(path, segment)) == Components(path) + [segment]
  {
    var was, now := IsWindowsAbsolute(path), JoinsAsWindows(path);
    var t := TrimSeparators(path, was);
    JoinedConvention(path, segment);
    PartsAtSeparator(t, if was then '\\' else '/', segment, now);
    OnePart(segment, now);
    TrimKeepsParts(path, was);
    if was != now {
      DriveIsOnePart(t, was);
      DriveIsOnePart(t, now);
    }
  }

  lemma {:induction false} FirstPartStarts(s: string, part: string)
    requires part != []
    ensures Parts(s, part, false) != [] && Parts(s, part, false)[0] != [] && Parts(s, part, false)[0][0] == part[0]
    decreases |s|
  {
    if s != [] && !IsSeparator(s[0], false) {
      FirstPartStarts(s[1..], part + [s[0]]);
    }
  }

  lemma TrimAllSeparators(s: string)
    requires forall i :: 0 <= i < |s| ==> IsSeparator(s[i], true)
    ensures TrimSeparators(s, true) == [] && Parts(s, [], true) == []
  {
    TrimKeepsParts(s, true);
    var t := TrimSeparators(s, true);
    assert t == [];
    OnePart([], true);
  }

  lemma BareRootLosesTheSegment(path: string, segment: string)
    requires IsBareRoot(path)
    ensures Components(Join(path, segment)) != Components(path) + [segment]
  {
    TrimAllSeparators(path);
    var j := Join(path, segment);
    assert j == "\\" + segment;
    assert Components(path) + [segment] == [segment];
    ComponentsAreClean(j);
    if segment == [] || segment[0] != '\\' {
      NotAPrefix("\\\\", 1, j);
      NotAPrefix("//", 0, j);
      assert !IsWindowsAbsolute(j);
      assert j[0] == '\\' && j[1..] == segment;
      assert [] + [j[0]] == [j[0]];
      FirstPartStarts(segment, [j[0]]);
      assert Components(j) == Parts(segment, [j[0]], false);
    } else {
      assert j[1] == '\\';
      assert "\\\\" <= j;
      assert !SeparatorFree(segment, true);
      assert segment !in Components(j);
      assert segment in [segment];
    }
  }

  /** The components of a join are those of the path followed by the segment exactly when the
      segment is not empty, has no separator of the joined path's convention in it, and the path
      is not a Windows root made only of separators. */
  lemma JoinAgreesWithComponents(path: string, segment: string)
    ensures Components(Join(path, segment)) == Components(path) + [segment] <==>
            IsSegment(path, segment) && !IsBareRoot(path)
  {
    if IsBareRoot(path) {
      BareRootLosesTheSegment(path, segment);
    } else if IsSegment(path, segment) {
      JoinAddsTheSegment(path, segment);
    } else {
      var j := Join(path, segment);
      ComponentsAreClean(j);
      if Components(j) == Components(path) + [segment] {
        assert Components(j)[|Components(path)|] == segment;
        assert segment != [] && SeparatorFree(segment, IsWindowsAbsolute(j));
        assert !IsSeparator(segment[0], IsWindowsAbsolute(j));
        if IsWindowsAbsolute(path) {
          WindowsJoin(path, segment);
        } else {
          OtherJoin(path, segment);
        }
        assert false;
      }
    }
  }

  // ----- What components and joins are -----

  /** A letter, a colon and a slash or backslash, or two equal slashes or backslashes. */
  predicate StartsLikeWindows(path: string) {
    || (|path| >= 3 && path[1] == ':' && path[2] in "/\\" && ('a' <= path[0] <= 'z' || 'A' <= path[0] <= 'Z'))
    || (|path| >= 2 && path[0] == path[1] && path[0] in "/\\")
  }

  lemma WindowsIsAsItStarts(path: string)
    ensures IsWindowsAbsolute(path) <==> StartsLikeWindows(path)
  {
    if |path| >= 2 {
      assert "\\\\" <= path <==> path[0] == '\\' && path[1] == '\\';
      assert "//" <= path <==> path[0] == '/' && path[1] == '/';
    }
  }

  /** A slash separates, and on a Windows path a backslash too. */
  function Separates(windows: bool): char -> bool {
    c => c == '/' || (windows && c == '\\')
  }

  lemma {:induction false} PartsAreRuns(s: string, part: string, windows: bool)
    ensures Parts(s, part, windows) == RunsFrom(s, part, Separates(windows))
    decreases |s|
  {
    if s == [] {
      assert NonEmpty([part]) == (if part == [] then [] else [part]) + NonEmpty([]);
    } else if IsSeparator(s[0], windows) {
      PartsAreRuns(s[1..], [], windows);
      NonEmptyConcat([part], SplitFrom(s[1..], [], windows));
      assert NonEmpty([part]) == (if part == [] then [] else [part]) + NonEmpty([]);
    } else {
      PartsAreRuns(s[1..], part + [s[0]], windows);
    }
  }

  /** The components are the path's maximal separator-free runs: none is empty or holds a separator,
      and together they have the path's other characters, broken where it is. */
  lemma ComponentsAreTheRuns(path: string)
    ensures AreWords(Components(path), Separates(StartsLikeWindows(path)))
    ensures MarksOfWords(Components(path)) == Marked(path, Separates(StartsLikeWindows(path)))
  {
    WindowsIsAsItStarts(path);
    PartsAreRuns(path, [], IsWindowsAbsolute(path));
    RunsKeepMarks(path, Separates(StartsLikeWindows(path)));
  }

  lemma TrimmedText(path: string, windows: bool) returns (front: string, rest: string)
    ensures path == front + rest && front == TrimSeparators(path, windows)
    ensures front != [] ==> !IsSeparator(front[|front| - 1], windows)
    ensures forall i :: 0 <= i < |rest| ==> IsSeparator(rest[i], windows)
  {
    TrimKeepsParts(path, windows);
    front := TrimSeparators(path, windows);
    rest := path[|front|..];
  }

  /** A join spells the path without the separators at its end, one separator of the path's own
      convention, and the segment. */
  lemma JoinSpells(path: string, segment: string) returns (front: string, rest: string)
    ensures path == front + rest && (front != [] ==> !Separates(StartsLikeWindows(path))(front[|front| - 1]))
    ensures forall i :: 0 <= i < |rest| ==> Separates(StartsLikeWindows(path))(rest[i])
    ensures Join(path, segment) == front + [if StartsLikeWindows(path) then '\\' else '/'] + segment
  {
    WindowsIsAsItStarts(path);
    front, rest := TrimmedText(path, IsWindowsAbsolute(path));
  }
}
