/**
 The checker and rewriter of rusty_v8 checksums in MODULE.bazel.  The text is a list of lines.
 An `http_file(` line opens a block and the next line that starts with `)` closes it; fields are
 one-line strings.
 */
module ModuleBazel {
  import opened Common

  // ----- Lines -----

  /** The characters a Python pattern's \s matches. */
  predicate IsBlank(c: char) {
    || '\t' <= c <= '\r' || '\U{1C}' <= c <= ' ' || c == '\U{85}' || c == '\U{A0}' || c == '\U{1680}'
    || '\U{2000}' <= c <= '\U{200A}' || c == '\U{2028}' || c == '\U{2029}' || c == '\U{202F}'
    || c == '\U{205F}' || c == '\U{3000}'
  }

  predicate AllBlank(s: string) {
    forall i :: 0 <= i < |s| ==> IsBlank(s[i])
  }

  function SkipBlanks(s: string): (rest: string)
    ensures |rest| <= |s|
  {
    if s != [] && IsBlank(s[0]) then SkipBlanks(s[1..]) else s
  }

  function Indent(line: string): string {
    line[..|line| - |SkipBlanks(line)|]
  }

  /** Where the next quote is. */
  function QuoteAt(s: string): (n: nat)
    ensures n <= |s|
  {
    if s == [] || s[0] == '"' then 0 else 1 + QuoteAt(s[1..])
  }

  /** A one-line string field; strict when nothing follows its comma. */
  datatype Field = Field(value: string, strict: bool)

  /** What follows the name of a field: an equals sign, a non-empty quoted value, a comma. */
  function FieldTail(s: string): Option<Field> {
    var r1 := SkipBlanks(s);
    if r1 == [] || r1[0] != '=' then None
    else
      var r2 := SkipBlanks(r1[1..]);
      if r2 == [] || r2[0] != '"' then None
      else
        var r3 := r2[1..];
        var n := QuoteAt(r3);
        if n == 0 || n + 1 >= |r3| || r3[n + 1] != ',' || !AllBlank(r3[n + 2..]) then None
        else Some(Field(r3[..n], r3[n + 2..] == []))
  }

  function FieldOf(line: string, field: string): Option<Field> {
    var rest := SkipBlanks(line);
    if field <= rest then FieldTail(rest[|field|..]) else None
  }

  predicate IsHex(s: string) {
    s != [] && forall i :: 0 <= i < |s| ==> '0' <= s[i] <= '9' || 'a' <= s[i] <= 'f'
  }

  predicate IsClose(line: string) {
    ")" <= line
  }

  const OPEN := "http_file("

  // ----- Rows: lines inside a block -----

  datatype Row = Row(text: string, blank: bool, closes: bool, indent: string,
                     name: Option<string>, path: Option<Field>, sha: Option<string>)

  function ValueOf(f: Option<Field>): Option<string> {
    if f.Some? then Some(f.value.value) else None
  }

  function Classify(line: string): Row {
    Row(line, AllBlank(line), IsClose(line), Indent(line),
        ValueOf(FieldOf(line, "name")), FieldOf(line, "downloaded_file_path"), ValueOf(FieldOf(line, "sha256")))
  }

  function ShaLine(indent: string, checksum: string): string {
    indent + "sha256 = \"" + checksum + "\","
  }

  function ShaRow(indent: string, checksum: string): Row {
    Row(ShaLine(indent, checksum), false, false, indent, None, None, Some(checksum))
  }

  function Rows(lines: seq<string>): (rows: seq<Row>)
    ensures |rows| == |lines|
  {
    seq(|lines|, i requires 0 <= i < |lines| => Classify(lines[i]))
  }

  function Texts(rows: seq<Row>): (lines: seq<string>)
    ensures |lines| == |rows|
  {
    seq(|rows|, i requires 0 <= i < |rows| => rows[i].text)
  }

  /** The first name, path and checksum found in a block. */
  function FindName(rows: seq<Row>): Option<string> {
    if rows == [] then None else if rows[0].name.Some? then rows[0].name else FindName(rows[1..])
  }

  function FindPath(rows: seq<Row>): Option<string> {
    if rows == [] then None else if rows[0].path.Some? then Some(rows[0].path.value.value) else FindPath(rows[1..])
  }

  function FindSha(rows: seq<Row>): Option<string> {
    if rows == [] then None else if rows[0].sha.Some? then rows[0].sha else FindSha(rows[1..])
  }

  // ----- Rewriting a block -----

  predicate HasHexSha(row: Row) {
    row.sha.Some? && IsHex(row.sha.value)
  }

  predicate HasStrictPath(row: Row) {
    row.path.Some? && row.path.value.strict
  }

  function HexShaAt(rows: seq<Row>): (n: nat)
    ensures n <= |rows| && (n < |rows| ==> HasHexSha(rows[n]))
    ensures forall i :: 0 <= i < n ==> !HasHexSha(rows[i])
  {
    if rows == [] || HasHexSha(rows[0]) then 0 else 1 + HexShaAt(rows[1..])
  }

  function StrictPathAt(rows: seq<Row>): (n: nat)
    ensures n <= |rows| && (n < |rows| ==> HasStrictPath(rows[n]))
    ensures forall i :: 0 <= i < n ==> !HasStrictPath(rows[i])
  {
    if rows == [] || HasStrictPath(rows[0]) then 0 else 1 + StrictPathAt(rows[1..])
  }

  /** The blank rows at the end. */
  function BlanksAtEnd(rows: seq<Row>): (blanks: seq<Row>)
    ensures |blanks| <= |rows| && blanks == rows[|rows| - |blanks|..]
    ensures forall i :: 0 <= i < |blanks| ==> blanks[i].blank
  {
    if rows == [] || !rows[|rows| - 1].blank then []
    else BlanksAtEnd(rows[..|rows| - 1]) + [rows[|rows| - 1]]
  }

  function DropBlanks(rows: seq<Row>): seq<Row> {
    if rows != [] && rows[0].blank then DropBlanks(rows[1..]) else rows
  }

  /** The sha256 line at h rewritten, without the blank lines its pattern reaches over. */
  function WithChecksumAt(rows: seq<Row>, h: nat, checksum: string): seq<Row>
    requires h < |rows|
  {
    rows[..h] + ([ShaRow(rows[h].indent, checksum)] + DropBlanks(rows[h + 1..]))
  }

  /** A sha256 line put after the path line at d, indented by all its pattern saw before that line. */
  function WithChecksumAfter(rows: seq<Row>, d: nat, checksum: string): seq<Row>
    requires d < |rows|
  {
    rows[..d + 1] + (BlanksAtEnd(rows[..d]) + ([ShaRow(rows[d].indent, checksum)] + rows[d + 1..]))
  }

  /** Rewrites the first hexadecimal sha256 line, or else puts one after the downloaded_file_path line. */
  function Rewrite(rows: seq<Row>, checksum: string): Option<seq<Row>> {
    var h := HexShaAt(rows);
    var d := StrictPathAt(rows);
    if h < |rows| then Some(WithChecksumAt(rows, h, checksum))
    else if d < |rows| then Some(WithChecksumAfter(rows, d, checksum))
    else None
  }

  // ----- Blocks of a text -----

  datatype Segment = Plain(line: string) | Block(body: seq<string>, close: string)

  function CloseAt(lines: seq<string>): (n: nat)
    ensures n <= |lines| && (n < |lines| ==> IsClose(lines[n]))
    ensures forall i :: 0 <= i < n ==> !IsClose(lines[i])
  {
    if lines == [] || IsClose(lines[0]) then 0 else 1 + CloseAt(lines[1..])
  }

  function Segments(lines: seq<string>): seq<Segment>
    decreases |lines|
  {
    if lines == [] then []
    else
      var rest := lines[1..];
      var n := CloseAt(rest);
      if lines[0] == OPEN && n < |rest| then [Block(rest[..n], rest[n])] + Segments(rest[n + 1..])
      else [Plain(lines[0])] + Segments(rest)
  }

  function LinesOf(segment: Segment): seq<string> {
    match segment
    case Plain(line) => [line]
    case Block(body, close) => [OPEN] + body + [close]
  }

  function Flatten(segments: seq<Segment>): seq<string> {
    if segments == [] then [] else LinesOf(segments[0]) + Flatten(segments[1..])
  }

  // ----- Entries -----

  type Manifest = map<string, string>

  datatype Entry = Entry(name: string, file: string, sha: Option<string>)

  function NamePrefix(version: string): string {
    "rusty_v8_" + Underscored(version) + "_"
  }

  /** The version with every dot made an underscore. */
  function Underscored(version: string): (u: string)
    ensures |u| == |version|
    ensures forall i :: 0 <= i < |version| ==> u[i] == if version[i] == '.' then '_' else version[i]
  {
    if version == [] then [] else [if version[0] == '.' then '_' else version[0]] + Underscored(version[1..])
  }

  predicate IsEntry(segment: Segment, prefix: string) {
    segment.Block? && FindName(Rows(segment.body)).Some? && prefix <= FindName(Rows(segment.body)).value
  }

  /** The blocks of this version, in order; `None` when one names no downloaded file. */
  function Entries(segments: seq<Segment>, prefix: string): Option<seq<Entry>> {
    if segments == [] then Some([])
    else if !IsEntry(segments[0], prefix) then Entries(segments[1..], prefix)
    else
      var rows := Rows(segments[0].body);
      var more := Entries(segments[1..], prefix);
      if FindPath(rows).None? || more.None? then None
      else Some([Entry(FindName(rows).value, FindPath(rows).value, FindSha(rows))] + more.value)
  }

  // ----- Checking -----

  datatype Error =
    | NoEntries
    | DuplicateEntries(file: string)
    | NoChecksum(file: string)
    | NoHttpFile(file: string)
    | MissingSha(name: string)
    | WrongSha(name: string, found: string, expected: string)

  function Files(entries: seq<Entry>): set<string> {
    set i | 0 <= i < |entries| :: entries[i].file
  }

  predicate Repeated(entries: seq<Entry>, file: string) {
    exists i, j :: 0 <= i < j < |entries| && entries[i].file == file && entries[j].file == file
  }

  /** Compares the entries with the manifest's files. */
  method ModuleEntrySetErrors(entries: seq<Entry>, checksums: Manifest) returns (errors: set<Error>)
    ensures entries == [] ==> errors == {NoEntries}
    ensures entries != [] ==> forall e :: e in errors <==>
              match e
              case DuplicateEntries(f) => Repeated(entries, f)
              case NoChecksum(f) => f in Files(entries) && f !in checksums
              case NoHttpFile(f) => f in checksums && f !in Files(entries)
              case _ => false
    ensures errors == {} <==> SetAgrees(entries, checksums)
  {
    if entries == [] {
      return {NoEntries};
    }
    var moduleFiles: set<string> := {};
    var duplicateFiles: set<string> := {};
    for i := 0 to |entries|
      invariant moduleFiles == Files(entries[..i])
      invariant forall f :: f in duplicateFiles <==> Repeated(entries[..i], f)
    {
      var file := entries[i].file;
      FilesAppend(entries, i);
      RepeatedAppend(entries, i);
      if file in moduleFiles {
        duplicateFiles := duplicateFiles + {file};
      }
      moduleFiles := moduleFiles + {file};
    }
    assert entries[..|entries|] == entries;
    errors := (set f | f in duplicateFiles :: DuplicateEntries(f))
            + (set f | f in moduleFiles - checksums.Keys :: NoChecksum(f))
            + (set f | f in checksums.Keys - moduleFiles :: NoHttpFile(f));
    NoErrorsIffAgree(entries, checksums, errors);
  }

  /** Entries that match the manifest: some, no file twice, exactly the manifest's files. */
  predicate SetAgrees(entries: seq<Entry>, checksums: Manifest) {
    && entries != []
    && (forall i, j :: 0 <= i < j < |entries| ==> entries[i].file != entries[j].file)
    && Files(entries) == checksums.Keys
  }

  lemma FilesAppend(entries: seq<Entry>, i: nat)
    requires i < |entries|
    ensures Files(entries[..i + 1]) == Files(entries[..i]) + {entries[i].file}
  {
    var a, b := entries[..i], entries[..i + 1];
    assert b[i] == entries[i];
    forall f | f in Files(b) ensures f in Files(a) + {entries[i].file} {
      var k :| 0 <= k < |b| && b[k].file == f;
      assert k < i ==> a[k].file == f;
    }
    forall f | f in Files(a) ensures f in Files(b) {
      var k :| 0 <= k < |a| && a[k].file == f;
      assert b[k].file == f;
    }
  }

  lemma RepeatedAppend(entries: seq<Entry>, i: nat)
    requires i < |entries|
    ensures forall f :: Repeated(entries[..i + 1], f) <==>
              Repeated(entries[..i], f) || (f == entries[i].file && f in Files(entries[..i]))
  {
    var a, b := entries[..i], entries[..i + 1];
    forall f
      ensures Repeated(b, f) <==> Repeated(a, f) || (f == entries[i].file && f in Files(a))
    {
      if Repeated(b, f) {
        var k, l :| 0 <= k < l < |b| && b[k].file == f && b[l].file == f;
        assert a[k].file == f;
        assert l < i ==> a[l].file == f;
      }
      if Repeated(a, f) {
        var k, l :| 0 <= k < l < |a| && a[k].file == f && a[l].file == f;
        assert b[k].file == f && b[l].file == f;
      }
      if f == entries[i].file && f in Files(a) {
        var k :| 0 <= k < |a| && a[k].file == f;
        assert b[k].file == f && b[i].file == f;
      }
    }
  }

  lemma NoErrorsIffAgree(entries: seq<Entry>, checksums: Manifest, errors: set<Error>)
    requires entries != []
    requires forall f :: DuplicateEntries(f) in errors <==> Repeated(entries, f)
    requires forall f :: NoChecksum(f) in errors <==> f in Files(entries) && f !in checksums
    requires forall f :: NoHttpFile(f) in errors <==> f in checksums && f !in Files(entries)
    requires forall e :: e in errors ==> e.DuplicateEntries? || e.NoChecksum? || e.NoHttpFile?
    ensures errors == {} <==> SetAgrees(entries, checksums)
  {
    if SetAgrees(entries, checksums) {
      forall e ensures e !in errors {
        if e.DuplicateEntries? {
          assert !Repeated(entries, e.file);
        }
      }
    }
    if errors == {} {
      forall i, j | 0 <= i < j < |entries| ensures entries[i].file != entries[j].file {
        assert !Repeated(entries, entries[i].file) by { assert DuplicateEntries(entries[i].file) !in errors; }
      }
      forall f ensures f in Files(entries) <==> f in checksums {
        assert NoChecksum(f) !in errors && NoHttpFile(f) !in errors;
      }
    }
  }

  /** The entry's checksum is the manifest's, or the manifest does not know the file. */
  predicate ShaAgrees(e: Entry, checksums: Manifest) {
    e.file in checksums ==> e.sha == Some(checksums[e.file])
  }

  predicate ShasAgree(entries: seq<Entry>, checksums: Manifest) {
    forall i :: 0 <= i < |entries| ==> ShaAgrees(entries[i], checksums)
  }

  /** What is wrong with an entry's checksum, if anything. */
  predicate IsShaError(error: Error, e: Entry, checksums: Manifest) {
    && e.file in checksums
    && match error
       case MissingSha(name) => name == e.name && e.sha.None?
       case WrongSha(name, found, expected) =>
         name == e.name && e.sha == Some(found) && expected == checksums[e.file] && found != expected
       case _ => false
  }

  predicate IsShaErrorOf(error: Error, entries: seq<Entry>, checksums: Manifest) {
    exists i :: 0 <= i < |entries| && IsShaError(error, entries[i], checksums)
  }

  lemma ShaErrorAppend(error: Error, entries: seq<Entry>, e: Entry, checksums: Manifest)
    ensures IsShaErrorOf(error, entries + [e], checksums) <==>
            IsShaErrorOf(error, entries, checksums) || IsShaError(error, e, checksums)
  {
    var all := entries + [e];
    if IsShaErrorOf(error, entries, checksums) {
      var i :| 0 <= i < |entries| && IsShaError(error, entries[i], checksums);
      assert all[i] == entries[i];
    }
    assert all[|entries|] == e;
  }

  lemma ShasAgreeAppend(entries: seq<Entry>, e: Entry, checksums: Manifest)
    ensures ShasAgree(entries + [e], checksums) <==> ShasAgree(entries, checksums) && ShaAgrees(e, checksums)
  {
    assert (entries + [e])[|entries|] == e;
    assert forall k :: 0 <= k < |entries| ==> (entries + [e])[k] == entries[k];
  }

  /** The error of one entry. */
  method EntryChecksumErrors(e: Entry, checksums: Manifest) returns (errors: seq<Error>)
    ensures forall error :: error in errors <==> IsShaError(error, e, checksums)
    ensures errors == [] <==> ShaAgrees(e, checksums)
  {
    errors := [];
    if e.file in checksums {
      if e.sha.None? {
        errors := [MissingSha(e.name)];
      } else if e.sha.value != checksums[e.file] {
        errors := [WrongSha(e.name, e.sha.value, checksums[e.file])];
      }
    }
  }

  /** Lists what is wrong with the entries' checksums: exactly the missing and the differing ones
      of files the manifest knows. */
  method ModuleChecksumErrors(entries: seq<Entry>, checksums: Manifest) returns (errors: seq<Error>)
    ensures forall error :: error in errors <==> IsShaErrorOf(error, entries, checksums)
    ensures errors == [] <==> ShasAgree(entries, checksums)
  {
    errors := [];
    for i := 0 to |entries|
      invariant forall error :: error in errors <==> IsShaErrorOf(error, entries[..i], checksums)
      invariant errors == [] <==> ShasAgree(entries[..i], checksums)
    {
      var more := EntryChecksumErrors(entries[i], checksums);
      assert entries[..i + 1] == entries[..i] + [entries[i]];
      ShasAgreeAppend(entries[..i], entries[i], checksums);
      forall error ensures error in errors + more <==> IsShaErrorOf(error, entries[..i + 1], checksums) {
        ShaErrorAppend(error, entries[..i], entries[i], checksums);
      }
      errors := errors + more;
    }
    assert entries[..|entries|] == entries;
  }

  // ----- Checking and updating a text -----

  /** The check succeeds: every block has a file, and entries and checksums match the manifest. */
  predicate Passes(lines: seq<string>, checksums: Manifest, prefix: string) {
    var entries := Entries(Segments(lines), prefix);
    entries.Some? && SetAgrees(entries.value, checksums) && ShasAgree(entries.value, checksums)
  }

  method CheckModuleText(lines: seq<string>, checksums: Manifest, version: string) returns (ok: bool)
    ensures ok == Passes(lines, checksums, NamePrefix(version))
  {
    var entries := Entries(Segments(lines), NamePrefix(version));
    if entries.None? {
      return false;
    }
    var setErrors := ModuleEntrySetErrors(entries.value, checksums);
    var checksumErrors := ModuleChecksumErrors(entries.value, checksums);
    ok := setErrors == {} && checksumErrors == [];
  }

  /** One segment of the updated text; `None` when its block has no place for the checksum. */
  function RewriteSegment(segment: Segment, checksums: Manifest, prefix: string): Option<Segment> {
    if !IsEntry(segment, prefix) then Some(segment)
    else
      var rows := Rows(segment.body);
      var file := FindPath(rows);
      if file.None? || file.value !in checksums then None
      else
        var rewritten := Rewrite(rows, checksums[file.value]);
        if rewritten.None? then None else Some(Block(Texts(rewritten.value), segment.close))
  }

  function RewriteSegments(segments: seq<Segment>, checksums: Manifest, prefix: string): Option<seq<Segment>> {
    if segments == [] then Some([])
    else
      var first := RewriteSegment(segments[0], checksums, prefix);
      var more := RewriteSegments(segments[1..], checksums, prefix);
      if first.None? || more.None? then None else Some([first.value] + more.value)
  }

  function Update(lines: seq<string>, checksums: Manifest, prefix: string): Option<seq<string>> {
    var entries := Entries(Segments(lines), prefix);
    if entries.None? || !SetAgrees(entries.value, checksums) then None
    else
      var rewritten := RewriteSegments(Segments(lines), checksums, prefix);
      if rewritten.None? then None else Some(Flatten(rewritten.value))
  }

  /** The updated text, of which `pieces` are built and `rest` are not. */
  function Joined(pieces: seq<string>, rest: Option<seq<Segment>>): Option<seq<string>> {
    if rest.None? then None else Some(pieces + Flatten(rest.value))
  }

  lemma JoinedCons(pieces: seq<string>, segments: seq<Segment>, checksums: Manifest, prefix: string)
    requires segments != []
    ensures var first, more := RewriteSegment(segments[0], checksums, prefix), RewriteSegments(segments[1..], checksums, prefix);
            Joined(pieces, RewriteSegments(segments, checksums, prefix)) ==
            if first.None? then None else Joined(pieces + LinesOf(first.value), more)
  {
    var first, more := RewriteSegment(segments[0], checksums, prefix), RewriteSegments(segments[1..], checksums, prefix);
    if first.Some? && more.Some? {
      assert ([first.value] + more.value)[1..] == more.value;
      assert pieces + (LinesOf(first.value) + Flatten(more.value)) == (pieces + LinesOf(first.value)) + Flatten(more.value);
    }
  }

  /** Builds the updated text piece by piece. */
  method RewritePieces(segments: seq<Segment>, checksums: Manifest, prefix: string) returns (updated: Option<seq<string>>)
    ensures updated == Joined([], RewriteSegments(segments, checksums, prefix))
  {
    var pieces: seq<string> := [];
    assert segments[0..] == segments;
    for i := 0 to |segments|
      invariant Joined(pieces, RewriteSegments(segments[i..], checksums, prefix)) ==
                Joined([], RewriteSegments(segments, checksums, prefix))
    {
      assert segments[i..][0] == segments[i] && segments[i..][1..] == segments[i + 1..];
      JoinedCons(pieces, segments[i..], checksums, prefix);
      var piece := RewriteSegment(segments[i], checksums, prefix);
      if piece.None? {
        return None;
      }
      pieces := pieces + LinesOf(piece.value);
    }
    assert segments[|segments|..] == [];
    assert pieces + Flatten([]) == pieces;
    updated := Some(pieces);
  }

  method UpdateModuleText(lines: seq<string>, checksums: Manifest, version: string) returns (updated: Option<seq<string>>)
    ensures updated == Update(lines, checksums, NamePrefix(version))
  {
    var prefix := NamePrefix(version);
    var segments := Segments(lines);
    var entries := Entries(segments, prefix);
    if entries.None? {
      return None;
    }
    var errors := ModuleEntrySetErrors(entries.value, checksums);
    if errors != {} {
      return None;
    }
    updated := RewritePieces(segments, checksums, prefix);
    if updated.Some? {
      var rewritten := RewriteSegments(segments, checksums, prefix).value;
      assert [] + Flatten(rewritten) == Flatten(rewritten);
    }
  }
}
