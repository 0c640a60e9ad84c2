/** The two exceptions to the agreement of updating and checking are real. */
module ModuleBazelExceptions {
  import opened Common
  import opened ModuleBazel
  import opened ModuleBazelGuarantees
  import opened ModuleBazelTexts

  function FieldLine(field: string, value: string): string {
    field + " = \"" + value + "\","
  }

  /** A line that starts with a field's name. */
  lemma FieldLineIsRead(field: string, value: string)
    requires field != [] && !IsBlank(field[0]) && field[0] != ')' && value != [] && '"' !in value
    ensures var line := FieldLine(field, value);
            && FieldOf(line, field) == Some(Field(value, true))
            && !AllBlank(line) && !IsClose(line) && SkipBlanks(line) == line
  {
    var line := FieldLine(field, value);
    assert line[0] == field[0];
    assert line == field + (" = \"" + value + "\",");
    assert field <= line && line[|field|..] == " = \"" + value + "\",";
    TailOf(value);
    NotAPrefix(")", 0, line);
  }

  lemma NoOtherField(field: string, value: string, other: string)
    requires field != [] && !IsBlank(field[0]) && other != [] && other[0] != field[0]
    ensures FieldOf(FieldLine(field, value), other).None?
  {
    var line := FieldLine(field, value);
    assert line[0] == field[0];
    NotAPrefix(other, 0, line);
  }

  lemma NameLine(name: string)
    requires name != [] && '"' !in name
    ensures var row := Classify(FieldLine("name", name));
            row.name == Some(name) && row.path.None? && row.sha.None? && !row.blank && !row.closes
  {
    FieldLineIsRead("name", name);
    NoOtherField("name", name, "downloaded_file_path");
    NoOtherField("name", name, "sha256");
  }

  lemma PathLine(file: string)
    requires file != [] && '"' !in file
    ensures var row := Classify(FieldLine("downloaded_file_path", file));
            row.path == Some(Field(file, true)) && row.name.None? && row.sha.None? && !row.blank && !row.closes
  {
    FieldLineIsRead("downloaded_file_path", file);
    NoOtherField("downloaded_file_path", file, "name");
    NoOtherField("downloaded_file_path", file, "sha256");
  }

  lemma ShaFieldLine(sha: string)
    requires sha != [] && '"' !in sha
    ensures var row := Classify(FieldLine("sha256", sha));
            row.sha == Some(sha) && row.name.None? && row.path.None? && !row.blank && !row.closes
  {
    FieldLineIsRead("sha256", sha);
    NoOtherField("sha256", sha, "name");
    NoOtherField("sha256", sha, "downloaded_file_path");
  }

  /** A text that is one entry's block. */
  lemma OneBlock(body: seq<string>, file: string, checksum: string, prefix: string)
    requires NoClose(body) && IsHex(checksum)
    requires FindName(Rows(body)) == Some(prefix) && FindPath(Rows(body)) == Some(file)
    requires Rewrite(Rows(body), checksum).Some?
    ensures var lines := [OPEN] + body + [")"];
            && Segments(lines) == [Block(body, ")")] && IsEntry(Block(body, ")"), prefix)
            && HexManifest(map[file := checksum]) && Update(lines, map[file := checksum], prefix).Some?
  {
    OneSegment(body);
    OneUpdated([OPEN] + body + [")"], Block(body, ")"), file, checksum, prefix);
  }

  /** Any text that is read as one entry's block can be updated if the block can. */
  lemma OneUpdated(lines: seq<string>, s: Segment, file: string, checksum: string, prefix: string)
    requires Segments(lines) == [s] && IsEntry(s, prefix) && FindPath(Rows(s.body)) == Some(file)
    requires Rewrite(Rows(s.body), checksum).Some?
    ensures Update(lines, map[file := checksum], prefix).Some?
  {
    OneEntry(s, file, checksum, prefix);
    assert RewriteSegment(s, map[file := checksum], prefix).Some?;
    OneRewritten(s, map[file := checksum], prefix);
  }

  lemma OneSegment(body: seq<string>)
    requires NoClose(body)
    ensures Segments([OPEN] + body + [")"]) == [Block(body, ")")]
  {
    assert [OPEN] + body + [")"] + [] == [OPEN] + body + [")"];
    BlockIsRead(body, ")", []);
    assert Segments([]) == [];
  }

  lemma OneEntry(s: Segment, file: string, checksum: string, prefix: string)
    requires IsEntry(s, prefix) && FindPath(Rows(s.body)) == Some(file)
    ensures Entries([s], prefix).Some? && SetAgrees(Entries([s], prefix).value, map[file := checksum])
  {
    assert [s][0] == s && [s][1..] == [];
    assert Entries([], prefix) == Some([]);
    var entries := Entries([s], prefix).value;
    assert Files(entries) == {file} by { assert entries[0].file == file; }
  }

  lemma OneRewritten(s: Segment, checksums: Manifest, prefix: string)
    requires RewriteSegment(s, checksums, prefix).Some?
    ensures RewriteSegments([s], checksums, prefix).Some?
  {
    assert [s][0] == s && [s][1..] == [];
    assert RewriteSegments([], checksums, prefix) == Some([]);
  }

  lemma TailRows(a: Row, b: Row, c: Row)
    ensures [a, b, c][1..] == [b, c] && [b, c][1..] == [c] && [c][1..] == []
  {
  }

  /** A name row, a path row and a blank row. */
  lemma BlankAfterPath(a: Row, b: Row, c: Row, name: string, file: string, checksum: string)
    requires a.name == Some(name) && a.path.None? && a.sha.None?
    requires b.path == Some(Field(file, true)) && b.sha.None?
    requires c.blank && c.sha.None?
    ensures var rows := [a, b, c];
            && FindName(rows) == Some(name) && FindPath(rows) == Some(file)
            && Rewrite(rows, checksum).Some? && !Settles(rows)
  {
    TailRows(a, b, c);
    var rows := [a, b, c];
    assert HexShaAt(rows) == 3;
    assert StrictPathAt(rows) == 1;
    assert PlaceOf(rows) == 2;
  }

  /** A name row, a row with a checksum that is not hexadecimal, and a path row. */
  lemma OtherShaBeforePath(a: Row, b: Row, c: Row, name: string, file: string, sha: string, checksum: string)
    requires a.name == Some(name) && a.path.None? && a.sha.None?
    requires b.path.None? && b.sha == Some(sha) && !IsHex(sha)
    requires c.path == Some(Field(file, true)) && c.sha.None?
    ensures var rows := [a, b, c];
            && FindName(rows) == Some(name) && FindPath(rows) == Some(file)
            && Rewrite(rows, checksum).Some? && !ChecksumComesFirst(rows)
  {
    TailRows(a, b, c);
    var rows := [a, b, c];
    assert HexShaAt(rows) == 3;
    assert StrictPathAt([c]) == 0 && StrictPathAt([b, c]) == 1 && StrictPathAt(rows) == 2;
    assert FindPath([c]) == Some(file) && FindPath([b, c]) == Some(file);
    assert PlaceOf(rows) == 3 && rows[..3] == rows;
    assert FindSha(rows) == Some(sha);
  }

  lemma RowsOfThree(x: string, y: string, z: string)
    ensures Rows([x, y, z]) == [Classify(x), Classify(y), Classify(z)]
  {
    var lines := [x, y, z];
    var rows := Rows(lines);
    assert rows[0] == Classify(lines[0]) && rows[1] == Classify(lines[1]) && rows[2] == Classify(lines[2]);
  }

  lemma BlankLine()
    ensures Classify("").blank && Classify("").sha.None? && !Classify("").closes
  {
    ClassifiedIsPlausible("");
  }

  /** A block without checksum whose path line is followed by a blank line: updating it twice is
      not the same as updating it once. */
  lemma SecondUpdateCanChangeTheText(prefix: string, file: string, checksum: string)
    requires prefix != [] && '"' !in prefix && file != [] && '"' !in file && IsHex(checksum)
    ensures var lines := ["http_file("] + [FieldLine("name", prefix), FieldLine("downloaded_file_path", file), ""] + [")"];
            var once := Update(lines, map[file := checksum], prefix);
            once.Some? && Update(once.value, map[file := checksum], prefix) != once
  {
    var x, y, z := FieldLine("name", prefix), FieldLine("downloaded_file_path", file), "";
    NameLine(prefix);
    PathLine(file);
    BlankLine();
    BlankRows(Classify(x), Classify(y), Classify(z), x, y, z, prefix, file, checksum);
    UnsettledBlock([x, y, z], file, checksum, prefix);
  }

  lemma BlankRows(a: Row, b: Row, c: Row, x: string, y: string, z: string, name: string, file: string, checksum: string)
    requires a == Classify(x) && b == Classify(y) && c == Classify(z) && !a.closes && !b.closes && !c.closes
    requires a.name == Some(name) && a.path.None? && a.sha.None?
    requires b.path == Some(Field(file, true)) && b.sha.None?
    requires c.blank && c.sha.None?
    ensures var rows := Rows([x, y, z]);
            && NoClose([x, y, z]) && FindName(rows) == Some(name) && FindPath(rows) == Some(file)
            && Rewrite(rows, checksum).Some? && !Settles(rows)
  {
    RowsOfThree(x, y, z);
    BlankAfterPath(a, b, c, name, file, checksum);
  }

  lemma UnsettledBlock(body: seq<string>, file: string, checksum: string, prefix: string)
    requires NoClose(body) && IsHex(checksum)
    requires FindName(Rows(body)) == Some(prefix) && FindPath(Rows(body)) == Some(file)
    requires Rewrite(Rows(body), checksum).Some? && !Settles(Rows(body))
    ensures var lines := [OPEN] + body + [")"];
            var once := Update(lines, map[file := checksum], prefix);
            once.Some? && Update(once.value, map[file := checksum], prefix) != once
  {
    var lines := [OPEN] + body + [")"];
    OneBlock(body, file, checksum, prefix);
    assert Segments(lines)[0] == Block(body, ")");
    assert !AllSettle(Segments(lines), prefix);
    SecondUpdateChangesNothing(lines, map[file := checksum], prefix);
  }

  /** A block with a sha256 field that is not hexadecimal before its path line: the update
      succeeds and the check then fails. */
  lemma UpdateCanLeaveCheckFailing(prefix: string, file: string, sha: string, checksum: string)
    requires prefix != [] && '"' !in prefix && file != [] && '"' !in file && IsHex(checksum)
    requires sha != [] && '"' !in sha && !IsHex(sha)
    ensures var lines := ["http_file("] + [FieldLine("name", prefix), FieldLine("sha256", sha), FieldLine("downloaded_file_path", file)] + [")"];
            var once := Update(lines, map[file := checksum], prefix);
            once.Some? && !Passes(once.value, map[file := checksum], prefix)
  {
    var body := [FieldLine("name", prefix), FieldLine("sha256", sha), FieldLine("downloaded_file_path", file)];
    ReadOtherSha(prefix, file, sha, checksum);
    MisplacedChecksum(body, file, checksum, prefix);
  }

  lemma ReadOtherSha(prefix: string, file: string, sha: string, checksum: string)
    requires prefix != [] && '"' !in prefix && file != [] && '"' !in file && sha != [] && '"' !in sha && !IsHex(sha)
    ensures var body := [FieldLine("name", prefix), FieldLine("sha256", sha), FieldLine("downloaded_file_path", file)];
            var rows := Rows(body);
            && NoClose(body) && FindName(rows) == Some(prefix) && FindPath(rows) == Some(file)
            && Rewrite(rows, checksum).Some? && !ChecksumComesFirst(rows)
  {
    var x, y, z := FieldLine("name", prefix), FieldLine("sha256", sha), FieldLine("downloaded_file_path", file);
    NameLine(prefix);
    ShaFieldLine(sha);
    PathLine(file);
    OtherShaRows(Classify(x), Classify(y), Classify(z), x, y, z, prefix, file, sha, checksum);
  }

  predicate IsMisplaced(rows: seq<Row>, name: string, file: string, checksum: string) {
    && FindName(rows) == Some(name) && FindPath(rows) == Some(file)
    && Rewrite(rows, checksum).Some? && !ChecksumComesFirst(rows)
  }

  lemma NoneCloses(x: string, y: string, z: string)
    requires !IsClose(x) && !IsClose(y) && !IsClose(z)
    ensures NoClose([x, y, z])
  {
  }

  lemma OtherShaRows(a: Row, b: Row, c: Row, x: string, y: string, z: string, name: string, file: string, sha: string, checksum: string)
    requires a == Classify(x) && b == Classify(y) && c == Classify(z) && !a.closes && !b.closes && !c.closes
    requires a.name == Some(name) && a.path.None? && a.sha.None?
    requires b.path.None? && b.sha == Some(sha) && !IsHex(sha)
    requires c.path == Some(Field(file, true)) && c.sha.None?
    ensures NoClose([x, y, z]) && IsMisplaced(Rows([x, y, z]), name, file, checksum)
  {
    NoneCloses(x, y, z);
    RowsOfThree(x, y, z);
    OtherShaBeforePath(a, b, c, name, file, sha, checksum);
    assert IsMisplaced([a, b, c], name, file, checksum);
  }

  lemma MisplacedChecksum(body: seq<string>, file: string, checksum: string, prefix: string)
    requires NoClose(body) && IsHex(checksum)
    requires FindName(Rows(body)) == Some(prefix) && FindPath(Rows(body)) == Some(file)
    requires Rewrite(Rows(body), checksum).Some? && !ChecksumComesFirst(Rows(body))
    ensures var lines := [OPEN] + body + [")"];
            var once := Update(lines, map[file := checksum], prefix);
            once.Some? && !Passes(once.value, map[file := checksum], prefix)
  {
    var lines := [OPEN] + body + [")"];
    OneBlock(body, file, checksum, prefix);
    assert Segments(lines)[0] == Block(body, ")");
    assert !AllChecksumsComeFirst(Segments(lines), prefix);
    UpdateMakesCheckPass(lines, map[file := checksum], prefix);
  }
}
