/** Updating and checking agree. */
module ModuleBazelGuarantees {
  import opened Common
  import opened ModuleBazel
  import DiffScanner

  // ----- Reading back the line that is written -----

  lemma {:induction false} SkipIndent(indent: string, rest: string)
    requires AllBlank(indent) && (rest == [] || !IsBlank(rest[0]))
    ensures SkipBlanks(indent + rest) == rest
    decreases |indent|
  {
    if indent == [] {
      assert indent + rest == rest;
    } else {
      assert (indent + rest)[0] == indent[0] && (indent + rest)[1..] == indent[1..] + rest;
      SkipIndent(indent[1..], rest);
    }
  }

  lemma {:induction false} IndentIsBlank(line: string)
    ensures AllBlank(Indent(line))
    ensures line == Indent(line) + SkipBlanks(line)
    decreases |line|
  {
    if line != [] && IsBlank(line[0]) {
      IndentIsBlank(line[1..]);
      assert Indent(line) == [line[0]] + Indent(line[1..]);
    }
  }

  lemma {:induction false} QuoteAfter(value: string, rest: string)
    requires '"' !in value
    ensures QuoteAt(value + ("\"" + rest)) == |value|
    decreases |value|
  {
    var s := value + ("\"" + rest);
    if value == [] {
      assert s[0] == '"';
    } else {
      assert s[0] == value[0] && s[1..] == value[1..] + ("\"" + rest);
      QuoteAfter(value[1..], rest);
    }
  }

  /** An equals sign, a quote and a value, its closing quote and a comma. */
  lemma FieldTailIs(s: string, quoted: string, value: string)
    requires value != [] && '"' !in value
    requires SkipBlanks(s) == "=" + (" " + quoted) && quoted == "\"" + (value + ("\"" + ","))
    ensures FieldTail(s) == Some(Field(value, true))
  {
    var r1 := SkipBlanks(s);
    assert r1[0] == '=' && r1[1..] == " " + quoted;
    SkipIndent(" ", quoted);
    assert quoted[0] == '"' && quoted[1..] == value + ("\"" + ",");
    TailAfterQuote(value, quoted[1..]);
  }

  /** A value, its closing quote and a comma. */
  lemma TailAfterQuote(value: string, s: string)
    requires '"' !in value && s == value + ("\"" + ",")
    ensures QuoteAt(s) == |value| && s[..|value|] == value && |s| == |value| + 2 && s[|value| + 1] == ','
  {
    QuoteAfter(value, ",");
  }

  lemma TailText(value: string)
    ensures " = \"" + value + "\"," == " " + ("=" + (" " + ("\"" + (value + ("\"" + ",")))))
  {
  }

  lemma TailOf(value: string)
    requires value != [] && '"' !in value
    ensures FieldTail(" = \"" + value + "\",") == Some(Field(value, true))
  {
    var quoted := "\"" + (value + ("\"" + ","));
    var rest := "=" + (" " + quoted);
    TailText(value);
    SkipIndent(" ", rest);
    FieldTailIs(" " + rest, quoted, value);
  }

  /** What follows the indent of a written line is the sha256 field and no other. */
  lemma WrittenFields(line: string, rest: string, checksum: string)
    requires SkipBlanks(line) == rest == "sha256" + (" = \"" + checksum + "\",") && IsHex(checksum)
    ensures FieldOf(line, "sha256") == Some(Field(checksum, true))
    ensures FieldOf(line, "name").None? && FieldOf(line, "downloaded_file_path").None?
  {
    assert rest[0] == 's';
    NotAPrefix("name", 0, rest);
    NotAPrefix("downloaded_file_path", 0, rest);
    assert "sha256" <= rest && rest[6..] == " = \"" + checksum + "\",";
    TailOf(checksum);
  }

  lemma WrittenLineIsRead(indent: string, checksum: string)
    requires AllBlank(indent) && IsHex(checksum)
    ensures Classify(ShaLine(indent, checksum)) == ShaRow(indent, checksum)
  {
    var rest := "sha256" + (" = \"" + checksum + "\",");
    var line := ShaLine(indent, checksum);
    assert line == indent + rest;
    SkipIndent(indent, rest);
    WrittenFields(line, rest, checksum);
    assert line[..|indent|] == indent;
    assert line[|indent|] == 's' && !IsBlank('s');
    NotAPrefix(")", 0, line);
  }

  // ----- Rows -----

  /** A blank row holds no field. */
  predicate Plausible(row: Row) {
    row.blank ==> row.name.None? && row.path.None? && row.sha.None?
  }

  predicate AllPlausible(rows: seq<Row>) {
    forall i :: 0 <= i < |rows| ==> Plausible(rows[i])
  }

  lemma ClassifiedIsPlausible(line: string)
    ensures Plausible(Classify(line))
  {
    if AllBlank(line) {
      SkipIndent(line, []);
      assert line + [] == line;
    }
  }

  lemma RowsArePlausible(lines: seq<string>)
    ensures AllPlausible(Rows(lines))
  {
    forall i | 0 <= i < |lines| ensures Plausible(Rows(lines)[i]) {
      ClassifiedIsPlausible(lines[i]);
    }
  }

  lemma {:induction false} FindConcat(a: seq<Row>, b: seq<Row>)
    ensures FindName(a + b) == if FindName(a).Some? then FindName(a) else FindName(b)
    ensures FindPath(a + b) == if FindPath(a).Some? then FindPath(a) else FindPath(b)
    ensures FindSha(a + b) == if FindSha(a).Some? then FindSha(a) else FindSha(b)
    decreases |a|
  {
    if a == [] {
      assert a + b == b;
    } else {
      assert (a + b)[0] == a[0] && (a + b)[1..] == a[1..] + b;
      FindConcat(a[1..], b);
    }
  }

  predicate NoFields(rows: seq<Row>) {
    FindName(rows).None? && FindPath(rows).None? && FindSha(rows).None?
  }

  lemma {:induction false} BlanksHaveNoFields(rows: seq<Row>)
    requires AllPlausible(rows) && forall i :: 0 <= i < |rows| ==> rows[i].blank
    ensures NoFields(rows)
    decreases |rows|
  {
    if rows != [] {
      assert Plausible(rows[0]);
      BlanksHaveNoFields(rows[1..]);
    }
  }

  lemma {:induction false} DropBlanksKeepsFields(rows: seq<Row>)
    requires AllPlausible(rows)
    ensures FindName(DropBlanks(rows)) == FindName(rows)
    ensures FindPath(DropBlanks(rows)) == FindPath(rows)
    ensures |DropBlanks(rows)| <= |rows|
    ensures DropBlanks(DropBlanks(rows)) == DropBlanks(rows)
    decreases |rows|
  {
    if rows != [] && rows[0].blank {
      assert Plausible(rows[0]);
      DropBlanksKeepsFields(rows[1..]);
    }
  }

  /** The blank rows at the end are all of them. */
  lemma {:induction false} BlanksAtEndAreAll(rows: seq<Row>)
    ensures |BlanksAtEnd(rows)| < |rows| ==> !rows[|rows| - |BlanksAtEnd(rows)| - 1].blank
    decreases |rows|
  {
    if rows != [] && rows[|rows| - 1].blank {
      BlanksAtEndAreAll(rows[..|rows| - 1]);
    }
  }

  lemma OneRow(row: Row)
    ensures FindName([row]) == row.name && FindSha([row]) == row.sha
    ensures FindPath([row]) == ValueOf(row.path)
  {
    assert [row][1..] == [];
  }

  // ----- Rewriting a block -----

  /** Where the checksum goes: onto the first hexadecimal sha256 row, or after the path row. */
  function PlaceOf(rows: seq<Row>): (n: nat)
    ensures n <= |rows|
  {
    if HexShaAt(rows) < |rows| then HexShaAt(rows)
    else if StrictPathAt(rows) < |rows| then StrictPathAt(rows) + 1
    else |rows|
  }

  /** Nothing before that place reads as a sha256 field. */
  predicate ChecksumComesFirst(rows: seq<Row>) {
    FindSha(rows[..PlaceOf(rows)]).None?
  }

  lemma {:induction false} FoundShaIsNotHex(rows: seq<Row>)
    requires forall i :: 0 <= i < |rows| ==> !HasHexSha(rows[i])
    ensures FindSha(rows).None? || !IsHex(FindSha(rows).value)
    decreases |rows|
  {
    if rows != [] {
      FoundShaIsNotHex(rows[1..]);
    }
  }

  /** The rows the rewriting puts between the part before the place and the rest. */
  function Inserted(rows: seq<Row>, checksum: string): seq<Row>
    requires PlaceOf(rows) < |rows| || StrictPathAt(rows) < |rows|
  {
    var h, d := HexShaAt(rows), StrictPathAt(rows);
    if h < |rows| then [ShaRow(rows[h].indent, checksum)]
    else BlanksAtEnd(rows[..d]) + [ShaRow(rows[d].indent, checksum)]
  }

  function Remainder(rows: seq<Row>): seq<Row> {
    if HexShaAt(rows) < |rows| then DropBlanks(rows[HexShaAt(rows) + 1..]) else rows[PlaceOf(rows)..]
  }

  lemma RewriteShape(rows: seq<Row>, checksum: string)
    requires Rewrite(rows, checksum).Some?
    ensures Rewrite(rows, checksum).value == rows[..PlaceOf(rows)] + (Inserted(rows, checksum) + Remainder(rows))
  {
    var h, d := HexShaAt(rows), StrictPathAt(rows);
    if h == |rows| {
      assert (BlanksAtEnd(rows[..d]) + [ShaRow(rows[d].indent, checksum)]) + rows[d + 1..] ==
             BlanksAtEnd(rows[..d]) + ([ShaRow(rows[d].indent, checksum)] + rows[d + 1..]);
    }
  }

  lemma InsertedFields(rows: seq<Row>, checksum: string)
    requires AllPlausible(rows) && Rewrite(rows, checksum).Some?
    ensures FindName(Inserted(rows, checksum)).None? && FindPath(Inserted(rows, checksum)).None?
    ensures FindSha(Inserted(rows, checksum)) == Some(checksum)
  {
    var h, d := HexShaAt(rows), StrictPathAt(rows);
    if h < |rows| {
      OneRow(ShaRow(rows[h].indent, checksum));
    } else {
      var blanks := BlanksAtEnd(rows[..d]);
      assert forall i :: 0 <= i < |blanks| ==> blanks[i] == rows[d - |blanks| + i];
      BlanksHaveNoFields(blanks);
      OneRow(ShaRow(rows[d].indent, checksum));
      FindConcat(blanks, [ShaRow(rows[d].indent, checksum)]);
    }
  }

  /** A field found in the rows is found in the part before the place or in the rest. */
  lemma RemainderFields(rows: seq<Row>)
    requires AllPlausible(rows)
    requires HexShaAt(rows) < |rows| ==> rows[HexShaAt(rows)].name.None? && rows[HexShaAt(rows)].path.None?
    ensures FindName(rows) == if FindName(rows[..PlaceOf(rows)]).Some? then FindName(rows[..PlaceOf(rows)]) else FindName(Remainder(rows))
    ensures FindPath(rows) == if FindPath(rows[..PlaceOf(rows)]).Some? then FindPath(rows[..PlaceOf(rows)]) else FindPath(Remainder(rows))
  {
    var n, h := PlaceOf(rows), HexShaAt(rows);
    assert rows == rows[..n] + rows[n..];
    FindConcat(rows[..n], rows[n..]);
    if h < |rows| {
      assert rows[n..][0] == rows[h] && rows[n..][1..] == rows[h + 1..];
      DropBlanksKeepsFields(rows[h + 1..]);
    }
  }

  /** A line is at most one of the three fields. */
  predicate OneField(row: Row) {
    row.sha.Some? ==> row.name.None? && row.path.None?
  }

  lemma ClassifiedHasOneField(line: string)
    ensures OneField(Classify(line))
  {
    var rest := SkipBlanks(line);
    if "sha256" <= rest {
      assert rest[0] == 's';
      NotAPrefix("name", 0, rest);
      NotAPrefix("downloaded_file_path", 0, rest);
    }
  }

  lemma RewriteKeepsNameAndPath(rows: seq<Row>, checksum: string)
    requires AllPlausible(rows) && (forall i :: 0 <= i < |rows| ==> OneField(rows[i]))
    requires Rewrite(rows, checksum).Some?
    ensures FindName(Rewrite(rows, checksum).value) == FindName(rows)
    ensures FindPath(Rewrite(rows, checksum).value) == FindPath(rows)
  {
    assert HexShaAt(rows) < |rows| ==> OneField(rows[HexShaAt(rows)]);
    RewriteShape(rows, checksum);
    InsertedFields(rows, checksum);
    RemainderFields(rows);
    FindConcat(Inserted(rows, checksum), Remainder(rows));
    FindConcat(rows[..PlaceOf(rows)], Inserted(rows, checksum) + Remainder(rows));
  }

  /** After rewriting, the block's checksum reads as the new one exactly when no sha256 field
      comes before the place it was put. */
  lemma ChecksumAfterRewrite(rows: seq<Row>, checksum: string)
    requires AllPlausible(rows) && IsHex(checksum) && Rewrite(rows, checksum).Some?
    ensures FindSha(Rewrite(rows, checksum).value) == Some(checksum) <==> ChecksumComesFirst(rows)
  {
    var front := rows[..PlaceOf(rows)];
    RewriteShape(rows, checksum);
    InsertedFields(rows, checksum);
    FindConcat(Inserted(rows, checksum), Remainder(rows));
    FindConcat(front, Inserted(rows, checksum) + Remainder(rows));
    FoundShaIsNotHex(front);
  }

  lemma {:induction false} NoShaWithoutHex(rows: seq<Row>)
    requires forall i :: 0 <= i < |rows| ==> rows[i].sha.None?
    ensures FindSha(rows).None?
    decreases |rows|
  {
    if rows != [] {
      NoShaWithoutHex(rows[1..]);
    }
  }

  /** If every sha256 field in the block is hexadecimal, the checksum comes first. */
  lemma HexShasAreEnough(rows: seq<Row>)
    requires forall i :: 0 <= i < |rows| ==> rows[i].sha.Some? ==> IsHex(rows[i].sha.value)
    ensures ChecksumComesFirst(rows)
  {
    var front := rows[..PlaceOf(rows)];
    forall i | 0 <= i < |front| ensures front[i].sha.None? {
      assert !HasHexSha(rows[i]);
    }
    NoShaWithoutHex(front);
  }

  // ----- Rewriting twice -----

  /** A checksum put after the path row is not followed by a blank row. */
  predicate Settles(rows: seq<Row>) {
    HexShaAt(rows) < |rows| || PlaceOf(rows) == |rows| || !rows[PlaceOf(rows)].blank
  }

  lemma {:induction false} HexShaAfter(front: seq<Row>, row: Row, rest: seq<Row>)
    requires forall i :: 0 <= i < |front| ==> !HasHexSha(front[i])
    requires HasHexSha(row)
    ensures HexShaAt(front + ([row] + rest)) == |front|
    decreases |front|
  {
    var all := front + ([row] + rest);
    if front != [] {
      assert all[0] == front[0] && all[1..] == front[1..] + ([row] + rest);
      HexShaAfter(front[1..], row, rest);
    }
  }

  /** Rewriting a block whose first hexadecimal row already is the written one. */
  lemma RewriteWritten(front: seq<Row>, indent: string, rest: seq<Row>, checksum: string)
    requires IsHex(checksum) && forall i :: 0 <= i < |front| ==> !HasHexSha(front[i])
    ensures var rows := front + ([ShaRow(indent, checksum)] + rest);
            Rewrite(rows, checksum) == Some(front + ([ShaRow(indent, checksum)] + DropBlanks(rest)))
  {
    var row := ShaRow(indent, checksum);
    var rows := front + ([row] + rest);
    HexShaAfter(front, row, rest);
    assert rows[..|front|] == front && rows[|front|] == row && rows[|front| + 1..] == rest;
  }

  lemma {:induction false} DropBlanksShrinks(rows: seq<Row>)
    ensures |DropBlanks(rows)| <= |rows|
    ensures |DropBlanks(rows)| == |rows| <==> rows == [] || !rows[0].blank
    ensures |DropBlanks(rows)| == |rows| ==> DropBlanks(rows) == rows
    decreases |rows|
  {
    if rows != [] && rows[0].blank {
      DropBlanksShrinks(rows[1..]);
    }
  }

  lemma CopiedBlanksHaveNoHexSha(rows: seq<Row>, d: nat)
    requires d < |rows| && forall i :: 0 <= i < |rows| ==> !HasHexSha(rows[i])
    ensures var front := rows[..d + 1] + BlanksAtEnd(rows[..d]);
            forall i :: 0 <= i < |front| ==> !HasHexSha(front[i])
  {
    var blanks := BlanksAtEnd(rows[..d]);
    forall i | 0 <= i < |blanks| ensures !HasHexSha(blanks[i]) {
      assert blanks[i] == rows[d - |blanks| + i];
    }
  }

  lemma InsertedAsWritten(rows: seq<Row>, d: nat, checksum: string)
    requires d < |rows|
    ensures WithChecksumAfter(rows, d, checksum) ==
            (rows[..d + 1] + BlanksAtEnd(rows[..d])) + ([ShaRow(rows[d].indent, checksum)] + rows[d + 1..])
  {
  }

  /** Which of the two rewritings is done. */
  lemma WhichRewriting(rows: seq<Row>, checksum: string)
    requires Rewrite(rows, checksum).Some?
    ensures HexShaAt(rows) < |rows| ==> Rewrite(rows, checksum) == Some(WithChecksumAt(rows, HexShaAt(rows), checksum))
    ensures HexShaAt(rows) == |rows| ==>
              StrictPathAt(rows) < |rows| && Rewrite(rows, checksum) == Some(WithChecksumAfter(rows, StrictPathAt(rows), checksum))
  {
  }

  /** What follows the written row. */
  lemma WhatFollows(rows: seq<Row>)
    ensures HexShaAt(rows) < |rows| ==> Remainder(rows) == DropBlanks(rows[HexShaAt(rows) + 1..])
    ensures HexShaAt(rows) == |rows| && StrictPathAt(rows) < |rows| ==> Remainder(rows) == rows[StrictPathAt(rows) + 1..]
  {
  }

  /** The rows before the written one hold no hexadecimal sha256. */
  lemma RewriteAsWritten(rows: seq<Row>, checksum: string) returns (front: seq<Row>, indent: string)
    requires Rewrite(rows, checksum).Some?
    ensures Rewrite(rows, checksum).value == front + ([ShaRow(indent, checksum)] + Remainder(rows))
    ensures forall i :: 0 <= i < |front| ==> !HasHexSha(front[i])
  {
    WhichRewriting(rows, checksum);
    WhatFollows(rows);
    if HexShaAt(rows) < |rows| {
      front, indent := ReplacedFront(rows, HexShaAt(rows), checksum);
    } else {
      front, indent := InsertedFront(rows, StrictPathAt(rows), checksum);
    }
  }

  lemma ReplacedFront(rows: seq<Row>, h: nat, checksum: string) returns (front: seq<Row>, indent: string)
    requires h < |rows| && forall i :: 0 <= i < h ==> !HasHexSha(rows[i])
    ensures WithChecksumAt(rows, h, checksum) == front + ([ShaRow(indent, checksum)] + DropBlanks(rows[h + 1..]))
    ensures forall i :: 0 <= i < |front| ==> !HasHexSha(front[i])
  {
    front, indent := rows[..h], rows[h].indent;
  }

  lemma InsertedFront(rows: seq<Row>, d: nat, checksum: string) returns (front: seq<Row>, indent: string)
    requires d < |rows| && forall i :: 0 <= i < |rows| ==> !HasHexSha(rows[i])
    ensures WithChecksumAfter(rows, d, checksum) == front + ([ShaRow(indent, checksum)] + rows[d + 1..])
    ensures forall i :: 0 <= i < |front| ==> !HasHexSha(front[i])
  {
    front, indent := rows[..d + 1] + BlanksAtEnd(rows[..d]), rows[d].indent;
    CopiedBlanksHaveNoHexSha(rows, d);
    InsertedAsWritten(rows, d, checksum);
  }

  /** Rewriting again succeeds, never makes a block longer, and changes nothing exactly when
      the block settles. */
  lemma RewriteTwice(rows: seq<Row>, checksum: string)
    requires AllPlausible(rows) && IsHex(checksum) && Rewrite(rows, checksum).Some?
    ensures var once := Rewrite(rows, checksum).value;
            && Rewrite(once, checksum).Some?
            && |Rewrite(once, checksum).value| <= |once|
            && (|Rewrite(once, checksum).value| == |once| <==> Settles(rows))
            && (Settles(rows) ==> Rewrite(once, checksum).value == once)
  {
    var front, indent := RewriteAsWritten(rows, checksum);
    RewriteWritten(front, indent, Remainder(rows), checksum);
    DropBlanksShrinks(Remainder(rows));
    if HexShaAt(rows) < |rows| {
      DropBlanksKeepsFields(rows[HexShaAt(rows) + 1..]);
    }
  }

  // ----- What rewriting leaves alone -----

  /** The rows that are neither blank nor a sha256 field. */
  function Essential(rows: seq<Row>): seq<Row> {
    if rows == [] then []
    else (if rows[0].blank || rows[0].sha.Some? then [] else [rows[0]]) + Essential(rows[1..])
  }

  lemma {:induction false} EssentialConcat(a: seq<Row>, b: seq<Row>)
    ensures Essential(a + b) == Essential(a) + Essential(b)
    decreases |a|
  {
    if a == [] {
      assert a + b == b;
    } else {
      assert (a + b)[0] == a[0] && (a + b)[1..] == a[1..] + b;
      EssentialConcat(a[1..], b);
    }
  }

  lemma EssentialCons(row: Row, rows: seq<Row>)
    requires row.blank || row.sha.Some?
    ensures Essential([row] + rows) == Essential(rows)
  {
    assert ([row] + rows)[1..] == rows;
  }

  lemma {:induction false} DropBlanksKeepsEssential(rows: seq<Row>)
    ensures Essential(DropBlanks(rows)) == Essential(rows)
    decreases |rows|
  {
    if rows != [] && rows[0].blank {
      DropBlanksKeepsEssential(rows[1..]);
    }
  }

  lemma {:induction false} BlanksAreNotEssential(rows: seq<Row>)
    requires forall i :: 0 <= i < |rows| ==> rows[i].blank
    ensures Essential(rows) == []
    decreases |rows|
  {
    if rows != [] {
      BlanksAreNotEssential(rows[1..]);
    }
  }

  lemma EssentialReplaced(front: seq<Row>, was: Row, rest: seq<Row>, written: Row, kept: seq<Row>)
    requires was.sha.Some? && written.sha.Some? && Essential(kept) == Essential(rest)
    ensures Essential(front + ([written] + kept)) == Essential(front + ([was] + rest))
  {
    EssentialCons(written, kept);
    EssentialCons(was, rest);
    EssentialConcat(front, [written] + kept);
    EssentialConcat(front, [was] + rest);
  }

  lemma EssentialInserted(front: seq<Row>, blanks: seq<Row>, written: Row, rest: seq<Row>)
    requires written.sha.Some? && forall i :: 0 <= i < |blanks| ==> blanks[i].blank
    ensures Essential(front + (blanks + ([written] + rest))) == Essential(front + rest)
  {
    BlanksAreNotEssential(blanks);
    EssentialCons(written, rest);
    EssentialConcat(blanks, [written] + rest);
    EssentialConcat(front, blanks + ([written] + rest));
    EssentialConcat(front, rest);
  }

  lemma ReplacedKeepsEssential(rows: seq<Row>, h: nat, checksum: string)
    requires h < |rows| && rows[h].sha.Some?
    ensures Essential(WithChecksumAt(rows, h, checksum)) == Essential(rows)
  {
    DropBlanksKeepsEssential(rows[h + 1..]);
    EssentialReplaced(rows[..h], rows[h], rows[h + 1..], ShaRow(rows[h].indent, checksum), DropBlanks(rows[h + 1..]));
    AroundRow(rows, h);
  }

  lemma AroundRow(rows: seq<Row>, h: nat)
    requires h < |rows|
    ensures rows[..h] + ([rows[h]] + rows[h + 1..]) == rows
  {
  }

  lemma InsertedKeepsEssential(rows: seq<Row>, d: nat, checksum: string)
    requires d < |rows|
    ensures Essential(WithChecksumAfter(rows, d, checksum)) == Essential(rows)
  {
    EssentialInserted(rows[..d + 1], BlanksAtEnd(rows[..d]), ShaRow(rows[d].indent, checksum), rows[d + 1..]);
    assert rows == rows[..d + 1] + rows[d + 1..];
  }

  /** Rewriting touches only sha256 fields and blank lines: every other line is still there, in order. */
  lemma RewriteKeepsTheOtherLines(rows: seq<Row>, checksum: string)
    requires Rewrite(rows, checksum).Some?
    ensures Essential(Rewrite(rows, checksum).value) == Essential(rows)
  {
    WhichRewriting(rows, checksum);
    if HexShaAt(rows) < |rows| {
      ReplacedKeepsEssential(rows, HexShaAt(rows), checksum);
    } else {
      InsertedKeepsEssential(rows, StrictPathAt(rows), checksum);
    }
  }

  // ----- Exactly which lines are fields -----

  /** What follows a field's name: blanks, an equals sign, blanks, a quoted value, a comma, blanks. */
  function TailSpelled(b2: string, b3: string, value: string, b4: string): string {
    b2 + ("=" + (b3 + ("\"" + (value + ("\"" + ("," + b4))))))
  }

  predicate IsFieldText(b2: string, b3: string, value: string, b4: string) {
    AllBlank(b2) && AllBlank(b3) && AllBlank(b4) && value != [] && '"' !in value
  }

  lemma QuotedIsRead(value: string, b4: string)
    requires '"' !in value
    ensures var s := value + ("\"" + ("," + b4));
            && QuoteAt(s) == |value| && s[..|value|] == value && |s| == |value| + 2 + |b4|
            && s[|value| + 1] == ',' && s[|value| + 2..] == b4
  {
    QuoteAfter(value, "," + b4);
  }

  lemma SpelledTailIsRead(b2: string, b3: string, value: string, b4: string)
    requires IsFieldText(b2, b3, value, b4)
    ensures FieldTail(TailSpelled(b2, b3, value, b4)) == Some(Field(value, b4 == []))
  {
    var s3 := value + ("\"" + ("," + b4));
    var s2 := "\"" + s3;
    var s1 := "=" + (b3 + s2);
    SkipIndent(b2, s1);
    assert s1[0] == '=' && s1[1..] == b3 + s2;
    SkipIndent(b3, s2);
    assert s2[0] == '"' && s2[1..] == s3;
    QuotedIsRead(value, b4);
  }

  lemma {:induction false} BeforeTheQuote(s: string)
    ensures '"' !in s[..QuoteAt(s)] && (QuoteAt(s) < |s| ==> s[QuoteAt(s)] == '"')
    decreases |s|
  {
    if s != [] && s[0] != '"' {
      BeforeTheQuote(s[1..]);
      assert s[..QuoteAt(s)] == [s[0]] + s[1..][..QuoteAt(s[1..])];
    }
  }

  lemma QuotedText(s: string, n: nat)
    requires n + 1 < |s| && s[n] == '"' && s[n + 1] == ','
    ensures s == s[..n] + ("\"" + ("," + s[n + 2..]))
  {
  }

  /** The quoted value and what follows it. */
  lemma ReadQuotedIsSpelled(s: string) returns (value: string, b4: string)
    requires var n := QuoteAt(s); n + 1 < |s| && s[n + 1] == ','
    ensures s == value + ("\"" + ("," + b4)) && value == s[..QuoteAt(s)] && b4 == s[QuoteAt(s) + 2..] && '"' !in value
  {
    var n := QuoteAt(s);
    BeforeTheQuote(s);
    QuotedText(s, n);
    value, b4 := s[..n], s[n + 2..];
  }

  lemma HeadAndRest(s: string, c: char)
    requires s != [] && s[0] == c
    ensures s == [c] + s[1..]
  {
  }

  lemma ReadTailIsSpelled(s: string) returns (b2: string, b3: string, b4: string)
    requires FieldTail(s).Some?
    ensures IsFieldText(b2, b3, FieldTail(s).value.value, b4) && FieldTail(s).value.strict == (b4 == [])
    ensures s == TailSpelled(b2, b3, FieldTail(s).value.value, b4)
  {
    var r1 := SkipBlanks(s);
    var r2 := SkipBlanks(r1[1..]);
    IndentIsBlank(s);
    IndentIsBlank(r1[1..]);
    var value;
    value, b4 := ReadQuotedIsSpelled(r2[1..]);
    b2, b3 := Indent(s), Indent(r1[1..]);
    HeadAndRest(r1, '=');
    HeadAndRest(r2, '"');
  }

  /** A line is a field, for a name that does not start with a blank, exactly when it is blanks, the
      name, blanks, an equals sign, blanks, a non-empty value in quotes, a comma and blanks; the value
      is that one, and it is strict exactly when nothing follows the comma. */
  lemma FieldLinesAreRead(b1: string, field: string, b2: string, b3: string, value: string, b4: string)
    requires AllBlank(b1) && field != [] && !IsBlank(field[0]) && IsFieldText(b2, b3, value, b4)
    ensures FieldOf(b1 + (field + TailSpelled(b2, b3, value, b4)), field) == Some(Field(value, b4 == []))
  {
    var tail := TailSpelled(b2, b3, value, b4);
    SkipIndent(b1, field + tail);
    assert (field + tail)[|field|..] == tail;
    SpelledTailIsRead(b2, b3, value, b4);
  }

  lemma OnlyFieldLinesAreRead(line: string, field: string) returns (b1: string, b2: string, b3: string, b4: string)
    requires FieldOf(line, field).Some?
    ensures var f := FieldOf(line, field).value;
            && AllBlank(b1) && IsFieldText(b2, b3, f.value, b4) && f.strict == (b4 == [])
            && line == b1 + (field + TailSpelled(b2, b3, f.value, b4))
  {
    var rest := SkipBlanks(line);
    b1 := Indent(line);
    IndentIsBlank(line);
    b2, b3, b4 := ReadTailIsSpelled(rest[|field|..]);
    assert rest == field + rest[|field|..];
  }

  /** Python's blanks are Unicode's and the four information separators. */
  lemma BlanksOfPython(c: char)
    ensures IsBlank(c) <==> DiffScanner.IsWhitespace(c) || '\U{1C}' <= c <= '\U{1F}'
  {
  }

  lemma HexDigits(s: string)
    ensures IsHex(s) <==> s != [] && forall i :: 0 <= i < |s| ==> s[i] in "0123456789abcdef"
  {
    forall i | 0 <= i < |s|
      ensures s[i] in "0123456789abcdef" <==> '0' <= s[i] <= '9' || 'a' <= s[i] <= 'f'
    {
      OneHexDigit(s[i]);
    }
  }

  lemma OneHexDigit(c: char)
    ensures c in "0123456789abcdef" <==> '0' <= c <= '9' || 'a' <= c <= 'f'
  {
    var d := "0123456789abcdef";
    assert d[0] == '0' && d[1] == '1' && d[2] == '2' && d[3] == '3' && d[4] == '4' && d[5] == '5' && d[6] == '6' && d[7] == '7';
    assert d[8] == '8' && d[9] == '9' && d[10] == 'a' && d[11] == 'b' && d[12] == 'c' && d[13] == 'd' && d[14] == 'e' && d[15] == 'f';
  }

  // ----- Which blocks are entries -----

  /** The name starts with rusty_v8, the version with underscores for dots, and an underscore. */
  predicate IsNamedFor(name: string, version: string) {
    && |name| >= 10 + |version| && name[..9] == "rusty_v8_" && name[9 + |version|] == '_'
    && forall i :: 0 <= i < |version| ==> name[9 + i] == if version[i] == '.' then '_' else version[i]
  }

  lemma PrefixIsNamedFor(name: string, version: string)
    ensures NamePrefix(version) <= name <==> IsNamedFor(name, version)
  {
    var u := Underscored(version);
    var p := NamePrefix(version);
    assert |p| == 10 + |version| && p[..9] == "rusty_v8_" && p[9 + |version|] == '_';
    assert p[9..9 + |version|] == u;
    if IsNamedFor(name, version) {
      forall i | 0 <= i < |p| ensures p[i] == name[i] {
        if i < 9 {
          assert p[..9][i] == name[..9][i];
        } else if i < 9 + |version| {
          assert p[i] == p[9..9 + |version|][i - 9] == name[9 + (i - 9)];
        }
      }
    }
    if p <= name {
      assert name[..9] == p[..9];
      assert name[9..9 + |version|] == u;
      forall i | 0 <= i < |version| ensures name[9 + i] == u[i] {
        assert name[9..9 + |version|][i] == u[i];
      }
    }
  }

  predicate IsBlockOf(s: Segment, version: string) {
    s.Block? && var name := FindName(Rows(s.body)); name.Some? && IsNamedFor(name.value, version)
  }

  /** The blocks whose name is for the version. */
  function BlocksOf(segments: seq<Segment>, version: string): seq<Segment> {
    if segments == [] then []
    else if IsBlockOf(segments[0], version) then [segments[0]] + BlocksOf(segments[1..], version)
    else BlocksOf(segments[1..], version)
  }

  lemma SameBlocks(s: Segment, version: string)
    ensures IsEntry(s, NamePrefix(version)) <==> IsBlockOf(s, version)
  {
    if s.Block? && FindName(Rows(s.body)).Some? {
      PrefixIsNamedFor(FindName(Rows(s.body)).value, version);
    }
  }

  predicate NamesFile(s: Segment) {
    s.Block? && FindPath(Rows(s.body)).Some?
  }

  predicate IsEntryOf(e: Entry, s: Segment) {
    s.Block? && var rows := Rows(s.body);
    FindName(rows) == Some(e.name) && FindPath(rows) == Some(e.file) && FindSha(rows) == e.sha
  }

  /** The entries read the blocks one by one; there are none to be had exactly when a block names no file. */
  predicate AreRead(entries: Option<seq<Entry>>, blocks: seq<Segment>) {
    && (entries.Some? <==> forall i :: 0 <= i < |blocks| ==> NamesFile(blocks[i]))
    && (entries.Some? ==>
          |entries.value| == |blocks| && forall i :: 0 <= i < |blocks| ==> IsEntryOf(entries.value[i], blocks[i]))
  }

  lemma OneMoreIsRead(e: Entry, s: Segment, more: seq<Entry>, blocks: seq<Segment>)
    requires IsEntryOf(e, s) && AreRead(Some(more), blocks)
    ensures AreRead(Some([e] + more), [s] + blocks)
  {
    var es, all := [e] + more, [s] + blocks;
    forall i | 0 <= i < |all| ensures NamesFile(all[i]) && IsEntryOf(es[i], all[i]) {
      if i > 0 {
        assert all[i] == blocks[i - 1] && es[i] == more[i - 1];
      }
    }
  }

  lemma NoneIsRead(s: Segment, more: Option<seq<Entry>>, blocks: seq<Segment>)
    requires AreRead(more, blocks) && (more.None? || !NamesFile(s))
    ensures AreRead(None, [s] + blocks)
  {
    var all := [s] + blocks;
    if NamesFile(s) {
      var i :| 0 <= i < |blocks| && !NamesFile(blocks[i]);
      assert all[i + 1] == blocks[i];
    } else {
      assert all[0] == s;
    }
  }

  /** The entries are the blocks named for the version, in order, each with its first name, path and checksum. */
  lemma {:induction false} EntriesAreTheBlocks(segments: seq<Segment>, version: string)
    ensures AreRead(Entries(segments, NamePrefix(version)), BlocksOf(segments, version))
    decreases |segments|
  {
    if segments != [] {
      var s := segments[0];
      var more, blocks := Entries(segments[1..], NamePrefix(version)), BlocksOf(segments[1..], version);
      EntriesAreTheBlocks(segments[1..], version);
      SameBlocks(s, version);
      if IsBlockOf(s, version) {
        if more.None? || !NamesFile(s) {
          NoneIsRead(s, more, blocks);
        } else {
          var rows := Rows(s.body);
          OneMoreIsRead(Entry(FindName(rows).value, FindPath(rows).value, FindSha(rows)), s, more.value, blocks);
        }
      }
    }
  }
}
