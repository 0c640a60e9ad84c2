/** The same for whole texts: the updated text is read back block by block. */
module ModuleBazelTexts {
  import opened Common
  import opened ModuleBazel
  import opened ModuleBazelGuarantees

  // ----- Texts and segments -----

  /** A closing line starts with a parenthesis; the opening line is nothing but the call. */
  predicate Closes(line: string) {
    line != [] && line[0] == ')'
  }

  predicate NoClose(lines: seq<string>) {
    forall i :: 0 <= i < |lines| ==> !Closes(lines[i])
  }

  /** Segments that a text is read as: blocks are closed where they first can be, and an opening
      line outside a block has no closing line after it. */
  predicate Canonical(segments: seq<Segment>) {
    segments == [] ||
    (&& Canonical(segments[1..])
     && MayStart(segments[0], Flatten(segments[1..])))
  }

  lemma FlattenCons(s: Segment, more: seq<Segment>)
    ensures Flatten([s] + more) == LinesOf(s) + Flatten(more)
  {
    assert ([s] + more)[1..] == more;
  }

  /** What the first segment of a text may be, by what follows it. */
  predicate MayStart(s: Segment, rest: seq<string>) {
    match s
    case Plain(line) => line == "http_file(" ==> NoClose(rest)
    case Block(body, close) => NoClose(body) && Closes(close)
  }

  lemma CanonicalCons(s: Segment, more: seq<Segment>)
    requires Canonical(more) && MayStart(s, Flatten(more))
    ensures Canonical([s] + more)
  {
    assert ([s] + more)[1..] == more;
  }

  /** The first segment of a text. */
  lemma FirstSegment(lines: seq<string>) returns (s: Segment, rest: seq<string>)
    requires lines != []
    ensures |rest| < |lines| && lines == LinesOf(s) + rest && MayStart(s, rest)
    ensures Segments(lines) == [s] + Segments(rest)
  {
    var tail := lines[1..];
    var n := CloseAt(tail);
    if lines[0] == OPEN && n < |tail| {
      s, rest := Block(tail[..n], tail[n]), tail[n + 1..];
      assert lines == [OPEN] + tail[..n] + [tail[n]] + tail[n + 1..];
    } else {
      s, rest := Plain(lines[0]), tail;
      assert lines == [lines[0]] + tail;
    }
  }

  lemma {:induction false} FlattenSegments(lines: seq<string>)
    ensures Flatten(Segments(lines)) == lines
    decreases |lines|
  {
    if lines != [] {
      var s, rest := FirstSegment(lines);
      FlattenSegments(rest);
      FlattenCons(s, Segments(rest));
    }
  }

  lemma {:induction false} SegmentsAreCanonical(lines: seq<string>)
    ensures Canonical(Segments(lines))
    decreases |lines|
  {
    if lines != [] {
      var s, rest := FirstSegment(lines);
      SegmentsAreCanonical(rest);
      FlattenSegments(rest);
      CanonicalCons(s, Segments(rest));
    }
  }

  lemma SegmentsSpellTheText(lines: seq<string>)
    ensures Flatten(Segments(lines)) == lines && Canonical(Segments(lines))
  {
    FlattenSegments(lines);
    SegmentsAreCanonical(lines);
  }

  lemma {:induction false} CloseAfter(body: seq<string>, close: string, rest: seq<string>)
    requires NoClose(body) && Closes(close)
    ensures CloseAt(body + ([close] + rest)) == |body|
    decreases |body|
  {
    var all := body + ([close] + rest);
    if body != [] {
      assert all[0] == body[0] && all[1..] == body[1..] + ([close] + rest);
      CloseAfter(body[1..], close, rest);
    }
  }

  lemma NoCloseAt(lines: seq<string>)
    requires NoClose(lines)
    ensures CloseAt(lines) == |lines|
  {
  }

  lemma PlainIsRead(line: string, more: seq<string>)
    requires line == "http_file(" ==> NoClose(more)
    ensures Segments([line] + more) == [Plain(line)] + Segments(more)
  {
    var lines := [line] + more;
    assert lines[0] == line && lines[1..] == more;
    if line == OPEN {
      NoCloseAt(more);
    }
  }

  lemma BlockIsRead(body: seq<string>, close: string, more: seq<string>)
    requires NoClose(body) && Closes(close)
    ensures Segments(["http_file("] + body + [close] + more) == [Block(body, close)] + Segments(more)
  {
    var lines := [OPEN] + body + [close] + more;
    var rest := lines[1..];
    assert lines[0] == OPEN && rest == body + ([close] + more);
    CloseAfter(body, close, more);
    assert rest[..|body|] == body && rest[|body|] == close && rest[|body| + 1..] == more;
  }

  lemma SegmentIsRead(s: Segment, rest: seq<string>)
    requires MayStart(s, rest)
    ensures Segments(LinesOf(s) + rest) == [s] + Segments(rest)
  {
    match s
    case Plain(line) => PlainIsRead(line, rest);
    case Block(body, close) => BlockIsRead(body, close, rest);
  }

  lemma {:induction false} TextIsReadAsItsSegments(segments: seq<Segment>)
    requires Canonical(segments)
    ensures Segments(Flatten(segments)) == segments
    decreases |segments|
  {
    if segments != [] {
      var s, more := segments[0], segments[1..];
      TextIsReadAsItsSegments(more);
      SegmentIsRead(s, Flatten(more));
      assert Flatten(segments) == LinesOf(s) + Flatten(more);
      assert segments == [s] + more;
    }
  }

  // ----- A rewritten block is read as the rewritten rows -----

  /** The row of a line that does not close the block. */
  predicate IsInnerRow(row: Row) {
    row == Classify(row.text) && !row.closes
  }

  predicate AllInner(rows: seq<Row>) {
    forall i :: 0 <= i < |rows| ==> IsInnerRow(rows[i])
  }

  lemma ReadRows(rows: seq<Row>)
    requires AllInner(rows)
    ensures Rows(Texts(rows)) == rows && NoClose(Texts(rows))
  {
  }

  lemma {:induction false} DropBlanksIsSuffix(rows: seq<Row>)
    ensures |DropBlanks(rows)| <= |rows| && DropBlanks(rows) == rows[|rows| - |DropBlanks(rows)|..]
    ensures forall i :: 0 <= i < |rows| - |DropBlanks(rows)| ==> rows[i].blank
    ensures DropBlanks(rows) != [] ==> !DropBlanks(rows)[0].blank
    decreases |rows|
  {
    if rows != [] && rows[0].blank {
      DropBlanksIsSuffix(rows[1..]);
    }
  }

  lemma InnerRowsOf(body: seq<string>)
    requires NoClose(body)
    ensures AllInner(Rows(body))
  {
  }

  lemma WrittenRowIsInner(row: Row, checksum: string)
    requires IsInnerRow(row) && IsHex(checksum)
    ensures IsInnerRow(ShaRow(row.indent, checksum))
  {
    IndentIsBlank(row.text);
    WrittenLineIsRead(row.indent, checksum);
  }

  predicate AllOf(rows: seq<Row>, p: Row -> bool) {
    forall i :: 0 <= i < |rows| ==> p(rows[i])
  }

  lemma AllOfConcat(a: seq<Row>, b: seq<Row>, p: Row -> bool)
    requires AllOf(a, p) && AllOf(b, p)
    ensures AllOf(a + b, p)
  {
  }

  lemma AllOfSlice(rows: seq<Row>, i: nat, j: nat, p: Row -> bool)
    requires AllOf(rows, p) && i <= j <= |rows|
    ensures AllOf(rows[i..j], p)
  {
  }

  lemma ReplacementKeepsAllOf(rows: seq<Row>, checksum: string, p: Row -> bool, h: nat)
    requires AllOf(rows, p) && h < |rows| && p(ShaRow(rows[h].indent, checksum))
    ensures AllOf(WithChecksumAt(rows, h, checksum), p)
  {
    var written := ShaRow(rows[h].indent, checksum);
    var rest := DropBlanks(rows[h + 1..]);
    DropBlanksIsSuffix(rows[h + 1..]);
    assert rest == rows[|rows| - |rest|..|rows|];
    AllOfSlice(rows, |rows| - |rest|, |rows|, p);
    AllOfSlice(rows, 0, h, p);
    AllOfConcat([written], rest, p);
    AllOfConcat(rows[..h], [written] + rest, p);
  }

  lemma InsertionKeepsAllOf(rows: seq<Row>, checksum: string, p: Row -> bool, d: nat)
    requires AllOf(rows, p) && d < |rows| && p(ShaRow(rows[d].indent, checksum))
    ensures AllOf(WithChecksumAfter(rows, d, checksum), p)
  {
    var written := ShaRow(rows[d].indent, checksum);
    var blanks, rest := BlanksAtEnd(rows[..d]), rows[d + 1..];
    assert blanks == rows[d - |blanks|..d];
    AllOfSlice(rows, d - |blanks|, d, p);
    AllOfSlice(rows, 0, d + 1, p);
    AllOfSlice(rows, d + 1, |rows|, p);
    AllOfConcat([written], rest, p);
    AllOfConcat(blanks, [written] + rest, p);
    AllOfConcat(rows[..d + 1], blanks + ([written] + rest), p);
  }

  /** Rewriting only moves rows about and adds the written one. */
  lemma RewriteKeepsAllOf(rows: seq<Row>, checksum: string, p: Row -> bool)
    requires AllOf(rows, p) && Rewrite(rows, checksum).Some?
    requires AllOf(rows, (row: Row) => p(ShaRow(row.indent, checksum)))
    ensures AllOf(Rewrite(rows, checksum).value, p)
  {
    var h, d := HexShaAt(rows), StrictPathAt(rows);
    if h < |rows| {
      ReplacementKeepsAllOf(rows, checksum, p, h);
    } else {
      InsertionKeepsAllOf(rows, checksum, p, d);
    }
  }

  lemma RewriteKeepsInnerRows(rows: seq<Row>, checksum: string)
    requires AllInner(rows) && IsHex(checksum) && Rewrite(rows, checksum).Some?
    ensures AllInner(Rewrite(rows, checksum).value)
  {
    var p := (row: Row) => IsInnerRow(row);
    forall i | 0 <= i < |rows| ensures p(ShaRow(rows[i].indent, checksum)) {
      WrittenRowIsInner(rows[i], checksum);
    }
    RewriteKeepsAllOf(rows, checksum, p);
    var r := Rewrite(rows, checksum).value;
    forall i | 0 <= i < |r| ensures IsInnerRow(r[i]) {
      assert p(r[i]);
    }
  }

  predicate HexManifest(checksums: Manifest) {
    forall f :: f in checksums ==> IsHex(checksums[f])
  }

  lemma BodyRows(body: seq<string>)
    ensures AllPlausible(Rows(body)) && forall i :: 0 <= i < |body| ==> OneField(Rows(body)[i])
  {
    RowsArePlausible(body);
    forall i | 0 <= i < |body| ensures OneField(Rows(body)[i]) {
      ClassifiedHasOneField(body[i]);
    }
  }

  function RowsOf(segment: Segment): seq<Row>
    requires segment.Block?
  {
    Rows(segment.body)
  }

  /** What rewriting one segment keeps and what it changes. */
  lemma RewrittenSegment(segment: Segment, checksums: Manifest, prefix: string)
    requires HexManifest(checksums) && RewriteSegment(segment, checksums, prefix).Some?
    requires segment.Block? ==> NoClose(segment.body)
    ensures var r := RewriteSegment(segment, checksums, prefix).value;
            && IsEntry(r, prefix) == IsEntry(segment, prefix)
            && (!IsEntry(segment, prefix) ==> r == segment)
            && (IsEntry(segment, prefix) ==>
                  && r.close == segment.close && NoClose(r.body)
                  && FindPath(RowsOf(segment)).Some? && FindPath(RowsOf(segment)).value in checksums
                  && Rewrite(RowsOf(segment), checksums[FindPath(RowsOf(segment)).value]) == Some(RowsOf(r))
                  && FindName(RowsOf(r)) == FindName(RowsOf(segment))
                  && FindPath(RowsOf(r)) == FindPath(RowsOf(segment)))
  {
    if IsEntry(segment, prefix) {
      var rows := RowsOf(segment);
      var checksum := checksums[FindPath(rows).value];
      BodyRows(segment.body);
      InnerRowsOf(segment.body);
      RewriteKeepsInnerRows(rows, checksum);
      ReadRows(Rewrite(rows, checksum).value);
      RewriteKeepsNameAndPath(rows, checksum);
    }
  }

  // ----- All segments -----

  /** Every entry's block has its checksum written before any other sha256 field. */
  predicate AllChecksumsComeFirst(segments: seq<Segment>, prefix: string) {
    forall i :: 0 <= i < |segments| && IsEntry(segments[i], prefix) ==> ChecksumComesFirst(RowsOf(segments[i]))
  }

  predicate AllSettle(segments: seq<Segment>, prefix: string) {
    forall i :: 0 <= i < |segments| && IsEntry(segments[i], prefix) ==> Settles(RowsOf(segments[i]))
  }

  predicate SameFiles(a: seq<Entry>, b: seq<Entry>) {
    |a| == |b| && forall i :: 0 <= i < |a| ==> a[i].file == b[i].file
  }

  lemma SameFilesAgree(a: seq<Entry>, b: seq<Entry>, checksums: Manifest)
    requires SameFiles(a, b)
    ensures SetAgrees(a, checksums) <==> SetAgrees(b, checksums)
  {
    assert Files(a) == Files(b) by {
      forall f ensures f in Files(a) <==> f in Files(b) {
        if f in Files(a) {
          var k :| 0 <= k < |a| && a[k].file == f;
          assert b[k].file == f;
        }
        if f in Files(b) {
          var k :| 0 <= k < |b| && b[k].file == f;
          assert a[k].file == f;
        }
      }
    }
  }

  lemma ConsAgrees(first: Entry, more: seq<Entry>, checksums: Manifest)
    ensures ShasAgree([first] + more, checksums) <==> ShaAgrees(first, checksums) && ShasAgree(more, checksums)
  {
    var all := [first] + more;
    assert all[0] == first && forall i :: 0 <= i < |more| ==> all[i + 1] == more[i];
  }

  lemma ConsComesFirst(segments: seq<Segment>, prefix: string)
    requires segments != []
    ensures AllChecksumsComeFirst(segments, prefix) <==>
            (IsEntry(segments[0], prefix) ==> ChecksumComesFirst(RowsOf(segments[0]))) && AllChecksumsComeFirst(segments[1..], prefix)
  {
    assert forall i :: 0 <= i < |segments[1..]| ==> segments[1..][i] == segments[i + 1];
    assert forall i :: 1 <= i < |segments| ==> segments[i] == segments[1..][i - 1];
  }

  lemma ConsSettle(segments: seq<Segment>, prefix: string)
    requires segments != []
    ensures AllSettle(segments, prefix) <==>
            (IsEntry(segments[0], prefix) ==> Settles(RowsOf(segments[0]))) && AllSettle(segments[1..], prefix)
  {
    assert forall i :: 0 <= i < |segments[1..]| ==> segments[1..][i] == segments[i + 1];
    assert forall i :: 1 <= i < |segments| ==> segments[i] == segments[1..][i - 1];
  }

  /** The entry a rewritten block gives. */
  lemma RewrittenEntry(segment: Segment, checksums: Manifest, prefix: string)
    requires HexManifest(checksums) && RewriteSegment(segment, checksums, prefix).Some?
    requires IsEntry(segment, prefix) && NoClose(segment.body)
    ensures var file, rows := FindPath(RowsOf(segment)).value, RowsOf(RewriteSegment(segment, checksums, prefix).value);
            FindSha(rows) == Some(checksums[file]) <==> ChecksumComesFirst(RowsOf(segment))
  {
    RewrittenSegment(segment, checksums, prefix);
    BodyRows(segment.body);
    ChecksumAfterRewrite(RowsOf(segment), checksums[FindPath(RowsOf(segment)).value]);
  }

  function EntryOf(s: Segment): Entry
    requires s.Block? && FindName(RowsOf(s)).Some? && FindPath(RowsOf(s)).Some?
  {
    Entry(FindName(RowsOf(s)).value, FindPath(RowsOf(s)).value, FindSha(RowsOf(s)))
  }

  lemma EntriesCons(s: Segment, more: seq<Segment>, prefix: string)
    ensures !IsEntry(s, prefix) ==> Entries([s] + more, prefix) == Entries(more, prefix)
    ensures IsEntry(s, prefix) && Entries([s] + more, prefix).Some? ==>
              FindPath(RowsOf(s)).Some? && Entries(more, prefix).Some?
    ensures IsEntry(s, prefix) && FindPath(RowsOf(s)).Some? && Entries(more, prefix).Some? ==>
              Entries([s] + more, prefix) == Some([EntryOf(s)] + Entries(more, prefix).value)
  {
    assert ([s] + more)[0] == s && ([s] + more)[1..] == more;
  }

  lemma SameFilesCons(x: Entry, a: seq<Entry>, y: Entry, b: seq<Entry>)
    requires x.file == y.file && SameFiles(a, b)
    ensures SameFiles([x] + a, [y] + b)
  {
  }

  /** The entries of the rewritten segments name the same files, and have the manifest's checksums
      exactly when the checksums come first. */
  predicate EntriesAgree(segments: seq<Segment>, rewritten: seq<Segment>, checksums: Manifest, prefix: string)
    requires Entries(segments, prefix).Some?
  {
    var es, es' := Entries(segments, prefix), Entries(rewritten, prefix);
    && es'.Some? && SameFiles(es.value, es'.value)
    && (ShasAgree(es'.value, checksums) <==> AllChecksumsComeFirst(segments, prefix))
  }

  lemma EntriesAgreeCons(s: Segment, more: seq<Segment>, r: Segment, rest: seq<Segment>, checksums: Manifest, prefix: string)
    requires HexManifest(checksums) && (s.Block? ==> NoClose(s.body))
    requires RewriteSegment(s, checksums, prefix) == Some(r)
    requires Entries([s] + more, prefix).Some? && Entries(more, prefix).Some? && EntriesAgree(more, rest, checksums, prefix)
    ensures EntriesAgree([s] + more, [r] + rest, checksums, prefix)
  {
    RewrittenSegment(s, checksums, prefix);
    EntriesCons(s, more, prefix);
    EntriesCons(r, rest, prefix);
    assert ([s] + more)[0] == s && ([s] + more)[1..] == more;
    ConsComesFirst([s] + more, prefix);
    if IsEntry(s, prefix) {
      RewrittenEntry(s, checksums, prefix);
      SameFilesCons(EntryOf(s), Entries(more, prefix).value, EntryOf(r), Entries(rest, prefix).value);
      ConsAgrees(EntryOf(r), Entries(rest, prefix).value, checksums);
    }
  }

  lemma RewriteSegmentsCons(segments: seq<Segment>, checksums: Manifest, prefix: string) returns (r: Segment, rest: seq<Segment>)
    requires segments != [] && RewriteSegments(segments, checksums, prefix).Some?
    ensures RewriteSegment(segments[0], checksums, prefix) == Some(r)
    ensures RewriteSegments(segments[1..], checksums, prefix) == Some(rest)
    ensures RewriteSegments(segments, checksums, prefix).value == [r] + rest
  {
    r, rest := RewriteSegment(segments[0], checksums, prefix).value, RewriteSegments(segments[1..], checksums, prefix).value;
  }

  lemma {:induction false} RewrittenEntries(segments: seq<Segment>, checksums: Manifest, prefix: string)
    requires HexManifest(checksums) && Canonical(segments)
    requires Entries(segments, prefix).Some? && RewriteSegments(segments, checksums, prefix).Some?
    ensures EntriesAgree(segments, RewriteSegments(segments, checksums, prefix).value, checksums, prefix)
    decreases |segments|
  {
    if segments != [] {
      var s, more := segments[0], segments[1..];
      assert segments == [s] + more;
      var r, rest := RewriteSegmentsCons(segments, checksums, prefix);
      EntriesCons(s, more, prefix);
      RewrittenEntries(more, checksums, prefix);
      EntriesAgreeCons(s, more, r, rest, checksums, prefix);
    }
  }

  lemma {:induction false} RewrittenIsCanonical(segments: seq<Segment>, checksums: Manifest, prefix: string)
    requires HexManifest(checksums) && Canonical(segments) && RewriteSegments(segments, checksums, prefix).Some?
    ensures var r := RewriteSegments(segments, checksums, prefix).value;
            Canonical(r) && (NoClose(Flatten(segments)) ==> r == segments)
    decreases |segments|
  {
    if segments != [] {
      var s, more := segments[0], segments[1..];
      var r, rest := RewriteSegment(s, checksums, prefix).value, RewriteSegments(more, checksums, prefix).value;
      var all := RewriteSegments(segments, checksums, prefix).value;
      assert all[0] == r && all[1..] == rest;
      RewrittenSegment(s, checksums, prefix);
      RewrittenIsCanonical(more, checksums, prefix);
      if NoClose(Flatten(segments)) {
        NoCloseParts(LinesOf(s), Flatten(more));
        BlocksClose(s);
        assert segments == [s] + more;
      }
    }
  }

  lemma NoCloseParts(a: seq<string>, b: seq<string>)
    requires NoClose(a + b)
    ensures NoClose(a) && NoClose(b)
  {
    assert forall i :: 0 <= i < |a| ==> (a + b)[i] == a[i];
    assert forall i :: 0 <= i < |b| ==> (a + b)[|a| + i] == b[i];
  }

  lemma BlocksClose(s: Segment)
    requires NoClose(LinesOf(s))
    ensures s.Block? ==> !Closes(s.close)
  {
    if s.Block? {
      var lines := LinesOf(s);
      assert lines[|lines| - 1] == s.close;
    }
  }

  /** An update whose manifest has hexadecimal checksums: what it writes is read as the rewritten
      segments. */
  lemma UpdatedIsRead(lines: seq<string>, checksums: Manifest, prefix: string)
    requires HexManifest(checksums) && Update(lines, checksums, prefix).Some?
    ensures Segments(Update(lines, checksums, prefix).value) == RewriteSegments(Segments(lines), checksums, prefix).value
  {
    SegmentsSpellTheText(lines);
    RewrittenIsCanonical(Segments(lines), checksums, prefix);
    TextIsReadAsItsSegments(RewriteSegments(Segments(lines), checksums, prefix).value);
  }

  // ----- The theorems -----

  /** After a successful update the check against the same manifest succeeds, exactly when in no
      entry another sha256 field comes before the place the checksum is written to. */
  lemma UpdateMakesCheckPass(lines: seq<string>, checksums: Manifest, prefix: string)
    requires HexManifest(checksums) && Update(lines, checksums, prefix).Some?
    ensures Passes(Update(lines, checksums, prefix).value, checksums, prefix) <==>
            AllChecksumsComeFirst(Segments(lines), prefix)
  {
    var segments := Segments(lines);
    SegmentsSpellTheText(lines);
    UpdatedIsRead(lines, checksums, prefix);
    RewrittenEntries(segments, checksums, prefix);
    var es, es' := Entries(segments, prefix).value, Entries(RewriteSegments(segments, checksums, prefix).value, prefix).value;
    SameFilesAgree(es, es', checksums);
  }

  predicate ShasAreHex(body: seq<string>) {
    forall i :: 0 <= i < |body| && Rows(body)[i].sha.Some? ==> IsHex(Rows(body)[i].sha.value)
  }

  /** In particular it succeeds when every sha256 field of the text is hexadecimal. */
  lemma HexTextPassesAfterUpdate(lines: seq<string>, checksums: Manifest, prefix: string)
    requires HexManifest(checksums) && Update(lines, checksums, prefix).Some?
    requires ShasAreHex(lines)
    ensures Passes(Update(lines, checksums, prefix).value, checksums, prefix)
  {
    var segments := Segments(lines);
    UpdateMakesCheckPass(lines, checksums, prefix);
    SegmentsSpellTheText(lines);
    forall i | 0 <= i < |segments| && IsEntry(segments[i], prefix)
      ensures ChecksumComesFirst(RowsOf(segments[i]))
    {
      LinesOfSegment(segments, i);
      var rows := RowsOf(segments[i]);
      forall k | 0 <= k < |rows| && rows[k].sha.Some? ensures IsHex(rows[k].sha.value) {
        assert segments[i].body[k] in lines;
        var n :| 0 <= n < |lines| && lines[n] == segments[i].body[k];
        assert Rows(lines)[n] == rows[k];
      }
      HexShasAreEnough(rows);
    }
  }

  lemma {:induction false} LinesOfSegment(segments: seq<Segment>, i: nat)
    requires i < |segments| && segments[i].Block?
    ensures forall k :: 0 <= k < |segments[i].body| ==> segments[i].body[k] in Flatten(segments)
    decreases |segments|
  {
    if i == 0 {
      var body := segments[0].body;
      forall k | 0 <= k < |body| ensures body[k] in Flatten(segments) {
        assert Flatten(segments)[k + 1] == body[k];
      }
    } else {
      LinesOfSegment(segments[1..], i - 1);
      assert segments[1..][i - 1] == segments[i];
    }
  }

  /** Rewriting the rewritten segments. */
  lemma {:induction false} SegmentsTwice(segments: seq<Segment>, checksums: Manifest, prefix: string)
    requires HexManifest(checksums) && Canonical(segments) && RewriteSegments(segments, checksums, prefix).Some?
    ensures var once := RewriteSegments(segments, checksums, prefix).value;
            var twice := RewriteSegments(once, checksums, prefix);
            && twice.Some?
            && |Flatten(twice.value)| <= |Flatten(once)|
            && (|Flatten(twice.value)| == |Flatten(once)| <==> AllSettle(segments, prefix))
            && (AllSettle(segments, prefix) ==> twice.value == once)
    decreases |segments|
  {
    if segments != [] {
      var s, more := segments[0], segments[1..];
      var r, rest := RewriteSegment(s, checksums, prefix).value, RewriteSegments(more, checksums, prefix).value;
      var once := RewriteSegments(segments, checksums, prefix).value;
      assert once[0] == r && once[1..] == rest;
      SegmentTwice(s, checksums, prefix);
      SegmentsTwice(more, checksums, prefix);
      ConsSettle(segments, prefix);
      var twice := RewriteSegments(once, checksums, prefix).value;
      assert twice[1..] == RewriteSegments(rest, checksums, prefix).value;
    }
  }

  lemma SegmentTwice(s: Segment, checksums: Manifest, prefix: string)
    requires HexManifest(checksums) && RewriteSegment(s, checksums, prefix).Some?
    requires s.Block? ==> NoClose(s.body)
    ensures var once := RewriteSegment(s, checksums, prefix).value;
            var twice := RewriteSegment(once, checksums, prefix);
            var settled := IsEntry(s, prefix) ==> Settles(RowsOf(s));
            && twice.Some?
            && |LinesOf(twice.value)| <= |LinesOf(once)|
            && (|LinesOf(twice.value)| == |LinesOf(once)| <==> settled)
            && (settled ==> twice.value == once)
  {
    RewrittenSegment(s, checksums, prefix);
    var once := RewriteSegment(s, checksums, prefix).value;
    if IsEntry(s, prefix) {
      var rows, checksum := RowsOf(s), checksums[FindPath(RowsOf(s)).value];
      BodyRows(s.body);
      RewriteTwice(rows, checksum);
      assert Texts(RowsOf(once)) == once.body;
    }
  }

  /** A second update succeeds and changes nothing, exactly when in no entry a checksum was put
      between the path line and a blank line (the second update would remove that blank line). */
  lemma SecondUpdateChangesNothing(lines: seq<string>, checksums: Manifest, prefix: string)
    requires HexManifest(checksums) && Update(lines, checksums, prefix).Some?
    ensures var once := Update(lines, checksums, prefix).value;
            Update(once, checksums, prefix) == Some(once) <==> AllSettle(Segments(lines), prefix)
  {
    var segments := Segments(lines);
    SegmentsSpellTheText(lines);
    UpdatedIsRead(lines, checksums, prefix);
    SegmentsTwice(segments, checksums, prefix);
    RewrittenEntries(segments, checksums, prefix);
    SameFilesAgree(Entries(segments, prefix).value,
                   Entries(RewriteSegments(segments, checksums, prefix).value, prefix).value, checksums);
  }

  lemma {:induction false} RewrittenAt(segments: seq<Segment>, checksums: Manifest, prefix: string, i: nat)
    requires RewriteSegments(segments, checksums, prefix).Some? && i < |segments|
    ensures var r := RewriteSegments(segments, checksums, prefix).value;
            |r| == |segments| && RewriteSegment(segments[i], checksums, prefix) == Some(r[i])
    decreases |segments|
  {
    if i > 0 {
      RewrittenAt(segments[1..], checksums, prefix, i - 1);
    } else if |segments| > 1 {
      RewrittenAt(segments[1..], checksums, prefix, 0);
    } else {
      assert segments[1..] == [];
    }
  }

  lemma {:induction false} CanonicalAt(segments: seq<Segment>, i: nat)
    requires Canonical(segments) && i < |segments|
    ensures segments[i].Block? ==> NoClose(segments[i].body)
    decreases |segments|
  {
    if i > 0 {
      CanonicalAt(segments[1..], i - 1);
    }
  }

  /** What an update may do to a block: change its sha256 fields and blank lines. */
  predicate SameOtherLines(before: Segment, after: Segment) {
    && before.Block? && after.Block? && after.close == before.close
    && Essential(RowsOf(after)) == Essential(RowsOf(before))
  }

  /** An update leaves every line outside the entries' blocks as it was, and within them every
      line that is neither blank nor a sha256 field. */
  lemma UpdateTouchesOnlyChecksums(lines: seq<string>, checksums: Manifest, prefix: string, i: nat)
    requires HexManifest(checksums) && Update(lines, checksums, prefix).Some? && i < |Segments(lines)|
    ensures var before, after := Segments(lines), Segments(Update(lines, checksums, prefix).value);
            && Flatten(before) == lines && |after| == |before|
            && (if IsEntry(before[i], prefix) then SameOtherLines(before[i], after[i]) else after[i] == before[i])
  {
    var before := Segments(lines);
    SegmentsSpellTheText(lines);
    UpdatedIsRead(lines, checksums, prefix);
    RewrittenAt(before, checksums, prefix, i);
    CanonicalAt(before, i);
    RewrittenSegment(before[i], checksums, prefix);
    if IsEntry(before[i], prefix) {
      var rows := RowsOf(before[i]);
      RewriteKeepsTheOtherLines(rows, checksums[FindPath(rows).value]);
    }
  }
}
