/** What the scanner makes of an added line and of a path, said without its own definitions. */
module DiffNormalized {
  import opened Common
  import opened TextRuns
  import opened DiffScanner

  // ----- Tidy texts -----

  /** No blank at either end, no two together, and no other blank than a space. */
  predicate Tidy(s: string) {
    && (s != [] ==> !IsWhitespace(s[0]) && !IsWhitespace(s[|s| - 1]))
    && (forall i :: 0 <= i < |s| && IsWhitespace(s[i]) ==> s[i] == ' ')
    && (forall i :: 1 <= i < |s| ==> !(IsWhitespace(s[i - 1]) && IsWhitespace(s[i])))
  }

  /** What comes before the last letter of a tidy text. */
  predicate EndsAfter(s: string, front: string, separated: bool) {
    && Tidy(front) && |front| < |s| && !IsWhitespace(s[|s| - 1])
    && s == front + (if separated then " " else "") + [s[|s| - 1]]
    && Marked(s, IsWhitespace) == Marked(front, IsWhitespace) + [Mark(s[|s| - 1], separated)]
  }

  lemma TidyEnd(s: string) returns (front: string, separated: bool)
    requires Tidy(s) && s != []
    ensures EndsAfter(s, front, separated)
  {
    var n := |s| - 1;
    separated := n > 0 && IsWhitespace(s[n - 1]);
    assert s == s[..n] + [s[n]];
    MarkedAppend(s[..n], s[n], IsWhitespace);
    if separated {
      front := SeparatedEnd(s);
    } else {
      front := s[..n];
      assert s[..n] + "" == s[..n];
    }
  }

  lemma SeparatedEnd(s: string) returns (front: string)
    requires Tidy(s) && |s| > 1 && IsWhitespace(s[|s| - 2])
    ensures EndsAfter(s, front, true)
  {
    var n := |s| - 1;
    front := s[..n - 1];
    assert s[n - 1] == ' ' && s[..n] == front + " " && s == s[..n] + [s[n]];
    assert front != [];
    MarkedAppend(front, ' ', IsWhitespace);
    MarkedAppend(s[..n], s[n], IsWhitespace);
    if Marked(front, IsWhitespace) == [] {
      NoMarksStartBlank(front, IsWhitespace);
    }
  }

  /** A tidy text is determined by its letters and breaks. */
  lemma {:induction false} TidyIsUnique(a: string, b: string)
    requires Tidy(a) && Tidy(b) && Marked(a, IsWhitespace) == Marked(b, IsWhitespace)
    ensures a == b
    decreases |a|
  {
    if a == [] || b == [] {
      if a != [] {
        var front, separated := TidyEnd(a);
      }
      if b != [] {
        var front, separated := TidyEnd(b);
      }
    } else {
      var x, p := TidyEnd(a);
      var y, q := TidyEnd(b);
      SameEnds(Marked(x, IsWhitespace), Marked(y, IsWhitespace), Mark(a[|a| - 1], p), Mark(b[|b| - 1], q));
      TidyIsUnique(x, y);
    }
  }

  lemma SameEnds<T>(a: seq<T>, b: seq<T>, x: T, y: T)
    requires a + [x] == b + [y]
    ensures a == b && x == y
  {
    AppendThenTake(a, x);
    AppendThenTake(b, y);
  }

  lemma {:induction false} JoinAppend(words: seq<string>, w: string)
    ensures JoinWords(words + [w]) == if words == [] then w else JoinWords(words) + " " + w
    decreases |words|
  {
    if words == [] {
      assert words + [w] == [w];
    } else {
      assert (words + [w])[0] == words[0] && (words + [w])[1..] == words[1..] + [w];
      JoinAppend(words[1..], w);
    }
  }

  /** Joining keeps letters and breaks, and gives a tidy text. */
  lemma {:induction false} JoinKeepsMarks(words: seq<string>)
    requires AreWords(words, IsWhitespace)
    ensures Marked(JoinWords(words), IsWhitespace) == MarksOfWords(words) && Tidy(JoinWords(words))
    ensures JoinWords(words) == [] <==> words == []
    decreases |words|
  {
    if words != [] {
      var n := |words| - 1;
      var front, w := words[..n], words[n];
      assert words == front + [w];
      JoinKeepsMarks(front);
      JoinAppend(front, w);
      MarksOfWordsAppend(front, w);
      MarksOfSomeWords(front, IsWhitespace);
      var before := if front == [] then [] else JoinWords(front) + " ";
      assert JoinWords(words) == before + w;
      MarkedWord(before, w, IsWhitespace);
      if front != [] {
        MarkedAppend(JoinWords(front), ' ', IsWhitespace);
        TidyLonger(JoinWords(front), w);
      }
    }
  }

  lemma TidyLonger(s: string, w: string)
    requires Tidy(s) && s != [] && IsWord(w, IsWhitespace)
    ensures Tidy(s + " " + w)
  {
  }

  lemma {:induction false} WordsOfWord(w: string, rest: string, word: string)
    requires forall i :: 0 <= i < |w| ==> !IsWhitespace(w[i])
    requires word + w != []
    ensures WordsFrom(w + " " + rest, word) == [word + w] + WordsFrom(rest, [])
    decreases |w|
  {
    var s := w + " " + rest;
    if w == [] {
      assert s[0] == ' ' && s[1..] == rest && word + w == word;
    } else {
      assert s[0] == w[0] && s[1..] == w[1..] + " " + rest;
      WordsOfWord(w[1..], rest, word + [w[0]]);
      assert (word + [w[0]]) + w[1..] == word + w;
    }
  }

  lemma {:induction false} OneWord(w: string, word: string)
    requires forall i :: 0 <= i < |w| ==> !IsWhitespace(w[i])
    requires word + w != []
    ensures WordsFrom(w, word) == [word + w]
    decreases |w|
  {
    if w == [] {
      assert word + w == word;
    } else {
      OneWord(w[1..], word + [w[0]]);
      assert (word + [w[0]]) + w[1..] == word + w;
    }
  }

  /** Splitting undoes joining. */
  lemma {:induction false} SplitJoined(words: seq<string>)
    requires AreWords(words, IsWhitespace)
    ensures WordsFrom(JoinWords(words), []) == words
    decreases |words|
  {
    if words != [] {
      assert IsWord(words[0], IsWhitespace) && [] + words[0] == words[0];
      if |words| == 1 {
        OneWord(words[0], []);
      } else {
        SplitJoined(words[1..]);
        WordsOfWord(words[0], JoinWords(words[1..]), []);
      }
    }
  }

  lemma {:induction false} WordsAreRuns(s: string, word: string)
    ensures WordsFrom(s, word) == RunsFrom(s, word, IsWhitespace)
    decreases |s|
  {
    if s != [] {
      WordsAreRuns(s[1..], if IsWhitespace(s[0]) then [] else word + [s[0]]);
    }
  }

  // ----- Bytes -----

  function AtLeast(s: string, c: char): nat {
    if s == [] then 0 else (if s[0] >= c then 1 else 0) + AtLeast(s[1..], c)
  }

  /** One byte per character, and one more from U+0080, from U+0800 and from U+10000 on. */
  function Bytes(s: string): nat {
    |s| + AtLeast(s, '\U{80}') + AtLeast(s, '\U{800}') + AtLeast(s, '\U{10000}')
  }

  lemma {:induction false} ByteLengthIsBytes(s: string)
    ensures ByteLength(s) == Bytes(s)
  {
    if s != [] {
      ByteLengthIsBytes(s[1..]);
    }
  }

  // ----- The theorems -----

  predicate SaysSomething(s: string, alphanumeric: char -> bool) {
    exists i :: 0 <= i < |s| && (alphanumeric(s[i]) || s[i] == '_')
  }

  /** The normalised line is the one tidy text with the letters and breaks of the line; there is
      none if and only if that text has at most three bytes or holds no alphanumeric character
      and no underscore. */
  lemma NormalizedLineIs(line: string, alphanumeric: char -> bool) returns (text: string)
    ensures Tidy(text) && Marked(text, IsWhitespace) == Marked(line, IsWhitespace)
    ensures forall other :: Tidy(other) && Marked(other, IsWhitespace) == Marked(line, IsWhitespace) ==> other == text
    ensures NormalizeLine(line, alphanumeric) ==
            if Bytes(text) <= 3 || !SaysSomething(text, alphanumeric) then None else Some(text)
  {
    text := JoinWords(WordsFrom(line, []));
    NormalIsTidy(line);
    forall other | Tidy(other) && Marked(other, IsWhitespace) == Marked(line, IsWhitespace) ensures other == text {
      TidyIsUnique(other, text);
    }
    ByteLengthIsBytes(text);
  }

  lemma NormalIsTidy(line: string)
    ensures var words := WordsFrom(line, []);
            AreWords(words, IsWhitespace) && Tidy(JoinWords(words)) && Marked(JoinWords(words), IsWhitespace) == Marked(line, IsWhitespace)
  {
    var words := WordsFrom(line, []);
    WordsAreRuns(line, []);
    RunsKeepMarks(line, IsWhitespace);
    JoinKeepsMarks(words);
  }

  /** Normalising is idempotent. */
  lemma NormalisingIsIdempotent(line: string, alphanumeric: char -> bool)
    requires NormalizeLine(line, alphanumeric).Some?
    ensures NormalizeLine(NormalizeLine(line, alphanumeric).value, alphanumeric) == NormalizeLine(line, alphanumeric)
  {
    var once := NormalizedLineIs(line, alphanumeric);
    var twice := NormalizedLineIs(once, alphanumeric);
    assert once == twice;
  }

  /** Two lines that are normalised at all are normalised alike if and only if they have the same
      letters and breaks, which is to say the same maximal runs of non-blank characters. */
  lemma NormalisedAlikeExactlyWhen(a: string, b: string, alphanumeric: char -> bool)
    requires NormalizeLine(a, alphanumeric).Some? && NormalizeLine(b, alphanumeric).Some?
    ensures NormalizeLine(a, alphanumeric) == NormalizeLine(b, alphanumeric) <==> Marked(a, IsWhitespace) == Marked(b, IsWhitespace)
    ensures Marked(a, IsWhitespace) == Marked(b, IsWhitespace) <==> WordsFrom(a, []) == WordsFrom(b, [])
  {
    var x := NormalizedLineIs(a, alphanumeric);
    var y := NormalizedLineIs(b, alphanumeric);
    SameWordsExactlyWhen(a, b);
  }

  lemma SameWordsExactlyWhen(a: string, b: string)
    ensures Marked(a, IsWhitespace) == Marked(b, IsWhitespace) <==> WordsFrom(a, []) == WordsFrom(b, [])
  {
    NormalIsTidy(a);
    NormalIsTidy(b);
    SplitJoined(WordsFrom(a, []));
    SplitJoined(WordsFrom(b, []));
    if Marked(a, IsWhitespace) == Marked(b, IsWhitespace) {
      TidyIsUnique(JoinWords(WordsFrom(a, [])), JoinWords(WordsFrom(b, [])));
    }
  }

  // ----- Paths -----

  predicate AllWhitespace(s: string) {
    forall i :: 0 <= i < |s| ==> IsWhitespace(s[i])
  }

  lemma {:induction false} TrimStartIs(s: string) returns (blanks: string)
    ensures s == blanks + TrimStart(s) && AllWhitespace(blanks)
    ensures TrimStart(s) != [] ==> !IsWhitespace(TrimStart(s)[0])
  {
    blanks := [];
    if s != [] && IsWhitespace(s[0]) {
      var more := TrimStartIs(s[1..]);
      blanks := [s[0]] + more;
      assert s == [s[0]] + s[1..];
    }
  }

  lemma {:induction false} TrimEndIs(s: string) returns (blanks: string)
    ensures s == TrimEnd(s) + blanks && AllWhitespace(blanks)
    ensures TrimEnd(s) != [] ==> !IsWhitespace(TrimEnd(s)[|TrimEnd(s)| - 1])
  {
    blanks := [];
    if s != [] && IsWhitespace(s[|s| - 1]) {
      var n := |s| - 1;
      var more := TrimEndIs(s[..n]);
      blanks := more + [s[n]];
      assert s == s[..n] + [s[n]];
    }
  }

  /** The path read from a header is what stands between the blanks around it, without a leading
      `b/` or `a/`; only /dev/null is none. */
  lemma NormalizedPathIs(raw: string) returns (before: string, path: string, after: string)
    ensures raw == before + path + after && AllWhitespace(before) && AllWhitespace(after)
    ensures path != [] ==> !IsWhitespace(path[0]) && !IsWhitespace(path[|path| - 1])
    ensures NormalizePath(raw).None? <==> path == "/dev/null"
    ensures NormalizePath(raw).Some? ==>
              var name := NormalizePath(raw).value;
              "b/" + name == path || "a/" + name == path || (name == path && !("b/" <= path) && !("a/" <= path))
  {
    before := TrimStartIs(raw);
    after := TrimEndIs(TrimStart(raw));
    path := TrimEnd(TrimStart(raw));
    if "b/" <= path {
      assert path == "b/" + path[2..];
    } else if "a/" <= path {
      assert path == "a/" + path[2..];
    }
  }
}
