/** The maximal runs of a text's non-blank characters, for any notion of blank. */
module TextRuns {
  import opened Common

  // ----- Letters and breaks -----

  /** A non-blank character, and whether blanks stood between it and the one before it. */
  datatype Mark = Mark(letter: char, separated: bool)

  function Marked(s: string, blank: char -> bool): seq<Mark> {
    if s == [] then []
    else
      var n := |s| - 1;
      var front := Marked(s[..n], blank);
      if blank(s[n]) then front
      else front + [Mark(s[n], n > 0 && front != [] && blank(s[n - 1]))]
  }

  lemma {:induction false} MarkedAppend(s: string, c: char, blank: char -> bool)
    ensures Marked(s + [c], blank) ==
            if blank(c) then Marked(s, blank) else Marked(s, blank) + [Mark(c, Marked(s, blank) != [] && blank(s[|s| - 1]))]
  {
    var t := s + [c];
    assert t[|t| - 1] == c && t[..|t| - 1] == s;
    assert s != [] ==> t[|t| - 2] == s[|s| - 1];
  }

  lemma {:induction false} NoMarksStartBlank(s: string, blank: char -> bool)
    requires s != [] && Marked(s, blank) == []
    ensures blank(s[0])
    decreases |s|
  {
    if |s| > 1 {
      NoMarksStartBlank(s[..|s| - 1], blank);
    }
  }

  // ----- Runs -----

  /** The runs of non-blank characters; `word` is the one being read. */
  function RunsFrom(s: string, word: string, blank: char -> bool): seq<string>
    decreases |s|
  {
    if s == [] then (if word == [] then [] else [word])
    else if blank(s[0]) then (if word == [] then [] else [word]) + RunsFrom(s[1..], [], blank)
    else RunsFrom(s[1..], word + [s[0]], blank)
  }

  predicate IsWord(w: string, blank: char -> bool) {
    w != [] && forall i :: 0 <= i < |w| ==> !blank(w[i])
  }

  predicate AreWords(words: seq<string>, blank: char -> bool) {
    forall i :: 0 <= i < |words| ==> IsWord(words[i], blank)
  }

  function MarksOfWord(w: string, separated: bool): seq<Mark> {
    seq(|w|, i requires 0 <= i < |w| => Mark(w[i], i == 0 && separated))
  }

  function MarksOfWords(words: seq<string>): seq<Mark> {
    if words == [] then []
    else
      var n := |words| - 1;
      MarksOfWords(words[..n]) + MarksOfWord(words[n], n > 0)
  }

  lemma {:induction false} MarksOfWordsAppend(words: seq<string>, w: string)
    ensures MarksOfWords(words + [w]) == MarksOfWords(words) + MarksOfWord(w, words != [])
  {
    AppendThenTake(words, w);
  }

  lemma {:induction false} MarksOfSomeWords(words: seq<string>, blank: char -> bool)
    requires AreWords(words, blank)
    ensures MarksOfWords(words) == [] <==> words == []
  {
    if words != [] {
      assert IsWord(words[|words| - 1], blank);
    }
  }

  lemma {:induction false} MarksOfLongerWord(w: string, c: char, separated: bool)
    requires w != []
    ensures MarksOfWord(w + [c], separated) == MarksOfWord(w, separated) + [Mark(c, false)]
  {
  }

  /** Where the splitting stands after `read`: finished words, and the one being read. */
  predicate SplitSoFar(read: string, words: seq<string>, word: string, blank: char -> bool) {
    && AreWords(words, blank) && (word != [] ==> IsWord(word, blank))
    && Marked(read, blank) == MarksOfWords(if word == [] then words else words + [word])
    && (read != [] ==> (word == [] <==> blank(read[|read| - 1])))
    && (read == [] ==> words == [] && word == [])
  }

  lemma {:induction false} SplitBlank(read: string, words: seq<string>, word: string, c: char, blank: char -> bool)
    requires SplitSoFar(read, words, word, blank) && blank(c)
    ensures SplitSoFar(read + [c], if word == [] then words else words + [word], [], blank)
  {
    MarkedAppend(read, c, blank);
  }

  lemma {:induction false} SplitFirstLetter(read: string, words: seq<string>, c: char, blank: char -> bool)
    requires SplitSoFar(read, words, [], blank) && !blank(c)
    ensures SplitSoFar(read + [c], words, [c], blank)
  {
    MarkedAppend(read, c, blank);
    MarksOfSomeWords(words, blank);
    MarksOfWordsAppend(words, [c]);
    assert MarksOfWord([c], words != []) == [Mark(c, words != [])];
  }

  lemma {:induction false} SplitLetter(read: string, words: seq<string>, word: string, c: char, blank: char -> bool)
    requires SplitSoFar(read, words, word, blank) && word != [] && !blank(c)
    ensures SplitSoFar(read + [c], words, word + [c], blank)
  {
    LetterAfterLetter(read, c, blank);
    MarksOfWordsAppend(words, word);
    MarksOfWordsAppend(words, word + [c]);
    MarksOfLongerWord(word, c, words != []);
    Regroup(MarksOfWords(words), MarksOfWord(word, words != []), [Mark(c, false)]);
  }

  /** One character further. */
  lemma {:induction false} SplitOne(read: string, words: seq<string>, word: string, c: char, rest: string, blank: char -> bool) returns (words': seq<string>, word': string)
    requires SplitSoFar(read, words, word, blank)
    ensures SplitSoFar(read + [c], words', word', blank)
    ensures words + RunsFrom([c] + rest, word, blank) == words' + RunsFrom(rest, word', blank)
  {
    assert ([c] + rest)[0] == c && ([c] + rest)[1..] == rest;
    if blank(c) {
      SplitBlank(read, words, word, c, blank);
      words', word' := if word == [] then words else words + [word], [];
    } else {
      if word == [] {
        SplitFirstLetter(read, words, c, blank);
      } else {
        SplitLetter(read, words, word, c, blank);
      }
      words', word' := words, word + [c];
    }
  }

  /** Splitting keeps letters and breaks. */
  lemma {:induction false} SplitKeepsMarks(read: string, words: seq<string>, word: string, rest: string, blank: char -> bool)
    requires SplitSoFar(read, words, word, blank)
    ensures AreWords(words + RunsFrom(rest, word, blank), blank) && MarksOfWords(words + RunsFrom(rest, word, blank)) == Marked(read + rest, blank)
    decreases |rest|
  {
    if rest == [] {
      SplitEnd(read, words, word, blank);
    } else {
      var words', word' := SplitOne(read, words, word, rest[0], rest[1..], blank);
      SplitKeepsMarks(read + [rest[0]], words', word', rest[1..], blank);
      assert [rest[0]] + rest[1..] == rest;
      assert read + rest == (read + [rest[0]]) + rest[1..];
    }
  }

  lemma {:induction false} SplitEnd(read: string, words: seq<string>, word: string, blank: char -> bool)
    requires SplitSoFar(read, words, word, blank)
    ensures AreWords(words + RunsFrom([], word, blank), blank) && MarksOfWords(words + RunsFrom([], word, blank)) == Marked(read + [], blank)
  {
    assert read + [] == read;
    assert words + [] == words;
  }

  lemma {:induction false} MarkedLetter(s: string, c: char, blank: char -> bool)
    requires !blank(c) && (s == [] || blank(s[|s| - 1]))
    ensures Marked(s + [c], blank) == Marked(s, blank) + MarksOfWord([c], Marked(s, blank) != [])
  {
    MarkedAppend(s, c, blank);
    assert MarksOfWord([c], Marked(s, blank) != []) == [Mark(c, Marked(s, blank) != [])];
  }

  lemma {:induction false} LetterAfterLetter(s: string, c: char, blank: char -> bool)
    requires s != [] && !blank(s[|s| - 1]) && !blank(c)
    ensures Marked(s + [c], blank) == Marked(s, blank) + [Mark(c, false)]
  {
    MarkedAppend(s, c, blank);
  }

  lemma {:induction false} Regroup<T>(a: seq<T>, b: seq<T>, c: seq<T>)
    ensures (a + b) + c == a + (b + c)
  {
  }

  lemma {:induction false} MarkedLonger(s: string, w: string, c: char, blank: char -> bool)
    requires IsWord(w, blank) && !blank(c) && Marked(s + w, blank) == Marked(s, blank) + MarksOfWord(w, Marked(s, blank) != [])
    ensures Marked(s + w + [c], blank) == Marked(s, blank) + MarksOfWord(w + [c], Marked(s, blank) != [])
  {
    LetterAfterLetter(s + w, c, blank);
    MarksOfLongerWord(w, c, Marked(s, blank) != []);
    Regroup(Marked(s, blank), MarksOfWord(w, Marked(s, blank) != []), [Mark(c, false)]);
  }

  lemma {:induction false} MarkedWord(s: string, w: string, blank: char -> bool)
    requires IsWord(w, blank) && (s == [] || blank(s[|s| - 1]))
    ensures Marked(s + w, blank) == Marked(s, blank) + MarksOfWord(w, Marked(s, blank) != [])
    decreases |w|
  {
    if |w| == 1 {
      MarkedLetter(s, w[0], blank);
      assert w == [w[0]];
    } else {
      var front, c := w[..|w| - 1], w[|w| - 1];
      MarkedWord(s, front, blank);
      MarkedLonger(s, front, c, blank);
      assert front + [c] == w;
      assert s + front + [c] == s + w;
    }
  }

  /** A text's runs hold its letters and breaks. */
  lemma {:induction false} RunsKeepMarks(s: string, blank: char -> bool)
    ensures AreWords(RunsFrom(s, [], blank), blank) && MarksOfWords(RunsFrom(s, [], blank)) == Marked(s, blank)
  {
    SplitKeepsMarks([], [], [], s, blank);
    assert [] + RunsFrom(s, [], blank) == RunsFrom(s, [], blank) && [] + s == s;
  }
}
