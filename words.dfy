/** Words of a line and the two derivations between a character offset and a
    word index, as the reading cursor of the invisinote plugin uses them.

    A word is a maximal run of non-whitespace characters (what the regular
    expression `\S+` matches), recorded with its text and its [start, end)
    offsets in the line. */
module LineWords {

  /** The characters Python's `str.isspace()` accepts, which is the class `\s`
      of the `re` module for str patterns: the ASCII controls TAB..CR and
      FS..US, SPACE, NEL, NO-BREAK SPACE, OGHAM SPACE MARK, EN QUAD..HAIR SPACE,
      LINE and PARAGRAPH SEPARATOR, NARROW NO-BREAK SPACE, MEDIUM MATHEMATICAL
      SPACE and IDEOGRAPHIC SPACE. */
  predicate IsWhitespace(c: char)
    ensures c == ' ' || c == '\t' || c == '\n' || c == '\r' ==> IsWhitespace(c)
    ensures '0' <= c <= '9' || 'A' <= c <= 'Z' || 'a' <= c <= 'z' || c == '_' ==> !IsWhitespace(c)
    ensures IsWhitespace(c) ==> c as int <= 0x3000
  {
    var n := c as int;
    || 0x09 <= n <= 0x0D
    || 0x1C <= n <= 0x20
    || n == 0x85 || n == 0xA0 || n == 0x1680
    || 0x2000 <= n <= 0x200A
    || n == 0x2028 || n == 0x2029 || n == 0x202F || n == 0x205F || n == 0x3000
  }

  /** One match of `\S+`: the matched text and its [start, end) offsets. */
  datatype Word = Word(text: string, start: nat, end: nat)

  /** Offset j lies inside w. */
  predicate Covers(w: Word, j: int) {
    w.start <= j < w.end
  }

  /** Some word of ws lies over offset j. */
  predicate Covered(ws: seq<Word>, j: int) {
    exists k :: 0 <= k < |ws| && Covers(ws[k], j)
  }

  /** line[s..e] holds no whitespace character. */
  predicate NoWhitespace(line: string, s: nat, e: nat)
    requires s <= e <= |line|
  {
    forall k :: s <= k < e ==> !IsWhitespace(line[k])
  }

  /** w is a maximal run of non-whitespace characters of line: non-empty, its
      text is the slice it spans, and neither neighbour extends it. */
  predicate IsMaximalRun(line: string, w: Word) {
    && w.start < w.end <= |line|
    && w.text == line[w.start..w.end]
    && NoWhitespace(line, w.start, w.end)
    && (w.start == 0 || IsWhitespace(line[w.start - 1]))
    && (w.end == |line| || IsWhitespace(line[w.end]))
  }

  /** Every word of ws is a maximal run of line starting at or after from. */
  predicate MaximalRunsFrom(line: string, from: nat, ws: seq<Word>) {
    forall k :: 0 <= k < |ws| ==> from <= ws[k].start && IsMaximalRun(line, ws[k])
  }

  /** The words of ws come left to right, each ending before the next starts. */
  predicate StrictlyOrdered(ws: seq<Word>) {
    forall k, l :: 0 <= k < l < |ws| ==> ws[k].end < ws[l].start
  }

  /** A character of line at or after from is non-whitespace exactly when
      some word of ws covers it. */
  predicate CoversNonWhitespace(line: string, from: nat, ws: seq<Word>) {
    forall j :: from <= j < |line| ==> (!IsWhitespace(line[j]) <==> Covered(ws, j))
  }

  /** ws lists, left to right, exactly the maximal runs of line that start at
      or after offset from. */
  predicate IsSplitFrom(line: string, from: nat, ws: seq<Word>) {
    && MaximalRunsFrom(line, from, ws)
    && StrictlyOrdered(ws)
    && CoversNonWhitespace(line, from, ws)
  }

  /** The offset where the run of non-whitespace characters at i stops. */
  function RunEnd(line: string, i: nat): (e: nat)
    requires i <= |line|
    ensures i <= e <= |line|
    ensures NoWhitespace(line, i, e)
    ensures e == |line| || IsWhitespace(line[e])
    decreases |line| - i
  {
    if i == |line| || IsWhitespace(line[i]) then i else RunEnd(line, i + 1)
  }

  /** Offset i does not fall strictly inside a run of non-whitespace characters. */
  predicate AtRunBoundary(line: string, i: nat)
    requires i <= |line|
  {
    i == 0 || i == |line| || IsWhitespace(line[i - 1]) || IsWhitespace(line[i])
  }

  /** The matches of `\S+` in line at or after offset i, in the order a
      left-to-right scan finds them: maximal runs, strictly ordered. That
      they cover every non-whitespace character is WordsFromCovers. */
  function WordsFrom(line: string, i: nat): (ws: seq<Word>)
    requires i <= |line| && AtRunBoundary(line, i)
    ensures MaximalRunsFrom(line, i, ws) && StrictlyOrdered(ws)
    decreases |line| - i
  {
    if i == |line| then []
    else if IsWhitespace(line[i]) then
      WordsFrom(line, i + 1)
    else
      var e := RunEnd(line, i + 1);
      var w := Word(line[i..e], i, e);
      var rest := WordsFrom(line, e);
      assert IsMaximalRun(line, w);
      forall l | 0 <= l < |rest|
        ensures e < rest[l].start
      {
        StartIsNonWhitespace(line, e, rest, l);
      }
      ConsIsMaximalRuns(line, i, e, w, rest);
      ConsIsOrdered(e, w, rest);
      [w] + rest
  }

  /** Every non-whitespace character at or after i is covered by one of the
      words the scan from i finds, and no whitespace character is. */
  lemma {:induction false} WordsFromCovers(line: string, i: nat)
    requires i <= |line| && AtRunBoundary(line, i)
    ensures CoversNonWhitespace(line, i, WordsFrom(line, i))
    decreases |line| - i
  {
    if i == |line| {
    } else if IsWhitespace(line[i]) {
      WordsFromCovers(line, i + 1);
    } else {
      var e := RunEnd(line, i + 1);
      WordsFromCovers(line, e);
      ConsCovers(line, i, e, Word(line[i..e], i, e), WordsFrom(line, e));
    }
  }

  /** Putting a maximal run starting at i in front keeps every word a maximal run. */
  lemma ConsIsMaximalRuns(line: string, i: nat, e: nat, w: Word, rest: seq<Word>)
    requires i <= e && w.start == i && IsMaximalRun(line, w)
    requires MaximalRunsFrom(line, e, rest)
    ensures MaximalRunsFrom(line, i, [w] + rest)
  {
    var ws := [w] + rest;
    forall k | 0 <= k < |ws|
      ensures i <= ws[k].start && IsMaximalRun(line, ws[k])
    {
      if k > 0 { assert ws[k] == rest[k - 1]; }
    }
  }

  /** A word that ends before every word of an ordered list can go in front of it. */
  lemma ConsIsOrdered(e: nat, w: Word, rest: seq<Word>)
    requires w.end == e && StrictlyOrdered(rest)
    requires forall l :: 0 <= l < |rest| ==> e < rest[l].start
    ensures StrictlyOrdered([w] + rest)
  {
    var ws := [w] + rest;
    forall k, l | 0 <= k < l < |ws|
      ensures ws[k].end < ws[l].start
    {
      assert ws[l] == rest[l - 1];
      if k > 0 { assert ws[k] == rest[k - 1]; }
    }
  }

  /** A run [i, e) in front of a split from e covers the non-whitespace from i. */
  lemma ConsCovers(line: string, i: nat, e: nat, w: Word, rest: seq<Word>)
    requires i <= e <= |line| && w.start == i && w.end == e && NoWhitespace(line, i, e)
    requires CoversNonWhitespace(line, e, rest)
    ensures CoversNonWhitespace(line, i, [w] + rest)
  {
    var ws := [w] + rest;
    forall j | i <= j < |line|
      ensures !IsWhitespace(line[j]) <==> Covered(ws, j)
    {
      if j < e {
        assert Covers(ws[0], j);
      } else {
        if Covered(ws, j) {
          var k :| 0 <= k < |ws| && Covers(ws[k], j);
          assert Covers(rest[k - 1], j);
        }
        if !IsWhitespace(line[j]) {
          var k :| 0 <= k < |rest| && Covers(rest[k], j);
          assert Covers(ws[k + 1], j);
        }
      }
    }
  }

  /** The first character of every word of a split is not whitespace. */
  lemma StartIsNonWhitespace(line: string, from: nat, ws: seq<Word>, k: nat)
    requires MaximalRunsFrom(line, from, ws) && k < |ws|
    ensures from <= ws[k].start < |line| && !IsWhitespace(line[ws[k].start])
  {
    assert IsMaximalRun(line, ws[k]);
  }

  /** `_words_with_indices(line)`: every match of `\S+` in line, in order.
      Its contract keeps to the words themselves; that they cover every
      non-whitespace character is WordsSplitLine. */
  function Words(line: string): (ws: seq<Word>)
    ensures MaximalRunsFrom(line, 0, ws) && StrictlyOrdered(ws)
  {
    WordsFrom(line, 0)
  }

  /** The words of a line are exactly its maximal runs of non-whitespace. */
  lemma WordsSplitLine(line: string)
    ensures IsSplitFrom(line, 0, Words(line))
  {
    WordsFromCovers(line, 0);
  }

  /** Two lists that both split line from offset `from` into its maximal runs
      are the same list: the characterisation IsSplitFrom pins down the
      result of the scan completely. */
  lemma {:induction false} SplitIsUnique(line: string, from: nat, a: seq<Word>, b: seq<Word>)
    requires IsSplitFrom(line, from, a) && IsSplitFrom(line, from, b)
    ensures a == b
    decreases |a|
  {
    if a == [] {
      if b != [] {
        StartIsNonWhitespace(line, from, b, 0);
      }
    } else if b == [] {
      StartIsNonWhitespace(line, from, a, 0);
    } else {
      assert IsMaximalRun(line, a[0]) && IsMaximalRun(line, b[0]);
      SameFirstWord(line, from, a, b);
      SameFirstWord(line, from, b, a);
      assert a[0].start == b[0].start && a[0].end == b[0].end;
      var e := a[0].end;
      TailIsSplit(line, from, a);
      TailIsSplit(line, from, b);
      SplitIsUnique(line, e, a[1..], b[1..]);
      assert a == [a[0]] + a[1..];
      assert b == [b[0]] + b[1..];
    }
  }

  /** In two splits from the same offset, a's first word starts no later than
      b's and ends no earlier. */
  lemma SameFirstWord(line: string, from: nat, a: seq<Word>, b: seq<Word>)
    requires IsSplitFrom(line, from, a) && IsSplitFrom(line, from, b)
    requires a != [] && b != []
    ensures a[0].start <= b[0].start
    ensures a[0].start == b[0].start ==> b[0].end <= a[0].end
  {
    assert IsMaximalRun(line, a[0]) && IsMaximalRun(line, b[0]);
    assert !IsWhitespace(line[b[0].start]);
    var k :| 0 <= k < |a| && Covers(a[k], b[0].start);
  }

  /** Dropping the first word of a split leaves a split from that word's end. */
  lemma TailIsSplit(line: string, from: nat, a: seq<Word>)
    requires IsSplitFrom(line, from, a) && a != []
    ensures IsSplitFrom(line, a[0].end, a[1..])
  {
    var t := a[1..];
    forall j | a[0].end <= j < |line|
      ensures !IsWhitespace(line[j]) <==> Covered(t, j)
    {
      if !IsWhitespace(line[j]) {
        var k :| 0 <= k < |a| && Covers(a[k], j);
        assert Covers(t[k - 1], j);
      }
      if Covered(t, j) {
        var k :| 0 <= k < |t| && Covers(t[k], j);
        assert Covers(a[k + 1], j);
      }
    }
  }

  /** The largest index into words, or 0 when there are none. */
  function LastWordIndex(words: seq<Word>): nat {
    if words == [] then 0 else |words| - 1
  }

  /** Index of the first word at or after i that covers c, or |words| when none does. */
  function FirstCovering(words: seq<Word>, c: int, i: nat): (r: nat)
    requires i <= |words|
    ensures i <= r <= |words|
    ensures forall k :: i <= k < r ==> !Covers(words[k], c)
    ensures r < |words| ==> Covers(words[r], c)
    decreases |words| - i
  {
    if i == |words| || Covers(words[i], c) then i else FirstCovering(words, c, i + 1)
  }

  /** The word index `_update_word_index_from_char` derives from character
      offset c: the first word that covers c, or else the last word (0 when
      there are no words). */
  function WordIndexFor(words: seq<Word>, c: int): (r: nat)
    ensures r <= LastWordIndex(words)
    ensures Covered(words, c) ==> r < |words| && Covers(words[r], c)
    ensures Covered(words, c) ==> forall k :: 0 <= k < r ==> !Covers(words[k], c)
    ensures !Covered(words, c) ==> r == LastWordIndex(words)
  {
    var r := FirstCovering(words, c, 0);
    if r < |words| then r else LastWordIndex(words)
  }

  /** The character offset `_update_char_index_from_word` derives from word
      index wi: that word's start, or 0 when wi indexes no word. */
  function WordStart(words: seq<Word>, wi: int): (c: nat)
    ensures !(0 <= wi < |words|) ==> c == 0
    ensures 0 <= wi < |words| && words[wi].start < words[wi].end && StrictlyOrdered(words) ==>
      && Covers(words[wi], c)
      && WordIndexFor(words, c) == wi
  {
    if 0 <= wi < |words| then words[wi].start else 0
  }

  /** Deriving the offset of a word and then the word at that offset gives the
      word back; the offset is the word's first character. */
  lemma WordStartRoundTrip(line: string, wi: int)
    requires 0 <= wi < |Words(line)|
    ensures var c := WordStart(Words(line), wi);
      && c < |line|
      && !IsWhitespace(line[c])
      && (c == 0 || IsWhitespace(line[c - 1]))
      && WordIndexFor(Words(line), c) == wi
  {
    WordsSplitLine(line);
    var ws := Words(line);
    var c := ws[wi].start;
    assert IsMaximalRun(line, ws[wi]);
    assert Covers(ws[wi], c);
  }

  /** The word derived from an offset covers that offset exactly when the
      character there is not whitespace; an offset on whitespace (between
      words as well as after the last one) derives the last word. */
  lemma WordIndexForOffset(line: string, c: int)
    requires 0 <= c < |line|
    ensures var ws := Words(line); var r := WordIndexFor(ws, c);
      && (!IsWhitespace(line[c]) ==> r < |ws| && Covers(ws[r], c) && WordStart(ws, r) <= c)
      && (IsWhitespace(line[c]) ==> r == LastWordIndex(ws))
  {
    WordsSplitLine(line);
  }

  /** A line with a double space between its second and third words. */
  const ExampleText: string := "hello world  foo"

  /** The example line splits into three words at [0,5), [6,11) and [13,16). */
  lemma ExampleLine()
    ensures Words(ExampleText)
      == [Word("hello", 0, 5), Word("world", 6, 11), Word("foo", 13, 16)]
  {
    ExampleFromWorld();
    ExampleFirstRun();
    assert ExampleText[0..5] == "hello";
  }

  /** The first word of the example line stops before the space at offset 5. */
  lemma ExampleFirstRun()
    ensures RunEnd(ExampleText, 1) == 5
  {
    assert RunEnd(ExampleText, 5) == 5;
  }

  /** From offset 5 on, the scan finds "world" and then "foo". */
  lemma ExampleFromWorld()
    ensures WordsFrom(ExampleText, 5) == [Word("world", 6, 11), Word("foo", 13, 16)]
  {
    ExampleFromFoo();
    assert RunEnd(ExampleText, 7) == 11;
    assert ExampleText[6..11] == "world";
  }

  /** From offset 11 on, past the double space, the scan finds only "foo". */
  lemma ExampleFromFoo()
    ensures WordsFrom(ExampleText, 11) == [Word("foo", 13, 16)]
  {
    assert WordsFrom(ExampleText, 16) == [];
    assert RunEnd(ExampleText, 14) == 16;
    assert ExampleText[13..16] == "foo";
  }


}
