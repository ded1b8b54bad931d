/** Subtitle segmentation for shorts: process_segments_for_shorts of
    backend/modules/content.py. A transcript segment's text is stripped, split
    into sentences at whitespace that follows '.', '!' or '?', each sentence into
    words, the words grouped into short chunks, and the segment's time span is
    shared evenly among a sentence's chunks. */
module Subtitles {
  import opened Text

  /** Python's whitespace, the characters for which str.isspace holds; str.split,
      str.strip and the regular expression class \s on str all use this set:
      \t \n \v \f \r, \x1c-\x1f, space, \x85, \xa0, \u1680, \u2000-\u200a,
      \u2028, \u2029, \u202f, \u205f and \u3000. */
  predicate IsSpace(c: char) {
    var n := c as int;
    (9 <= n <= 13) || (28 <= n <= 32) || n == 0x85 || n == 0xA0 || n == 0x1680
    || (0x2000 <= n <= 0x200A) || n == 0x2028 || n == 0x2029 || n == 0x202F
    || n == 0x205F || n == 0x3000
  }

  predicate AllSpace(s: string) { forall i :: 0 <= i < |s| ==> IsSpace(s[i]) }

  predicate NoSpace(s: string) { forall i :: 0 <= i < |s| ==> !IsSpace(s[i]) }

  /** A word as str.split() yields it: non-empty and free of whitespace. */
  predicate IsWord(w: string) { |w| > 0 && NoSpace(w) }

  predicate AllWords(ws: seq<string>) { forall i :: 0 <= i < |ws| ==> IsWord(ws[i]) }

  // ---------------------------------------------------------------- strip

  function StripLeft(s: string): (r: string)
    ensures |r| <= |s| && r == s[|s| - |r|..]
    ensures AllSpace(s[..|s| - |r|])
    ensures |r| > 0 ==> !IsSpace(r[0])
    decreases |s|
  {
    if |s| > 0 && IsSpace(s[0]) then StripLeft(s[1..]) else s
  }

  function StripRight(s: string): (r: string)
    ensures |r| <= |s| && r == s[..|r|]
    ensures AllSpace(s[|r|..])
    ensures |r| > 0 ==> !IsSpace(r[|r| - 1])
    decreases |s|
  {
    if |s| > 0 && IsSpace(s[|s| - 1]) then StripRight(s[..|s| - 1]) else s
  }

  /** str.strip(): the text without its leading and trailing whitespace. */
  function Strip(s: string): (r: string)
    ensures |r| > 0 ==> !IsSpace(r[0]) && !IsSpace(r[|r| - 1])
    ensures |r| == 0 <==> AllSpace(s)
  {
    StripBlank(s);
    StripRight(StripLeft(s))
  }

  lemma {:induction false} StripLeftBlank(s: string)
    ensures |StripLeft(s)| == 0 <==> AllSpace(s)
    decreases |s|
  {
    if |s| > 0 && IsSpace(s[0]) {
      StripLeftBlank(s[1..]);
      assert AllSpace(s) <==> AllSpace(s[1..]) by {
        assert forall i :: 1 <= i < |s| ==> s[i] == s[1..][i - 1];
      }
    }
  }

  lemma {:induction false} StripRightBlank(s: string)
    ensures |StripRight(s)| == 0 <==> AllSpace(s)
    decreases |s|
  {
    if |s| > 0 && IsSpace(s[|s| - 1]) {
      StripRightBlank(s[..|s| - 1]);
      assert AllSpace(s) <==> AllSpace(s[..|s| - 1]) by {
        assert forall i :: 0 <= i < |s| - 1 ==> s[i] == s[..|s| - 1][i];
      }
    }
  }

  lemma StripBlank(s: string)
    ensures |StripRight(StripLeft(s))| == 0 <==> AllSpace(s)
  {
    var l := StripLeft(s);
    StripLeftBlank(s);
    StripRightBlank(l);
    if |l| > 0 {
      assert !IsSpace(l[0]);
    }
  }

  // ---------------------------------------------------------------- words

  /** The end of the run of non-whitespace characters starting at i. */
  function WordEnd(s: string, i: nat): (k: nat)
    requires i <= |s|
    ensures i <= k <= |s| && (k < |s| ==> IsSpace(s[k]))
    ensures forall j :: i <= j < k ==> !IsSpace(s[j])
    decreases |s| - i
  {
    if i == |s| || IsSpace(s[i]) then i else WordEnd(s, i + 1)
  }

  /** str.split() with no argument: the maximal runs of non-whitespace. */
  function SplitWords(s: string): (ws: seq<string>)
    ensures AllWords(ws)
    decreases |s|
  {
    if |s| == 0 then []
    else if IsSpace(s[0]) then SplitWords(s[1..])
    else
      var k := WordEnd(s, 0);
      [s[..k]] + SplitWords(s[k..])
  }

  lemma {:induction false} WordEndAppend(a: string, t: string, i: nat)
    requires i <= |a| && (|t| == 0 || IsSpace(t[0]))
    ensures WordEnd(a + t, i) == WordEnd(a, i)
    decreases |a| - i
  {
    if i < |a| && !IsSpace(a[i]) {
      assert (a + t)[i] == a[i];
      WordEndAppend(a, t, i + 1);
    } else if i == |a| && |t| > 0 {
      assert (a + t)[i] == t[0];
    }
  }

  /** Leading whitespace does not change the words. */
  lemma {:induction false} SplitWordsSpacePrefix(w: string, b: string)
    requires AllSpace(w)
    ensures SplitWords(w + b) == SplitWords(b)
    decreases |w|
  {
    if |w| > 0 {
      assert (w + b)[1..] == w[1..] + b;
      SplitWordsSpacePrefix(w[1..], b);
    } else {
      assert w + b == b;
    }
  }

  /** A non-empty run of whitespace separates words: the words of a + w + b
      are the words of a followed by the words of b. */
  lemma {:induction false} SplitWordsConcat(a: string, w: string, b: string)
    requires |w| > 0 && AllSpace(w)
    ensures SplitWords(a + w + b) == SplitWords(a) + SplitWords(b)
    decreases |a|
  {
    var s := a + w + b;
    if |a| == 0 {
      assert s == w + b;
      SplitWordsSpacePrefix(w, b);
    } else if IsSpace(a[0]) {
      assert s[0] == a[0];
      assert s[1..] == a[1..] + w + b;
      SplitWordsConcat(a[1..], w, b);
    } else {
      assert s[0] == a[0];
      assert s == a + (w + b);
      WordEndAppend(a, w + b, 0);
      var k := WordEnd(a, 0);
      assert s[..k] == a[..k];
      assert s[k..] == a[k..] + w + b;
      SplitWordsConcat(a[k..], w, b);
    }
  }

  lemma {:induction false} SplitWordsOfWord(w: string)
    requires IsWord(w)
    ensures SplitWords(w) == [w]
  {
    var k := WordEnd(w, 0);
    assert k == |w|;
    assert !IsSpace(w[0]);
    assert w[..k] == w && w[k..] == [];
  }

  function JoinSpace(ws: seq<string>): string { JoinWith(ws, " ") }

  /** ' '.join and str.split() are inverse on lists of words. */
  lemma {:induction false} SplitWordsJoinSpace(ws: seq<string>)
    requires AllWords(ws)
    ensures SplitWords(JoinSpace(ws)) == ws
    decreases |ws|
  {
    if |ws| == 1 {
      SplitWordsOfWord(ws[0]);
    } else if |ws| >= 2 {
      SplitWordsOfWord(ws[0]);
      SplitWordsJoinSpace(ws[1..]);
      SplitWordsConcat(ws[0], " ", JoinSpace(ws[1..]));
      assert [ws[0]] + ws[1..] == ws;
    }
  }

  /** Trailing whitespace does not change the words. */
  lemma SplitWordsSpaceSuffix(a: string, w: string)
    requires AllSpace(w)
    ensures SplitWords(a + w) == SplitWords(a)
  {
    if |w| == 0 {
      assert a + w == a;
    } else {
      SplitWordsConcat(a, w, "");
      assert a + w + "" == a + w;
      assert SplitWords("") == [];
    }
  }

  lemma StripLeftWords(s: string)
    ensures SplitWords(StripLeft(s)) == SplitWords(s)
  {
    var l := StripLeft(s);
    var p := s[..|s| - |l|];
    assert s == p + l;
    SplitWordsSpacePrefix(p, l);
  }

  lemma StripRightWords(l: string)
    ensures SplitWords(StripRight(l)) == SplitWords(l)
  {
    var r := StripRight(l);
    var q := l[|r|..];
    assert l == r + q;
    SplitWordsSpaceSuffix(r, q);
  }

  /** Stripping does not change the words. */
  lemma SplitWordsStrip(s: string)
    ensures SplitWords(Strip(s)) == SplitWords(s)
  {
    StripLeftWords(s);
    StripRightWords(StripLeft(s));
  }

  /** A no-break space (\xa0) separates words, as in Python's str.split(). */
  lemma NoBreakSpaceSplits()
    ensures SplitWords(['a', 0xA0 as char, 'b']) == ["a", "b"]
  {
    var nb := 0xA0 as char;
    var s := ['a', nb, 'b'];
    assert WordEnd(s, 0) == 1 by { assert IsSpace(s[1]); }
    assert s[..1] == "a" && s[1..] == [nb, 'b'];
    assert SplitWords([nb, 'b']) == SplitWords("b") by { assert [nb, 'b'][1..] == "b"; }
    assert SplitWords("b") == ["b"] by {
      assert WordEnd("b", 0) == 1;
      assert "b"[..1] == "b" && "b"[1..] == [];
      assert SplitWords([]) == [];
    }
  }

  /** Unicode whitespace (\xa0, \u3000) is stripped, as by Python's str.strip(). */
  lemma UnicodeSpaceStrips()
    ensures Strip([0xA0 as char, 'a', 0x3000 as char]) == "a"
  {
    var ideo := 0x3000 as char;
    assert StripLeft([0xA0 as char, 'a', ideo]) == ['a', ideo] by {
      assert [0xA0 as char, 'a', ideo][1..] == ['a', ideo];
    }
    assert StripRight(['a', ideo]) == "a" by { assert ['a', ideo][..1] == "a"; }
  }

  // ---------------------------------------------------------------- sentences

  predicate IsSentenceMark(c: char) { c == '.' || c == '!' || c == '?' }

  /** A match of (?<=[.!?])\s+ can start at i: whitespace after a mark. */
  predicate BreakAt(s: string, i: nat) {
    1 <= i < |s| && IsSpace(s[i]) && IsSentenceMark(s[i - 1])
  }

  /** The end of the whitespace run starting at i (the greedy \s+). */
  function SpaceRunEnd(s: string, i: nat): (j: nat)
    requires i <= |s|
    ensures i <= j <= |s| && (j < |s| ==> !IsSpace(s[j]))
    ensures AllSpace(s[i..j])
    decreases |s| - i
  {
    if i < |s| && IsSpace(s[i]) then
      var j := SpaceRunEnd(s, i + 1);
      assert s[i..j] == [s[i]] + s[i + 1..j];
      j
    else i
  }

  /** re.split(r'(?<=[.!?])\s+', s), scanning from position i for the next match. */
  function SplitSentencesFrom(s: string, i: nat): (parts: seq<string>)
    requires 1 <= i
    ensures |parts| >= 1
    decreases |s|, |s| - i
  {
    if i >= |s| then [s]
    else if BreakAt(s, i) then
      var j := SpaceRunEnd(s, i);
      [s[..i]] + SplitSentencesFrom(s[j..], 1)
    else SplitSentencesFrom(s, i + 1)
  }

  function SplitSentences(s: string): (parts: seq<string>)
    ensures |parts| >= 1
  {
    SplitSentencesFrom(s, 1)
  }

  /** The words of a list of texts, in order. */
  function WordsOfTexts(ts: seq<string>): seq<string> {
    if |ts| == 0 then [] else SplitWords(ts[0]) + WordsOfTexts(ts[1..])
  }

  lemma {:induction false} WordsOfTextsAppend(a: seq<string>, b: seq<string>)
    ensures WordsOfTexts(a + b) == WordsOfTexts(a) + WordsOfTexts(b)
    decreases |a|
  {
    if |a| == 0 {
      assert a + b == b;
    } else {
      assert (a + b)[1..] == a[1..] + b;
      WordsOfTextsAppend(a[1..], b);
    }
  }

  /** Sentence splitting loses no word and keeps their order. */
  lemma {:induction false} SplitSentencesFromWords(s: string, i: nat)
    requires 1 <= i
    ensures WordsOfTexts(SplitSentencesFrom(s, i)) == SplitWords(s)
    decreases |s|, |s| - i
  {
    if i >= |s| {
      assert WordsOfTexts([s]) == SplitWords(s) + WordsOfTexts([]);
    } else if BreakAt(s, i) {
      var j := SpaceRunEnd(s, i);
      var rest := SplitSentencesFrom(s[j..], 1);
      SplitSentencesFromWords(s[j..], 1);
      assert ([s[..i]] + rest)[1..] == rest;
      assert s == s[..i] + s[i..j] + s[j..];
      SplitWordsConcat(s[..i], s[i..j], s[j..]);
    } else {
      SplitSentencesFromWords(s, i + 1);
    }
  }

  lemma SplitSentencesWords(s: string)
    ensures WordsOfTexts(SplitSentences(s)) == SplitWords(s)
  {
    SplitSentencesFromWords(s, 1);
  }

  // ---------------------------------------------------------------- chunks

  /** The state of the word-grouping loop: the chunks already closed, the
      words of the open chunk, and its running length counter. */
  datatype GroupState = GroupState(closed: seq<seq<string>>, current: seq<string>, currentLength: int)

  /** One iteration of the loop, exactly as written: the open chunk is closed
      once it holds maxWords words or the counter plus the new word exceeds
      maxChars; a new chunk restarts the counter at the word's length. */
  function GroupStep(st: GroupState, word: string, maxWords: int, maxChars: int): GroupState {
    if |st.current| >= maxWords || st.currentLength + |word| > maxChars then
      GroupState(st.closed + [st.current], [word], |word|)
    else
      GroupState(st.closed, st.current + [word], st.currentLength + |word| + 1)
  }

  function GroupFold(words: seq<string>, maxWords: int, maxChars: int): GroupState
    decreases |words|
  {
    if |words| == 0 then GroupState([], [], 0)
    else GroupStep(GroupFold(words[..|words| - 1], maxWords, maxChars), words[|words| - 1], maxWords, maxChars)
  }

  /** The chunks (as word lists) the loop produces, the open one included when non-empty. */
  function ChunkLists(words: seq<string>, maxWords: int, maxChars: int): seq<seq<string>> {
    var st := GroupFold(words, maxWords, maxChars);
    if |st.current| > 0 then st.closed + [st.current] else st.closed
  }

  function JoinEach(cs: seq<seq<string>>): (ts: seq<string>)
    ensures |ts| == |cs| && forall i :: 0 <= i < |cs| ==> ts[i] == JoinSpace(cs[i])
  {
    if |cs| == 0 then [] else [JoinSpace(cs[0])] + JoinEach(cs[1..])
  }

  /** The chunk texts: each chunk's words joined by single spaces. */
  function ChunkTexts(words: seq<string>, maxWords: int, maxChars: int): seq<string> {
    JoinEach(ChunkLists(words, maxWords, maxChars))
  }

  function Flatten(cs: seq<seq<string>>): seq<string> {
    if |cs| == 0 then [] else cs[0] + Flatten(cs[1..])
  }

  lemma {:induction false} FlattenSnoc(cs: seq<seq<string>>, c: seq<string>)
    ensures Flatten(cs + [c]) == Flatten(cs) + c
    decreases |cs|
  {
    if |cs| == 0 {
      assert cs + [c] == [c];
    } else {
      assert (cs + [c])[1..] == cs[1..] + [c];
      FlattenSnoc(cs[1..], c);
    }
  }

  /** One step of the loop moves the next word to the open chunk or to a new one. */
  lemma GroupStepFlatten(st: GroupState, words: seq<string>, maxWords: int, maxChars: int)
    requires |words| > 0 && Flatten(st.closed) + st.current == words[..|words| - 1]
    ensures var st' := GroupStep(st, words[|words| - 1], maxWords, maxChars);
      Flatten(st'.closed) + st'.current == words
  {
    FlattenSnoc(st.closed, st.current);
    assert words == words[..|words| - 1] + [words[|words| - 1]];
  }

  lemma {:induction false} GroupFoldFlatten(words: seq<string>, maxWords: int, maxChars: int)
    ensures var st := GroupFold(words, maxWords, maxChars); Flatten(st.closed) + st.current == words
    decreases |words|
  {
    if |words| > 0 {
      GroupFoldFlatten(words[..|words| - 1], maxWords, maxChars);
      GroupStepFlatten(GroupFold(words[..|words| - 1], maxWords, maxChars), words, maxWords, maxChars);
    }
  }

  /** Grouping loses no word and keeps their order. */
  lemma ChunkListsFlatten(words: seq<string>, maxWords: int, maxChars: int)
    ensures Flatten(ChunkLists(words, maxWords, maxChars)) == words
  {
    var st := GroupFold(words, maxWords, maxChars);
    GroupFoldFlatten(words, maxWords, maxChars);
    if |st.current| > 0 {
      FlattenSnoc(st.closed, st.current);
    } else {
      assert st.current == [];
    }
  }

  lemma {:induction false} GroupFoldWordCount(words: seq<string>, maxWords: int, maxChars: int)
    requires maxWords >= 1
    ensures var st := GroupFold(words, maxWords, maxChars);
      |st.current| <= maxWords && forall i :: 0 <= i < |st.closed| ==> |st.closed[i]| <= maxWords
    decreases |words|
  {
    if |words| > 0 {
      GroupFoldWordCount(words[..|words| - 1], maxWords, maxChars);
    }
  }

  /** No chunk holds more than maxWords words. */
  lemma ChunkListsWordCount(words: seq<string>, maxWords: int, maxChars: int)
    requires maxWords >= 1
    ensures forall c :: c in ChunkLists(words, maxWords, maxChars) ==> |c| <= maxWords
  {
    GroupFoldWordCount(words, maxWords, maxChars);
  }

  lemma {:induction false} GroupFoldEmptyChunk(words: seq<string>, maxWords: int, maxChars: int)
    requires maxWords >= 1 && |words| >= 1
    ensures var st := GroupFold(words, maxWords, maxChars);
      |st.current| >= 1
      && (forall i :: 0 <= i < |st.closed| && st.closed[i] == [] ==> i == 0 && |words[0]| > maxChars)
      && (|words[0]| > maxChars ==> |st.closed| >= 1 && st.closed[0] == [])
    decreases |words|
  {
    if |words| > 1 {
      var prefix := words[..|words| - 1];
      GroupFoldEmptyChunk(prefix, maxWords, maxChars);
      assert prefix[0] == words[0];
    } else {
      assert words[..0] == [];
    }
  }

  /** The loop emits an empty chunk exactly when the first word alone is longer
      than maxChars: the counter test fires before any word has been taken. */
  lemma EmptyChunkIff(words: seq<string>, maxWords: int, maxChars: int)
    requires maxWords >= 1
    ensures [] in ChunkLists(words, maxWords, maxChars) <==> |words| >= 1 && |words[0]| > maxChars
  {
    if |words| >= 1 {
      GroupFoldEmptyChunk(words, maxWords, maxChars);
      var st := GroupFold(words, maxWords, maxChars);
      var cs := ChunkLists(words, maxWords, maxChars);
      assert cs == st.closed + [st.current];
      if |words[0]| > maxChars {
        assert cs[0] == [];
      }
      if [] in cs {
        var i :| 0 <= i < |cs| && cs[i] == [];
        assert i < |st.closed|;
      }
    }
  }

  lemma {:induction false} JoinSpaceSnoc(ws: seq<string>, w: string)
    requires |ws| >= 1
    ensures JoinSpace(ws + [w]) == JoinSpace(ws) + " " + w
    decreases |ws|
  {
    if |ws| == 1 {
      var t := ws + [w];
      assert |t| == 2 && t[0] == ws[0] && t[1..] == [w];
      assert JoinSpace(t) == t[0] + " " + JoinSpace(t[1..]);
      assert JoinSpace([w]) == w && JoinSpace(ws) == ws[0];
    } else {
      assert (ws + [w])[1..] == ws[1..] + [w];
      JoinSpaceSnoc(ws[1..], w);
    }
  }

  predicate WithinChars(c: seq<string>, limit: int) { |c| >= 2 ==> |JoinSpace(c)| <= limit }

  lemma {:induction false} GroupFoldLineLength(words: seq<string>, maxWords: int, maxChars: int)
    ensures var st := GroupFold(words, maxWords, maxChars);
      |JoinSpace(st.current)| <= st.currentLength
      && WithinChars(st.current, maxChars + 1)
      && forall i :: 0 <= i < |st.closed| ==> WithinChars(st.closed[i], maxChars + 1)
    decreases |words|
  {
    if |words| > 0 {
      var prefix := words[..|words| - 1];
      var w := words[|words| - 1];
      GroupFoldLineLength(prefix, maxWords, maxChars);
      var st := GroupFold(prefix, maxWords, maxChars);
      if !(|st.current| >= maxWords || st.currentLength + |w| > maxChars) {
        if |st.current| >= 1 {
          JoinSpaceSnoc(st.current, w);
        } else {
          assert st.current + [w] == [w];
        }
      }
    }
  }

  /** As written, a line of two or more words is at most maxChars + 1 long:
      after a chunk is closed the counter omits the space it counts elsewhere. */
  lemma ChunkLineLength(words: seq<string>, maxWords: int, maxChars: int)
    ensures forall c :: c in ChunkLists(words, maxWords, maxChars) ==> WithinChars(c, maxChars + 1)
  {
    GroupFoldLineLength(words, maxWords, maxChars);
  }

  /** The bound above is reached: with the default limits, the words "a",
      a 34-letter word and "c" give the 36-character line "<34 letters> c". */
  lemma ChunkLineOverflow()
    ensures var long := seq(34, _ => 'x');
      JoinSpace([long, "c"]) in ChunkTexts(["a", long, "c"], 7, 35)
      && |JoinSpace([long, "c"])| == 36
  {
    var long := seq(34, _ => 'x');
    var words := ["a", long, "c"];
    var one := ["a"];
    var two := ["a", long];
    assert one[..0] == [];
    assert two[..1] == one;
    assert words[..2] == two;
    var s1 := GroupFold(one, 7, 35);
    assert s1 == GroupStep(GroupState([], [], 0), "a", 7, 35);
    assert s1 == GroupState([], ["a"], 2);
    var s2 := GroupFold(two, 7, 35);
    assert s2 == GroupStep(s1, long, 7, 35);
    assert s2 == GroupState([["a"]], [long], 34);
    var s3 := GroupFold(words, 7, 35);
    assert s3 == GroupStep(s2, "c", 7, 35);
    assert s3 == GroupState([["a"]], [long, "c"], 36);
    var cs := ChunkLists(words, 7, 35);
    assert cs == [["a"], [long, "c"]];
    var line := JoinSpace([long, "c"]);
    assert [long, "c"][1..] == ["c"];
    assert JoinSpace(["c"]) == "c";
    assert line == long + " " + "c";
    assert ChunkTexts(words, 7, 35)[1] == line;
  }

  /** The empty chunk is reached: a first word longer than 35 characters. */
  lemma EmptyChunkExample()
    ensures "" in ChunkTexts([seq(36, _ => 'x')], 7, 35)
  {
    var long := seq(36, _ => 'x');
    var words := [long];
    assert words[..0] == [];
    assert GroupFold(words[..0], 7, 35) == GroupState([], [], 0);
    assert words[|words| - 1] == long;
    var st := GroupFold(words, 7, 35);
    assert st == GroupStep(GroupState([], [], 0), long, 7, 35);
    assert st == GroupState([[]], [long], 36);
    assert ChunkLists(words, 7, 35) == [[], [long]];
    assert ChunkTexts([long], 7, 35)[0] == JoinSpace([]) == "";
  }

  /** The evidently intended grouping: a chunk is closed only when it is
      non-empty, and the counter always includes the trailing space. */
  function CorrectedGroupStep(st: GroupState, word: string, maxWords: int, maxChars: int): GroupState {
    if |st.current| > 0 && (|st.current| >= maxWords || st.currentLength + |word| > maxChars) then
      GroupState(st.closed + [st.current], [word], |word| + 1)
    else
      GroupState(st.closed, st.current + [word], st.currentLength + |word| + 1)
  }

  function CorrectedGroupFold(words: seq<string>, maxWords: int, maxChars: int): GroupState
    decreases |words|
  {
    if |words| == 0 then GroupState([], [], 0)
    else CorrectedGroupStep(CorrectedGroupFold(words[..|words| - 1], maxWords, maxChars), words[|words| - 1], maxWords, maxChars)
  }

  function CorrectedChunkLists(words: seq<string>, maxWords: int, maxChars: int): seq<seq<string>> {
    var st := CorrectedGroupFold(words, maxWords, maxChars);
    if |st.current| > 0 then st.closed + [st.current] else st.closed
  }

  /** What the corrected fold keeps of the words read so far: they are the
      closed chunks followed by the open one, the counter is the open line's
      length plus one, and no chunk is empty or over either limit. */
  predicate CorrectedBounded(st: GroupState, words: seq<string>, maxWords: int, maxChars: int) {
    Flatten(st.closed) + st.current == words
    && (|st.current| == 0 <==> |words| == 0)
    && (|st.current| == 0 ==> st.currentLength == 0)
    && (|st.current| > 0 ==> st.currentLength == |JoinSpace(st.current)| + 1)
    && |st.current| <= maxWords && WithinChars(st.current, maxChars)
    && forall i :: 0 <= i < |st.closed| ==>
         1 <= |st.closed[i]| <= maxWords && WithinChars(st.closed[i], maxChars)
  }

  /** Closing the open chunk keeps the bounds. */
  lemma CorrectedCloseBounded(st: GroupState, prefix: seq<string>, w: string, maxWords: int, maxChars: int)
    requires maxWords >= 1 && CorrectedBounded(st, prefix, maxWords, maxChars) && |st.current| > 0
    ensures CorrectedBounded(GroupState(st.closed + [st.current], [w], |w| + 1), prefix + [w], maxWords, maxChars)
  {
    FlattenSnoc(st.closed, st.current);
    assert JoinSpace([w]) == w;
  }

  /** Appending to a non-empty open chunk that has room keeps the bounds. */
  lemma CorrectedAppendBounded(st: GroupState, prefix: seq<string>, w: string, maxWords: int, maxChars: int)
    requires CorrectedBounded(st, prefix, maxWords, maxChars) && |st.current| > 0
    requires |st.current| < maxWords && st.currentLength + |w| <= maxChars
    ensures CorrectedBounded(GroupState(st.closed, st.current + [w], st.currentLength + |w| + 1), prefix + [w], maxWords, maxChars)
  {
    JoinSpaceSnoc(st.current, w);
  }

  /** The first word opens a chunk of its own. */
  lemma CorrectedFirstBounded(st: GroupState, prefix: seq<string>, w: string, maxWords: int, maxChars: int)
    requires maxWords >= 1 && CorrectedBounded(st, prefix, maxWords, maxChars) && |st.current| == 0
    ensures CorrectedBounded(GroupState(st.closed, st.current + [w], st.currentLength + |w| + 1), prefix + [w], maxWords, maxChars)
  {
    assert st.current + [w] == [w];
    assert JoinSpace([w]) == w;
  }

  /** One corrected step keeps the bounds. */
  lemma CorrectedStepBounded(st: GroupState, words: seq<string>, maxWords: int, maxChars: int)
    requires maxWords >= 1 && |words| > 0
    requires CorrectedBounded(st, words[..|words| - 1], maxWords, maxChars)
    ensures CorrectedBounded(CorrectedGroupStep(st, words[|words| - 1], maxWords, maxChars), words, maxWords, maxChars)
  {
    var prefix := words[..|words| - 1];
    var w := words[|words| - 1];
    assert words == prefix + [w];
    if |st.current| > 0 && (|st.current| >= maxWords || st.currentLength + |w| > maxChars) {
      CorrectedCloseBounded(st, prefix, w, maxWords, maxChars);
    } else if |st.current| >= 1 {
      CorrectedAppendBounded(st, prefix, w, maxWords, maxChars);
    } else {
      CorrectedFirstBounded(st, prefix, w, maxWords, maxChars);
    }
  }

  lemma {:induction false} CorrectedGroupFoldBounds(words: seq<string>, maxWords: int, maxChars: int)
    requires maxWords >= 1
    ensures CorrectedBounded(CorrectedGroupFold(words, maxWords, maxChars), words, maxWords, maxChars)
    decreases |words|
  {
    if |words| > 0 {
      CorrectedGroupFoldBounds(words[..|words| - 1], maxWords, maxChars);
      CorrectedStepBounded(CorrectedGroupFold(words[..|words| - 1], maxWords, maxChars), words, maxWords, maxChars);
    }
  }

  /** The corrected grouping keeps every word in order, never emits an empty
      chunk, and keeps every line of two or more words within maxChars. */
  lemma CorrectedChunksWithinLimit(words: seq<string>, maxWords: int, maxChars: int)
    requires maxWords >= 1
    ensures var cs := CorrectedChunkLists(words, maxWords, maxChars);
      Flatten(cs) == words
      && forall c :: c in cs ==> 1 <= |c| <= maxWords && WithinChars(c, maxChars)
  {
    CorrectedGroupFoldBounds(words, maxWords, maxChars);
    var st := CorrectedGroupFold(words, maxWords, maxChars);
    if |st.current| > 0 {
      FlattenSnoc(st.closed, st.current);
    } else {
      assert st.current == [];
    }
  }

  /** The grouping loop of process_segments_for_shorts. */
  method GroupWords(words: seq<string>, maxWords: int, maxChars: int) returns (chunks: seq<string>)
    ensures chunks == ChunkTexts(words, maxWords, maxChars)
  {
    chunks := [];
    var current: seq<string> := [];
    var currentLength := 0;
    var i := 0;
    while i < |words|
      invariant 0 <= i <= |words|
      invariant GroupFold(words[..i], maxWords, maxChars) == GroupState(GroupFold(words[..i], maxWords, maxChars).closed, current, currentLength)
      invariant chunks == JoinEach(GroupFold(words[..i], maxWords, maxChars).closed)
    {
      var word := words[i];
      assert words[..i + 1][..i] == words[..i];
      ghost var closed := GroupFold(words[..i], maxWords, maxChars).closed;
      if |current| >= maxWords || currentLength + |word| > maxChars {
        JoinEachSnoc(closed, current);
        chunks := chunks + [JoinSpace(current)];
        current := [word];
        currentLength := |word|;
      } else {
        current := current + [word];
        currentLength := currentLength + |word| + 1;
      }
      i := i + 1;
    }
    assert words[..i] == words;
    if |current| > 0 {
      JoinEachSnoc(GroupFold(words, maxWords, maxChars).closed, current);
      chunks := chunks + [JoinSpace(current)];
    }
  }

  lemma {:induction false} JoinEachSnoc(cs: seq<seq<string>>, c: seq<string>)
    ensures JoinEach(cs + [c]) == JoinEach(cs) + [JoinSpace(c)]
  {
  }

  // ---------------------------------------------------------------- timing

  /** A subtitle segment: seconds from the start of the clip and its text. */
  datatype Segment = Segment(start: real, end: real, text: string)

  /** The chunks of one sentence, sharing the segment's span evenly:
      chunk i runs from start + i * d to start + i * d + d, d = (end - start) / n. */
  function TimeChunks(chunks: seq<string>, start: real, end: real): (r: seq<Segment>)
    ensures |r| == |chunks|
  {
    if |chunks| == 0 then []
    else
      var d := (end - start) / (|chunks| as real);
      seq(|chunks|, i requires 0 <= i < |chunks| => Segment(start + (i as real) * d, start + (i as real) * d + d, chunks[i]))
  }

  /** The chunks tile the span: they keep their texts and order, start at the
      segment's start, each ends where the next begins, the last ends at the
      segment's end, and all have the same length. */
  lemma TimeChunksTile(chunks: seq<string>, start: real, end: real)
    requires |chunks| >= 1
    ensures var r := TimeChunks(chunks, start, end);
      r[0].start == start && r[|r| - 1].end == end
      && (forall i :: 0 <= i < |r| ==> r[i].text == chunks[i])
      && (forall i :: 0 <= i < |r| - 1 ==> r[i].end == r[i + 1].start)
      && (forall i :: 0 <= i < |r| ==> r[i].end - r[i].start == (end - start) / (|chunks| as real))
  {
    var n := |chunks| as real;
    var d := (end - start) / n;
    assert (n - 1.0) * d + d == n * d == end - start;
  }

  // ---------------------------------------------------------------- segments

  /** The subtitles of one sentence: nothing for a blank sentence, otherwise its
      chunks timed over the whole segment span. */
  function SentenceShorts(sentence: string, start: real, end: real, maxWords: int, maxChars: int): seq<Segment> {
    if |Strip(sentence)| == 0 then []
    else TimeChunks(ChunkTexts(SplitWords(sentence), maxWords, maxChars), start, end)
  }

  function SentencesShorts(sentences: seq<string>, start: real, end: real, maxWords: int, maxChars: int): seq<Segment>
    decreases |sentences|
  {
    if |sentences| == 0 then []
    else
      var last := sentences[|sentences| - 1];
      SentencesShorts(sentences[..|sentences| - 1], start, end, maxWords, maxChars) + SentenceShorts(last, start, end, maxWords, maxChars)
  }

  /** The subtitles of one transcript segment: none when its stripped text is
      shorter than two characters. */
  function SegmentShorts(seg: Segment, maxWords: int, maxChars: int): seq<Segment> {
    var text := Strip(seg.text);
    if |text| < 2 then []
    else SentencesShorts(SplitSentences(text), seg.start, seg.end, maxWords, maxChars)
  }

  function ShortsFor(segments: seq<Segment>, maxWords: int, maxChars: int): seq<Segment>
    decreases |segments|
  {
    if |segments| == 0 then []
    else
      var last := segments[|segments| - 1];
      ShortsFor(segments[..|segments| - 1], maxWords, maxChars) + SegmentShorts(last, maxWords, maxChars)
  }

  lemma SentencesShortsSnoc(sentences: seq<string>, j: int, start: real, end: real, maxWords: int, maxChars: int)
    requires 0 <= j < |sentences|
    ensures SentencesShorts(sentences[..j + 1], start, end, maxWords, maxChars)
      == SentencesShorts(sentences[..j], start, end, maxWords, maxChars) + SentenceShorts(sentences[j], start, end, maxWords, maxChars)
  {
    assert sentences[..j + 1][..j] == sentences[..j];
  }

  lemma ShortsForSnoc(segments: seq<Segment>, k: int, maxWords: int, maxChars: int)
    requires 0 <= k < |segments|
    ensures ShortsFor(segments[..k + 1], maxWords, maxChars)
      == ShortsFor(segments[..k], maxWords, maxChars) + SegmentShorts(segments[k], maxWords, maxChars)
  {
    assert segments[..k + 1][..k] == segments[..k];
  }

  /** One pass of the sentence loop: a blank sentence is skipped, any other is
      grouped into chunks that share the segment's span. */
  method ProcessSentence(sentence: string, start: real, end: real, maxWords: int, maxChars: int)
    returns (out: seq<Segment>)
    ensures out == SentenceShorts(sentence, start, end, maxWords, maxChars)
  {
    if |Strip(sentence)| == 0 {
      return [];
    }
    var words := SplitWords(sentence);
    var chunks := GroupWords(words, maxWords, maxChars);
    out := [];
    if |chunks| > 0 {
      out := TimeChunks(chunks, start, end);
    }
  }

  /** The subtitles of the sentences of one segment (the inner loops). */
  method ProcessSentences(sentences: seq<string>, start: real, end: real, maxWords: int, maxChars: int)
    returns (out: seq<Segment>)
    ensures out == SentencesShorts(sentences, start, end, maxWords, maxChars)
  {
    out := [];
    var j := 0;
    while j < |sentences|
      invariant 0 <= j <= |sentences|
      invariant out == SentencesShorts(sentences[..j], start, end, maxWords, maxChars)
    {
      var more := ProcessSentence(sentences[j], start, end, maxWords, maxChars);
      SentencesShortsSnoc(sentences, j, start, end, maxWords, maxChars);
      out := out + more;
      j := j + 1;
    }
    assert sentences[..j] == sentences;
  }

  /** One pass of the outer loop: a segment whose stripped text is shorter
      than two characters is skipped, any other is split into sentences. */
  method ProcessSegment(segment: Segment, maxWords: int, maxChars: int) returns (out: seq<Segment>)
    ensures out == SegmentShorts(segment, maxWords, maxChars)
  {
    var text := Strip(segment.text);
    if |text| < 2 {
      return [];
    }
    var sentences := SplitSentences(text);
    out := ProcessSentences(sentences, segment.start, segment.end, maxWords, maxChars);
  }

  /** process_segments_for_shorts (defaults: 7 words, 35 characters). */
  method ProcessSegmentsForShorts(segments: seq<Segment>, maxWords: int := 7, maxChars: int := 35)
    returns (processed: seq<Segment>)
    ensures processed == ShortsFor(segments, maxWords, maxChars)
  {
    processed := [];
    var k := 0;
    while k < |segments|
      invariant 0 <= k <= |segments|
      invariant processed == ShortsFor(segments[..k], maxWords, maxChars)
    {
      var out := ProcessSegment(segments[k], maxWords, maxChars);
      ShortsForSnoc(segments, k, maxWords, maxChars);
      processed := processed + out;
      k := k + 1;
    }
    assert segments[..k] == segments;
  }

  function TextsOf(segs: seq<Segment>): (ts: seq<string>)
    ensures |ts| == |segs| && forall i :: 0 <= i < |segs| ==> ts[i] == segs[i].text
  {
    if |segs| == 0 then [] else [segs[0].text] + TextsOf(segs[1..])
  }

  lemma {:induction false} TextsOfAppend(a: seq<Segment>, b: seq<Segment>)
    ensures TextsOf(a + b) == TextsOf(a) + TextsOf(b)
  {
  }

  lemma {:induction false} WordsOfJoinedChunks(cs: seq<seq<string>>)
    requires forall i :: 0 <= i < |cs| ==> AllWords(cs[i])
    ensures WordsOfTexts(JoinEach(cs)) == Flatten(cs)
    decreases |cs|
  {
    if |cs| > 0 {
      SplitWordsJoinSpace(cs[0]);
      WordsOfJoinedChunks(cs[1..]);
      assert JoinEach(cs)[1..] == JoinEach(cs[1..]);
    }
  }

  lemma {:induction false} FlattenAllWords(cs: seq<seq<string>>)
    requires AllWords(Flatten(cs))
    ensures forall i :: 0 <= i < |cs| ==> AllWords(cs[i])
    decreases |cs|
  {
    if |cs| > 0 {
      assert Flatten(cs) == cs[0] + Flatten(cs[1..]);
      assert forall k :: 0 <= k < |Flatten(cs[1..])| ==> Flatten(cs[1..])[k] == Flatten(cs)[|cs[0]| + k];
      FlattenAllWords(cs[1..]);
      forall i | 0 <= i < |cs| ensures AllWords(cs[i]) {
        if i == 0 {
          assert forall k :: 0 <= k < |cs[0]| ==> cs[0][k] == Flatten(cs)[k];
        } else {
          assert cs[i] == cs[1..][i - 1];
        }
      }
    }
  }

  /** The subtitle texts of a sentence hold exactly its words, in order. */
  lemma SentenceShortsWords(sentence: string, start: real, end: real, maxWords: int, maxChars: int)
    ensures WordsOfTexts(TextsOf(SentenceShorts(sentence, start, end, maxWords, maxChars))) == SplitWords(sentence)
  {
    if |Strip(sentence)| == 0 {
      assert AllSpace(sentence);
      SplitWordsSpacePrefix(sentence, "");
      assert sentence + "" == sentence;
    } else {
      var words := SplitWords(sentence);
      var cs := ChunkLists(words, maxWords, maxChars);
      ChunkListsFlatten(words, maxWords, maxChars);
      FlattenAllWords(cs);
      WordsOfJoinedChunks(cs);
      var r := SentenceShorts(sentence, start, end, maxWords, maxChars);
      assert TextsOf(r) == JoinEach(cs);
    }
  }

  lemma SegmentWordsAppend(a: seq<Segment>, b: seq<Segment>)
    ensures WordsOfTexts(TextsOf(a + b)) == WordsOfTexts(TextsOf(a)) + WordsOfTexts(TextsOf(b))
  {
    TextsOfAppend(a, b);
    WordsOfTextsAppend(TextsOf(a), TextsOf(b));
  }

  lemma WordsOfTextsSnoc(ts: seq<string>)
    requires |ts| > 0
    ensures WordsOfTexts(ts) == WordsOfTexts(ts[..|ts| - 1]) + SplitWords(ts[|ts| - 1])
  {
    var last := ts[|ts| - 1];
    assert ts == ts[..|ts| - 1] + [last];
    WordsOfTextsAppend(ts[..|ts| - 1], [last]);
    assert WordsOfTexts([last]) == SplitWords(last) + WordsOfTexts([]);
  }

  lemma {:induction false} SentencesShortsWords(sentences: seq<string>, start: real, end: real, maxWords: int, maxChars: int)
    ensures WordsOfTexts(TextsOf(SentencesShorts(sentences, start, end, maxWords, maxChars))) == WordsOfTexts(sentences)
    decreases |sentences|
  {
    if |sentences| > 0 {
      var prefix := sentences[..|sentences| - 1];
      var last := sentences[|sentences| - 1];
      var a := SentencesShorts(prefix, start, end, maxWords, maxChars);
      var b := SentenceShorts(last, start, end, maxWords, maxChars);
      SentencesShortsWords(prefix, start, end, maxWords, maxChars);
      SentenceShortsWords(last, start, end, maxWords, maxChars);
      SegmentWordsAppend(a, b);
      WordsOfTextsSnoc(sentences);
    }
  }

  /** The subtitles of a segment whose stripped text has two or more characters
      hold exactly the words of that text, in order; shorter texts give none. */
  lemma SegmentShortsWords(seg: Segment, maxWords: int, maxChars: int)
    ensures |Strip(seg.text)| < 2 ==> SegmentShorts(seg, maxWords, maxChars) == []
    ensures |Strip(seg.text)| >= 2 ==>
      WordsOfTexts(TextsOf(SegmentShorts(seg, maxWords, maxChars))) == SplitWords(seg.text)
  {
    var text := Strip(seg.text);
    if |text| >= 2 {
      SentencesShortsWords(SplitSentences(text), seg.start, seg.end, maxWords, maxChars);
      SplitSentencesWords(text);
      SplitWordsStrip(seg.text);
    }
  }

  lemma MulMonotone(a: real, b: real, d: real)
    requires a <= b && 0.0 <= d
    ensures a * d <= b * d
  {
  }

  /** Slot x of n equal slots of a forward span lies within the span. */
  lemma SlotWithin(start: real, end: real, x: real, n: real)
    requires start <= end && 0.0 <= x && x + 1.0 <= n
    ensures var d := (end - start) / n;
      start <= start + x * d <= start + x * d + d <= end
  {
    var d := (end - start) / n;
    assert n * d == end - start;
    MulMonotone(x + 1.0, n, d);
    assert 0.0 <= x * d;
    assert (x + 1.0) * d == x * d + d;
  }

  /** Chunks timed over a forward span lie within it. */
  lemma TimeChunksWithinSpan(chunks: seq<string>, start: real, end: real)
    requires start <= end
    ensures forall s :: s in TimeChunks(chunks, start, end) ==> start <= s.start <= s.end <= end
  {
    var r := TimeChunks(chunks, start, end);
    if |chunks| > 0 {
      var n := |chunks| as real;
      forall i | 0 <= i < |r| ensures start <= r[i].start <= r[i].end <= end {
        SlotWithin(start, end, i as real, n);
      }
    }
  }

  /** Every subtitle of a segment lies within the segment's span when it is not reversed. */
  lemma {:induction false} SentencesShortsWithinSpan(sentences: seq<string>, start: real, end: real, maxWords: int, maxChars: int)
    requires start <= end
    ensures forall s :: s in SentencesShorts(sentences, start, end, maxWords, maxChars) ==> start <= s.start <= s.end <= end
    decreases |sentences|
  {
    if |sentences| > 0 {
      var prefix := sentences[..|sentences| - 1];
      var last := sentences[|sentences| - 1];
      SentencesShortsWithinSpan(prefix, start, end, maxWords, maxChars);
      if |Strip(last)| != 0 {
        TimeChunksWithinSpan(ChunkTexts(SplitWords(last), maxWords, maxChars), start, end);
      }
    }
  }
}
