/** The dictionary and fragment utilities of bootstrap/util/charset_util.go.
    The word list file is the sequence of its lines, given by the caller;
    `rand.Intn` draws are inputs with the ranges `rand.Intn` returns. */
module CharsetUtil {
  import opened GoValues
  import opened GoStrings

  /** The index of the word fragments are cut from, and the list length
      `GenerateRandomWord` needs to reach it. */
  const SourceWordIndex: nat := 4099
  const RequiredWords: nat := 4100

  /** The dictionary as `loadWords` fills it from the lines read so far:
      every line trimmed and lowercased. */
  function WordSetOf(lines: seq<string>): set<string>
  {
    if |lines| == 0 then {}
    else WordSetOf(lines[..|lines| - 1]) + {ToLower(TrimSpace(lines[|lines| - 1]))}
  }

  /** The word list as `loadWords` fills it from the lines read so far:
      every line trimmed, in file order. */
  function WordListOf(lines: seq<string>): seq<string>
  {
    if |lines| == 0 then []
    else WordListOf(lines[..|lines| - 1]) + [TrimSpace(lines[|lines| - 1])]
  }

  /** The dictionary holds exactly the trimmed, lowercased lines. */
  lemma {:induction false} WordSetOfMembers(lines: seq<string>, w: string)
    ensures w in WordSetOf(lines) <==> exists i :: 0 <= i < |lines| && w == ToLower(TrimSpace(lines[i]))
    decreases |lines|
  {
    if |lines| > 0 {
      var front := lines[..|lines| - 1];
      WordSetOfMembers(front, w);
      if i :| 0 <= i < |front| && w == ToLower(TrimSpace(front[i])) {
        assert lines[i] == front[i];
      }
      if i :| 0 <= i < |lines| && w == ToLower(TrimSpace(lines[i])) {
        if i < |front| {
          assert front[i] == lines[i];
        }
      }
    }
  }

  /** The word list has one trimmed entry per line, in order. */
  lemma {:induction false} WordListOfEntries(lines: seq<string>)
    ensures |WordListOf(lines)| == |lines|
    ensures forall i :: 0 <= i < |lines| ==> WordListOf(lines)[i] == TrimSpace(lines[i])
  {
    WordListOfLength(lines);
    forall i | 0 <= i < |lines| ensures WordListOf(lines)[i] == TrimSpace(lines[i]) {
      WordListOfAt(lines, i);
    }
  }

  lemma {:induction false} WordListOfLength(lines: seq<string>)
    ensures |WordListOf(lines)| == |lines|
    decreases |lines|
  {
    if |lines| > 0 {
      WordListOfLength(lines[..|lines| - 1]);
    }
  }

  lemma {:induction false} WordListOfAt(lines: seq<string>, i: nat)
    requires i < |lines|
    ensures i < |WordListOf(lines)| && WordListOf(lines)[i] == TrimSpace(lines[i])
    decreases |lines|
  {
    var front := lines[..|lines| - 1];
    WordListOfLength(front);
    if i < |front| {
      WordListOfAt(front, i);
      assert front[i] == lines[i];
    }
  }

  /** The scanner loop of `loadWords` over the lines of the file. */
  method LoadWords(lines: seq<string>) returns (wordSet: set<string>, wordList: seq<string>)
    ensures wordSet == WordSetOf(lines)
    ensures wordList == WordListOf(lines)
  {
    wordSet := {};
    wordList := [];
    var i := 0;
    while i < |lines|
      invariant 0 <= i <= |lines|
      invariant wordSet == WordSetOf(lines[..i])
      invariant wordList == WordListOf(lines[..i])
    {
      var word := TrimSpace(lines[i]);
      wordSet := wordSet + {ToLower(word)};
      wordList := wordList + [word];
      assert lines[..i + 1][..i] == lines[..i];
      i := i + 1;
    }
    assert lines[..i] == lines;
  }

  /** `IsWordValid`: the lowercased word is in the dictionary. */
  function IsWordValid(wordSet: set<string>, word: string): (r: bool)
    ensures r ==> exists w :: w in wordSet && |w| == |word|
  {
    ToLower(word) in wordSet
  }

  /** `ContainsSubstring`: the lowercased fragment is a contiguous part of
      the lowercased word. */
  function ContainsSubstring(word: string, substr: string): (r: bool)
    ensures r <==> exists i :: OccursAt(ToLower(word), ToLower(substr), i)
  {
    ContainsIff(ToLower(word), ToLower(substr));
    Contains(ToLower(word), ToLower(substr))
  }

  /** Validity ignores case. */
  lemma IsWordValidIgnoresCase(wordSet: set<string>, word: string)
    ensures IsWordValid(wordSet, word) == IsWordValid(wordSet, ToLower(word))
  {
    ToLowerIdempotent(word);
  }

  /** A word is valid exactly when some line of the file, trimmed, equals
      it up to case. */
  lemma IsWordValidMeaning(lines: seq<string>, word: string)
    ensures IsWordValid(WordSetOf(lines), word) <==>
            exists i :: 0 <= i < |lines| && ToLower(TrimSpace(lines[i])) == ToLower(word)
  {
    WordSetOfMembers(lines, ToLower(word));
  }

  /** The substring test is "occurs at some position", ignoring case; the
      empty fragment and the word itself always occur. */
  lemma ContainsSubstringMeaning(word: string, substr: string)
    ensures ContainsSubstring(word, substr) <==> exists i :: OccursAt(ToLower(word), ToLower(substr), i)
    ensures ContainsSubstring(word, "")
    ensures ContainsSubstring(word, word)
    ensures ContainsSubstring(word, substr) == ContainsSubstring(ToLower(word), substr)
  {
    ContainsIff(ToLower(word), ToLower(substr));
    ContainsEmptyAndSelf(ToLower(word));
    ToLowerIdempotent(word);
  }

  /** The draws `GenerateRandomWord` makes are within what `rand.Intn`
      returns: the length draw below `min(3, len) - 2 + 1`, and, when the
      fragment is shorter than the word, the start draw below
      `len - length + 1`, where `length = lengthDraw + 2` as
      `rand.Intn(maxLen - 2 + 1) + 2` computes it with `maxLen` the smaller
      of 3 and the word's length. */
  predicate DrawsInRange(wordList: seq<string>, lengthDraw: nat, startDraw: nat) {
    |wordList| >= RequiredWords && |wordList[SourceWordIndex]| >= 2 ==>
      var n := |wordList[SourceWordIndex]|;
      var maxLen := if n < 3 then n else 3;
      && lengthDraw <= maxLen - 2
      && (lengthDraw + 2 < n ==> startDraw <= n - (lengthDraw + 2))
  }

  /** `GenerateRandomWord`: None when the list has fewer than 4100 words
      (the function panics); otherwise word #4099 itself when it is shorter
      than two characters or exactly as long as the drawn length, and the
      drawn slice of it otherwise. */
  function GenerateRandomWord(wordList: seq<string>, lengthDraw: nat, startDraw: nat): (r: Option<string>)
    requires DrawsInRange(wordList, lengthDraw, startDraw)
    ensures r.None? <==> |wordList| < RequiredWords
    ensures r.Some? && |wordList[SourceWordIndex]| < 2 ==> r.value == wordList[SourceWordIndex]
    ensures r.Some? && |wordList[SourceWordIndex]| >= 2 ==>
              2 <= |r.value| <= 3 && |r.value| <= |wordList[SourceWordIndex]|
    ensures r.Some? && |wordList[SourceWordIndex]| >= 2 ==> |r.value| == lengthDraw + 2
    ensures r.Some? && lengthDraw + 2 < |wordList[SourceWordIndex]| ==>
              r.value == wordList[SourceWordIndex][startDraw..startDraw + lengthDraw + 2]
    ensures r.Some? ==> Contains(wordList[SourceWordIndex], r.value)
  {
    if |wordList| < RequiredWords then None
    else
      var word := wordList[SourceWordIndex];
      if |word| < 2 then
        ContainsEmptyAndSelf(word);
        Some(word)
      else
        var length := lengthDraw + 2;
        if |word| == length then
          ContainsEmptyAndSelf(word);
          Some(word)
        else
          var fragment := word[startDraw..startDraw + length];
          assert OccursAt(word, fragment, startDraw);
          ContainsIff(word, fragment);
          Some(fragment)
  }

  /** Every fragment is cut out of the same word: the result depends on the
      list only through word #4099. */
  lemma GenerateRandomWordUsesOneWord(a: seq<string>, b: seq<string>, lengthDraw: nat, startDraw: nat)
    requires |a| >= RequiredWords && |b| >= RequiredWords
    requires a[SourceWordIndex] == b[SourceWordIndex]
    requires DrawsInRange(a, lengthDraw, startDraw)
    ensures DrawsInRange(b, lengthDraw, startDraw)
    ensures GenerateRandomWord(a, lengthDraw, startDraw) == GenerateRandomWord(b, lengthDraw, startDraw)
  {
  }
}
