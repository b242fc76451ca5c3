/** The dictionary of bootstrap/util/answer_validator.go. Its `IsWordValid`
    and `ContainsSubstring` are the same expressions as those of
    bootstrap/util/charset_util.go and are modelled once, in module
    CharsetUtil; what differs is its `loadWords`, which keeps the
    dictionary set and no word list. */
module AnswerValidator {
  import opened GoStrings
  import CharsetUtil

  /** The scanner loop of `loadWords`: the same dictionary as the one
      bootstrap/util/charset_util.go builds from the same lines. */
  method LoadWordSet(lines: seq<string>) returns (wordSet: set<string>)
    ensures wordSet == CharsetUtil.WordSetOf(lines)
  {
    wordSet := {};
    var i := 0;
    while i < |lines|
      invariant 0 <= i <= |lines|
      invariant wordSet == CharsetUtil.WordSetOf(lines[..i])
    {
      var word := TrimSpace(lines[i]);
      wordSet := wordSet + {ToLower(word)};
      assert lines[..i + 1][..i] == lines[..i];
      i := i + 1;
    }
    assert lines[..i] == lines;
  }
}
