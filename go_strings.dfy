/** The parts of Go's `strings` and `fmt` packages the game's logic uses,
    on strings as sequences of characters: `ToLower` (ASCII letters only),
    `Contains`, `TrimSpace`, `Split` on a one-character separator, and the
    decimal rendering of `%d`. */
module GoStrings {

  /** `unicode.IsSpace`: the characters with Unicode's White_Space property. */
  predicate IsSpace(c: char) {
    var n := c as int;
    (9 <= n <= 13) || n == 32 || n == 0x85 || n == 0xA0 || n == 0x1680
    || (0x2000 <= n <= 0x200A) || n == 0x2028 || n == 0x2029 || n == 0x202F
    || n == 0x205F || n == 0x3000
  }

  predicate IsAsciiUpper(c: char) { 'A' <= c <= 'Z' }

  function LowerChar(c: char): (r: char)
    ensures IsAsciiUpper(c) ==> r as int == c as int + 32
    ensures !IsAsciiUpper(c) ==> r == c
    ensures !IsAsciiUpper(r)
  {
    if IsAsciiUpper(c) then (c as int + 32) as char else c
  }

  /** `strings.ToLower`, restricted to the ASCII letters. */
  function ToLower(s: string): (r: string)
    ensures |r| == |s|
    ensures forall i :: 0 <= i < |s| ==> r[i] == LowerChar(s[i])
  {
    seq(|s|, i requires 0 <= i < |s| => LowerChar(s[i]))
  }

  lemma ToLowerIdempotent(s: string)
    ensures ToLower(ToLower(s)) == ToLower(s)
  {
    assert forall i :: 0 <= i < |s| ==> LowerChar(LowerChar(s[i])) == LowerChar(s[i]);
  }

  /** `sub` occurs in `s` starting at position `i`. */
  predicate OccursAt(s: string, sub: string, i: int) {
    0 <= i && i + |sub| <= |s| && s[i..i + |sub|] == sub
  }

  /** `strings.Contains`: is `sub` a contiguous part of `s`? */
  function Contains(s: string, sub: string): (r: bool)
    ensures sub == [] ==> r
    ensures r ==> |sub| <= |s|
    decreases |s|
  {
    if sub <= s then true
    else if |s| == 0 then false
    else Contains(s[1..], sub)
  }

  /** Contains is exactly "occurs at some position". */
  lemma {:induction false} ContainsIff(s: string, sub: string)
    ensures Contains(s, sub) <==> exists i :: OccursAt(s, sub, i)
    decreases |s|
  {
    if sub <= s {
      assert OccursAt(s, sub, 0);
    } else if |s| == 0 {
    } else {
      ContainsIff(s[1..], sub);
      if Contains(s[1..], sub) {
        var i :| OccursAt(s[1..], sub, i);
        assert s[i + 1..i + 1 + |sub|] == s[1..][i..i + |sub|];
        assert OccursAt(s, sub, i + 1);
      }
      if i :| OccursAt(s, sub, i) {
        assert s[1..][i - 1..i - 1 + |sub|] == s[i..i + |sub|];
        assert OccursAt(s[1..], sub, i - 1);
      }
    }
  }

  lemma ContainsEmptyAndSelf(s: string)
    ensures Contains(s, "")
    ensures Contains(s, s)
  {
  }

  /** How many white-space characters `s` starts with. */
  function LeadingSpaces(s: string): (n: nat)
    ensures n <= |s|
    decreases |s|
  {
    if |s| > 0 && IsSpace(s[0]) then 1 + LeadingSpaces(s[1..]) else 0
  }

  /** How many white-space characters `s` ends with. */
  function TrailingSpaces(s: string): (n: nat)
    ensures n <= |s|
    decreases |s|
  {
    if |s| > 0 && IsSpace(s[|s| - 1]) then 1 + TrailingSpaces(s[..|s| - 1]) else 0
  }

  /** `strings.TrimSpace`: drop leading and trailing white space; a string
      that neither starts nor ends with white space is kept whole. */
  function TrimSpace(s: string): (r: string)
    ensures |r| <= |s|
    ensures |s| > 0 && !IsSpace(s[0]) && !IsSpace(s[|s| - 1]) ==> r == s
  {
    var l := s[LeadingSpaces(s)..];
    l[..|l| - TrailingSpaces(l)]
  }

  /** The leading count stops at the first character that is not white
      space, and everything before it is white space. */
  lemma {:induction false} LeadingSpacesMeaning(s: string)
    ensures forall j :: 0 <= j < LeadingSpaces(s) ==> IsSpace(s[j])
    ensures LeadingSpaces(s) < |s| ==> !IsSpace(s[LeadingSpaces(s)])
    decreases |s|
  {
    if |s| > 0 && IsSpace(s[0]) {
      LeadingSpacesMeaning(s[1..]);
      forall j | 0 < j < LeadingSpaces(s) ensures IsSpace(s[j]) {
        assert s[j] == s[1..][j - 1];
      }
    }
  }

  /** The trailing count stops at the last character that is not white
      space, and everything after it is white space. */
  lemma {:induction false} TrailingSpacesMeaning(s: string)
    ensures forall j :: |s| - TrailingSpaces(s) <= j < |s| ==> IsSpace(s[j])
    ensures TrailingSpaces(s) < |s| ==> !IsSpace(s[|s| - TrailingSpaces(s) - 1])
    decreases |s|
  {
    if |s| > 0 && IsSpace(s[|s| - 1]) {
      var front := s[..|s| - 1];
      TrailingSpacesMeaning(front);
      forall j | |s| - TrailingSpaces(s) <= j < |s| - 1 ensures IsSpace(s[j]) {
        assert s[j] == front[j];
      }
      if TrailingSpaces(s) < |s| {
        assert s[|s| - TrailingSpaces(s) - 1] == front[|front| - TrailingSpaces(front) - 1];
      }
    }
  }

  /** What TrimSpace keeps is one contiguous part of its input, starting
      after the leading white space. */
  lemma TrimSpaceOccurs(s: string)
    ensures OccursAt(s, TrimSpace(s), LeadingSpaces(s))
  {
    var i := LeadingSpaces(s);
    var l := s[i..];
    assert l[..|l| - TrailingSpaces(l)] == s[i..i + |l| - TrailingSpaces(l)];
  }

  /** What TrimSpace keeps neither starts nor ends with white space, and
      holds every character of the input that is not white space. */
  lemma TrimSpaceEnds(s: string)
    ensures var r := TrimSpace(s); |r| > 0 ==> !IsSpace(r[0]) && !IsSpace(r[|r| - 1])
  {
    var i := LeadingSpaces(s);
    var l := s[i..];
    var r := TrimSpace(s);
    LeadingSpacesMeaning(s);
    TrailingSpacesMeaning(l);
    if |r| > 0 {
      assert r[0] == l[0] == s[i];
      assert r[|r| - 1] == l[|l| - TrailingSpaces(l) - 1];
    }
  }

  /** `strings.Split(s, string(sep))`: the pieces between the separators;
      the result always has one piece more than `s` has separators. */
  function Split(s: string, sep: char): (r: seq<string>)
    ensures |r| >= 1
    decreases |s|
  {
    if |s| == 0 then [""]
    else
      var rest := Split(s[1..], sep);
      if s[0] == sep then [""] + rest
      else [[s[0]] + rest[0]] + rest[1..]
  }

  lemma {:induction false} SplitNoSeparator(s: string, sep: char)
    requires sep !in s
    ensures Split(s, sep) == [s]
    decreases |s|
  {
    if |s| > 0 {
      SplitNoSeparator(s[1..], sep);
      assert [s[0]] + s[1..] == s;
    }
  }

  lemma {:induction false} SplitAfterPiece(p: string, sep: char, rest: string)
    requires sep !in p
    ensures Split(p + [sep] + rest, sep) == [p] + Split(rest, sep)
    decreases |p|
  {
    var s := p + [sep] + rest;
    if |p| == 0 {
      assert s[1..] == rest;
    } else {
      assert s[1..] == p[1..] + [sep] + rest;
      SplitAfterPiece(p[1..], sep, rest);
      assert [p[0]] + p[1..] == p;
    }
  }

  /** The first piece holds no separator; if there are more pieces, a
      separator follows it and the remaining pieces split the remainder. */
  lemma {:induction false} SplitFirstPiece(s: string, sep: char)
    ensures sep !in Split(s, sep)[0]
    ensures |Split(s, sep)| == 1 ==> s == Split(s, sep)[0]
    ensures |Split(s, sep)| >= 2 ==>
      var k := |Split(s, sep)[0]|;
      k < |s| && s[k] == sep && s[..k] == Split(s, sep)[0]
      && Split(s, sep)[1..] == Split(s[k + 1..], sep)
    decreases |s|
  {
    if |s| > 0 {
      SplitFirstPiece(s[1..], sep);
      if s[0] != sep {
        var rest := Split(s[1..], sep);
        assert Split(s, sep)[0] == [s[0]] + rest[0];
        if |rest| == 1 {
          assert s == [s[0]] + s[1..];
        } else {
          var k := |rest[0]|;
          assert s[k + 1 + 1..] == s[1..][k + 1..];
          assert s[..k + 1] == [s[0]] + s[1..][..k];
        }
      }
    }
  }

  /** Splitting `s` on a separator gives exactly the two pieces "Bearer" and
      `t` if and only if `s` is "Bearer", the separator and a `t` that holds
      no separator. */
  lemma SplitTwoPieces(s: string, p: string, sep: char)
    requires sep !in p
    ensures (|Split(s, sep)| == 2 && Split(s, sep)[0] == p) <==>
            (exists t :: sep !in t && s == p + [sep] + t)
    ensures |Split(s, sep)| == 2 && Split(s, sep)[0] == p ==>
            s == p + [sep] + Split(s, sep)[1] && sep !in Split(s, sep)[1]
  {
    if |Split(s, sep)| == 2 && Split(s, sep)[0] == p {
      SplitTwoPiecesJoin(s, p, sep);
    }
    if t :| sep !in t && s == p + [sep] + t {
      SplitAfterPiece(p, sep, t);
      SplitNoSeparator(t, sep);
    }
  }

  /** Two pieces put back together with the separator give the input. */
  lemma SplitTwoPiecesJoin(s: string, p: string, sep: char)
    requires |Split(s, sep)| == 2 && Split(s, sep)[0] == p
    ensures s == p + [sep] + Split(s, sep)[1] && sep !in Split(s, sep)[1]
  {
    var pieces := Split(s, sep);
    SplitFirstPiece(s, sep);
    var k := |p|;
    var tail := s[k + 1..];
    var rest := Split(tail, sep);
    assert rest == pieces[1..];
    assert |rest| == 1 && rest[0] == pieces[1];
    SplitFirstPiece(tail, sep);
    assert tail == pieces[1];
    assert s[..k] == p && s[k] == sep;
    assert s == s[..k] + [s[k]] + tail;
  }

  function DigitChar(d: nat): (c: char)
    requires d < 10
    ensures '0' <= c <= '9'
  {
    (48 + d) as char
  }

  /** `fmt.Sprintf("%d", n)` for a non-negative integer. */
  function NatToDecimal(n: nat): (r: string)
    ensures |r| >= 1
    ensures n >= 10 ==> |r| >= 2
    decreases n
  {
    if n < 10 then [DigitChar(n)] else NatToDecimal(n / 10) + [DigitChar(n % 10)]
  }

  /** Different numbers print differently. */
  lemma {:induction false} NatToDecimalInjective(a: nat, b: nat)
    requires NatToDecimal(a) == NatToDecimal(b)
    ensures a == b
    decreases a
  {
    var ra, rb := NatToDecimal(a), NatToDecimal(b);
    if a < 10 && b < 10 {
      assert ra[0] == rb[0];
    } else if a >= 10 && b >= 10 {
      assert ra[|ra| - 1] == rb[|rb| - 1];
      assert a % 10 == b % 10;
      assert ra[..|ra| - 1] == NatToDecimal(a / 10);
      assert rb[..|rb| - 1] == NatToDecimal(b / 10);
      NatToDecimalInjective(a / 10, b / 10);
    }
  }
}
