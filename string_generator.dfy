/** `GenerateRandomString` of bootstrap/util/string_generator.go: a string
    of lowercase letters whose length is drawn from `[min, max]`. The
    `rand.Intn` draws are inputs: the length draw and one letter draw per
    position. */
module StringGenerator {

  function Letters(): (r: seq<char>)
    ensures |r| == 26
    ensures forall i :: 0 <= i < 26 ==> r[i] == ('a' as int + i) as char
  {
    "abcdefghijklmnopqrstuvwxyz"
  }

  /** `rand.Intn(max - min + 1)` needs `max >= min`; `make` needs the
      length `lengthDraw + min` to be non-negative; each letter draw is a
      `rand.Intn(26)`. */
  method GenerateRandomString(min: int, max: int, lengthDraw: nat, letterDraws: seq<nat>) returns (s: string)
    requires max >= min && lengthDraw <= max - min && lengthDraw + min >= 0
    requires |letterDraws| == lengthDraw + min
    requires forall i :: 0 <= i < |letterDraws| ==> letterDraws[i] < 26
    ensures min <= |s| <= max
    ensures |s| == lengthDraw + min
    ensures forall i :: 0 <= i < |s| ==> 'a' <= s[i] <= 'z'
    ensures forall i :: 0 <= i < |s| ==> s[i] == Letters()[letterDraws[i]]
  {
    var letters := Letters();
    var length := lengthDraw + min;
    var b := new char[length];
    for i := 0 to length
      invariant forall j :: 0 <= j < i ==> b[j] == letters[letterDraws[j]]
    {
      b[i] := letters[letterDraws[i]];
    }
    s := b[..];
  }
}
