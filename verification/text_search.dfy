/** Finding a character in a string. */
module TextSearch {

  /** The position of the first c, or the length. */
  function IndexOf(s: string, c: char): (k: nat)
    ensures k <= |s| && c !in s[..k]
    ensures k < |s| ==> s[k] == c
  {
    if s == "" || s[0] == c then 0
    else
      assert s[..1 + IndexOf(s[1..], c)] == [s[0]] + s[1..][..IndexOf(s[1..], c)];
      1 + IndexOf(s[1..], c)
  }

  method FindFrom(text: string, c: char, start: nat) returns (i: nat)
    requires start <= |text|
    ensures i == start + IndexOf(text[start..], c)
  {
    i := start;
    while i < |text| && text[i] != c
      invariant start <= i <= |text|
      invariant i + IndexOf(text[i..], c) == start + IndexOf(text[start..], c)
    {
      assert text[i..][1..] == text[i + 1..];
      i := i + 1;
    }
  }
}
