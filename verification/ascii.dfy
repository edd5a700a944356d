/** Character classes and case of ASCII; other characters have neither. */
module Ascii {

  predicate IsDigit(c: char) { '0' <= c <= '9' }

  predicate IsAlpha(c: char) { 'a' <= c <= 'z' || 'A' <= c <= 'Z' }

  function Lower(c: char): (r: char)
    ensures IsDigit(r) == IsDigit(c)
    ensures IsDigit(c) ==> r == c
  {
    if 'A' <= c <= 'Z' then (c as int + 32) as char else c
  }

  function Upper(c: char): (r: char)
    ensures Lower(r) == Lower(c)
  {
    if 'a' <= c <= 'z' then (c as int - 32) as char else c
  }

  function Lowered(s: string): (r: string)
    ensures |r| == |s| && forall i :: 0 <= i < |s| ==> r[i] == Lower(s[i])
  {
    seq(|s|, i requires 0 <= i < |s| => Lower(s[i]))
  }

  /** The classes end where ASCII has it. */
  lemma ClassesEnd()
    ensures IsDigit('0') && IsDigit('9') && !IsDigit('/') && !IsDigit(':')
    ensures IsAlpha('a') && IsAlpha('z') && !IsAlpha('`') && !IsAlpha('{')
    ensures IsAlpha('A') && IsAlpha('Z') && !IsAlpha('@') && !IsAlpha('[')
    ensures Lower('A') == 'a' && Lower('Z') == 'z' && Lower('@') == '@' && Lower('[') == '['
    ensures Upper('a') == 'A' && Upper('z') == 'Z' && Upper('`') == '`' && Upper('{') == '{'
  {
  }
}
