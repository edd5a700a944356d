/** Percent-encoding of byte strings (sections 2.1 and 2.3 of RFC 3986). */
module UrlText {

  /** A char of the program: one byte. */
  type Byte = c: char | c as int < 256

  const HEX_DIGITS: string := "0123456789ABCDEF"

  predicate Unreserved(c: char) {
    || '0' <= c <= '9' || 'A' <= c <= 'Z' || 'a' <= c <= 'z'
    || c == '-' || c == '_' || c == '.' || c == '~'
  }

  function EncodeByte(c: Byte): string {
    if Unreserved(c) then [c]
    else ['%', HEX_DIGITS[c as int / 16], HEX_DIGITS[c as int % 16]]
  }

  function Encoded(text: seq<Byte>): string {
    if text == [] then "" else EncodeByte(text[0]) + Encoded(text[1..])
  }

  function HexValue(c: char): (v: int)
    ensures -1 <= v < 16
  {
    if '0' <= c <= '9' then c as int - '0' as int
    else if 'A' <= c <= 'F' then c as int - 'A' as int + 10
    else if 'a' <= c <= 'f' then c as int - 'a' as int + 10
    else -1
  }

  predicate IsEscape(text: string) {
    |text| > 2 && text[0] == '%' && HexValue(text[1]) >= 0 && HexValue(text[2]) >= 0
  }

  function Decoded(text: string): string
    decreases |text|
  {
    if text == "" then ""
    else if IsEscape(text) then [(HexValue(text[1]) * 16 + HexValue(text[2])) as char] + Decoded(text[3..])
    else [if text[0] == '+' then ' ' else text[0]] + Decoded(text[1..])
  }

  lemma {:induction false} EncodedSnoc(text: seq<Byte>, c: Byte)
    ensures Encoded(text + [c]) == Encoded(text) + EncodeByte(c)
  {
    if text == [] {
      assert (text + [c])[1..] == [];
    } else {
      assert (text + [c])[1..] == text[1..] + [c];
      EncodedSnoc(text[1..], c);
    }
  }

  method UrlEncode(text: seq<Byte>) returns (encoded: string)
    ensures encoded == Encoded(text)
  {
    encoded := "";
    var i := 0;
    while i < |text|
      invariant 0 <= i <= |text| && encoded == Encoded(text[..i])
    {
      var ch := text[i];
      EncodedSnoc(text[..i], ch);
      assert text[..i + 1] == text[..i] + [ch];
      if Unreserved(ch) {
        encoded := encoded + [ch];
      } else {
        encoded := encoded + ['%'];
        encoded := encoded + [HEX_DIGITS[ch as int / 16]];
        encoded := encoded + [HEX_DIGITS[ch as int % 16]];
      }
      i := i + 1;
    }
    assert text[..i] == text;
  }

  /** The character decoded at position i, and the position after it. */
  method DecodeOne(text: string, i: nat) returns (c: char, next: nat)
    requires i < |text|
    ensures i < next <= |text| && Decoded(text[i..]) == [c] + Decoded(text[next..])
  {
    var ch := text[i];
    if ch == '%' && i + 2 < |text| {
      var hi, lo := HexValue(text[i + 1]), HexValue(text[i + 2]);
      if hi >= 0 && lo >= 0 {
        return (hi * 16 + lo) as char, i + 3;
      }
    }
    if ch == '+' {
      return ' ', i + 1;
    }
    return ch, i + 1;
  }

  method UrlDecode(text: string) returns (decoded: string)
    ensures decoded == Decoded(text)
  {
    decoded := "";
    var i: nat := 0;
    assert text[0..] == text;
    while i < |text|
      invariant 0 <= i <= |text| && decoded + Decoded(text[i..]) == Decoded(text)
    {
      var c, next := DecodeOne(text, i);
      decoded := decoded + [c];
      i := next;
    }
  }

  lemma HexRoundTrip(c: Byte)
    ensures HexValue(HEX_DIGITS[c as int / 16]) == c as int / 16
    ensures HexValue(HEX_DIGITS[c as int % 16]) == c as int % 16
  {
    HexDigitValue(c as int / 16);
    HexDigitValue(c as int % 16);
  }

  lemma HexDigitValue(d: int)
    requires 0 <= d < 16
    ensures HexValue(HEX_DIGITS[d]) == d
  {
    if d < 10 {
      assert HEX_DIGITS[..10] == "0123456789" && HEX_DIGITS[d] == HEX_DIGITS[..10][d];
    } else {
      assert HEX_DIGITS[10..] == "ABCDEF" && HEX_DIGITS[d] == HEX_DIGITS[10..][d - 10];
    }
  }

  /** Decoding undoes encoding, for every byte string. */
  lemma {:induction false} DecodeUndoesEncode(text: seq<Byte>)
    ensures Decoded(Encoded(text)) == text
  {
    if text != [] {
      var c, rest := text[0], Encoded(text[1..]);
      DecodeUndoesEncode(text[1..]);
      var encoded := EncodeByte(c) + rest;
      if Unreserved(c) {
        assert encoded[1..] == rest;
      } else {
        HexRoundTrip(c);
        assert encoded[3..] == rest;
        assert (c as int / 16 * 16 + c as int % 16) as char == c;
      }
    }
  }

  /** An encoding holds only unreserved characters, and percent signs with two hexadecimal digits
      after them. */
  lemma {:induction false} EncodedIsPlain(text: seq<Byte>, k: nat)
    requires k < |Encoded(text)|
    ensures var c := Encoded(text)[k];
      || '0' <= c <= '9' || 'A' <= c <= 'Z' || 'a' <= c <= 'z' || c == '-' || c == '_' || c == '.' || c == '~'
      || (c == '%' && k + 2 < |Encoded(text)| && HexDigit(Encoded(text)[k + 1]) && HexDigit(Encoded(text)[k + 2]))
  {
    var first := EncodeByte(text[0]);
    if k >= |first| {
      EncodedIsPlain(text[1..], k - |first|);
      assert Encoded(text)[k] == Encoded(text[1..])[k - |first|];
    } else {
      HexDigits(text[0] as int / 16);
      HexDigits(text[0] as int % 16);
    }
  }

  predicate HexDigit(c: char) { '0' <= c <= '9' || 'A' <= c <= 'F' }

  lemma HexDigits(d: int)
    requires 0 <= d < 16
    ensures HexDigit(HEX_DIGITS[d])
  {
  }

  /** Letters, digits and the four marks stay as they are; all else becomes its two digits. */
  lemma EncodesByte(c: Byte)
    ensures EncodeByte(c) ==
      if '0' <= c <= '9' || 'A' <= c <= 'Z' || 'a' <= c <= 'z' || c in "-_.~" then [c]
      else ['%', "0123456789ABCDEF"[c as int / 16], "0123456789ABCDEF"[c as int % 16]]
  {
    assert "-_.~"[0] == '-' && "-_.~"[1] == '_' && "-_.~"[2] == '.' && "-_.~"[3] == '~';
  }
}
