/** Base64 (section 4 of RFC 4648): the encoder on 24-bit groups, and the decoder
    on a 32-bit accumulator that is never masked and wraps around. */
module Base64 {

  type Byte = x: int | 0 <= x < 256
  type Digit = x: int | 0 <= x < 64

  // ----- bytes and digits, in groups -----

  function Digit0(x: Byte): Digit { x as int / 4 }
  function Digit1(x: Byte, y: Byte): Digit { x as int % 4 * 16 + y as int / 16 }
  function Digit2(y: Byte, z: Byte): Digit { y as int % 16 * 4 + z as int / 64 }
  function Digit3(z: Byte): Digit { z as int % 64 }

  function Byte0(a: Digit, b: Digit): Byte { a as int * 4 + b as int / 16 }
  function Byte1(b: Digit, c: Digit): Byte { b as int % 16 * 16 + c as int / 4 }
  function Byte2(c: Digit, d: Digit): Byte { c as int % 4 * 64 + d as int }

  /** The digits of the data, by groups of three bytes; a last group of n < 3 bytes has n + 1 digits. */
  function ToDigits(data: seq<Byte>): seq<Digit>
    decreases |data|
  {
    if data == [] then []
    else if |data| == 1 then [Digit0(data[0]), Digit1(data[0], 0)]
    else if |data| == 2 then [Digit0(data[0]), Digit1(data[0], data[1]), Digit2(data[1], 0)]
    else [Digit0(data[0]), Digit1(data[0], data[1]), Digit2(data[1], data[2]), Digit3(data[2])] + ToDigits(data[3..])
  }

  function FromDigits(ds: seq<Digit>): seq<Byte>
    decreases |ds|
  {
    if |ds| < 2 then []
    else if |ds| == 2 then [Byte0(ds[0], ds[1])]
    else if |ds| == 3 then [Byte0(ds[0], ds[1]), Byte1(ds[1], ds[2])]
    else [Byte0(ds[0], ds[1]), Byte1(ds[1], ds[2]), Byte2(ds[2], ds[3])] + FromDigits(ds[4..])
  }

  // Quotient and remainder by a constant are unique.

  lemma Div4(a: int, q: int, r: int)
    requires a == 4 * q + r && 0 <= r < 4
    ensures a / 4 == q && a % 4 == r
  {
  }

  lemma Div16(a: int, q: int, r: int)
    requires a == 16 * q + r && 0 <= r < 16
    ensures a / 16 == q && a % 16 == r
  {
  }

  lemma Div64(a: int, q: int, r: int)
    requires a == 64 * q + r && 0 <= r < 64
    ensures a / 64 == q && a % 64 == r
  {
  }

  lemma Div256(a: int, q: int, r: int)
    requires a == 256 * q + r && 0 <= r < 256
    ensures a / 256 == q && a % 256 == r
  {
  }

  lemma ByteOfDigits0(x: Byte, y: Byte)
    ensures Byte0(Digit0(x), Digit1(x, y)) == x
  {
    Div16(Digit1(x, y), x % 4, y / 16);
  }

  lemma ByteOfDigits1(x: Byte, y: Byte, z: Byte)
    ensures Byte1(Digit1(x, y), Digit2(y, z)) == y
  {
    Div16(Digit1(x, y), x % 4, y / 16);
    Div4(Digit2(y, z), y % 16, z / 64);
  }

  lemma ByteOfDigits2(y: Byte, z: Byte)
    ensures Byte2(Digit2(y, z), Digit3(z)) == z
  {
    Div4(Digit2(y, z), y % 16, z / 64);
  }

  lemma GroupFromDigits(a: Digit, b: Digit, c: Digit, d: Digit, rest: seq<Digit>)
    ensures FromDigits([a, b, c, d] + rest) == [Byte0(a, b), Byte1(b, c), Byte2(c, d)] + FromDigits(rest)
  {
    assert ([a, b, c, d] + rest)[4..] == rest;
  }

  lemma ShortFromDigits(a: Digit, b: Digit, c: Digit)
    ensures FromDigits([a, b]) == [Byte0(a, b)]
    ensures FromDigits([a, b, c]) == [Byte0(a, b), Byte1(b, c)]
  {
  }

  lemma OneByteRoundTrip(x: Byte)
    ensures FromDigits(ToDigits([x])) == [x]
  {
    ShortFromDigits(Digit0(x), Digit1(x, 0), 0);
    ByteOfDigits0(x, 0);
  }

  lemma TwoByteRoundTrip(x: Byte, y: Byte)
    ensures FromDigits(ToDigits([x, y])) == [x, y]
  {
    ShortFromDigits(Digit0(x), Digit1(x, y), Digit2(y, 0));
    ByteOfDigits0(x, y);
    ByteOfDigits1(x, y, 0);
  }

  lemma {:induction false} FromDigitsUndoesToDigits(data: seq<Byte>)
    ensures FromDigits(ToDigits(data)) == data
    decreases |data|
  {
    if |data| == 1 {
      OneByteRoundTrip(data[0]);
      assert data == [data[0]];
    } else if |data| == 2 {
      TwoByteRoundTrip(data[0], data[1]);
      assert data == [data[0], data[1]];
    } else if |data| >= 3 {
      var first, rest := [data[0], data[1], data[2]], data[3..];
      assert data == first + rest;
      FullGroupRoundTrip(data[0], data[1], data[2], rest);
      FromDigitsUndoesToDigits(rest);
    }
  }

  lemma FullGroupRoundTrip(x: Byte, y: Byte, z: Byte, rest: seq<Byte>)
    ensures FromDigits(ToDigits([x, y, z] + rest)) == [x, y, z] + FromDigits(ToDigits(rest))
  {
    assert ([x, y, z] + rest)[3..] == rest;
    ByteOfDigits0(x, y);
    ByteOfDigits1(x, y, z);
    ByteOfDigits2(y, z);
    GroupFromDigits(Digit0(x), Digit1(x, y), Digit2(y, z), Digit3(z), ToDigits(rest));
  }

  // ----- text -----

  /** kChars[d]. */
  function Alphabet(d: int): char
    requires 0 <= d < 64
  {
    if d < 26 then ('A' as int + d) as char
    else if d < 52 then ('a' as int + d - 26) as char
    else if d < 62 then ('0' as int + d - 52) as char
    else if d == 62 then '+'
    else '/'
  }

  /** The decode table: the position of c in the alphabet, or -1. */
  function ValueOf(c: char): (v: int)
    ensures -1 <= v < 64
    ensures v >= 0 ==> Alphabet(v) == c
    ensures v < 0 ==> forall d: Digit :: Alphabet(d) != c
  {
    if 'A' <= c <= 'Z' then c as int - 'A' as int
    else if 'a' <= c <= 'z' then c as int - 'a' as int + 26
    else if '0' <= c <= '9' then c as int - '0' as int + 52
    else if c == '+' then 62
    else if c == '/' then 63
    else -1
  }

  lemma ValueOfAlphabet(d: Digit)
    ensures ValueOf(Alphabet(d)) == d && Alphabet(d) != '='
  {
  }

  /** The four characters of a group of one to three bytes; a short group is padded. */
  function Group(group: seq<Byte>): string
    requires 1 <= |group| <= 3
  {
    var y, z := if |group| > 1 then group[1] else 0, if |group| > 2 then group[2] else 0;
    [Alphabet(Digit0(group[0])), Alphabet(Digit1(group[0], y)),
     if |group| > 1 then Alphabet(Digit2(y, z)) else '=', if |group| > 2 then Alphabet(Digit3(z)) else '=']
  }

  function Encoded(data: seq<Byte>): string
    decreases |data|
  {
    if data == [] then ""
    else if |data| < 3 then Group(data)
    else Group(data[..3]) + Encoded(data[3..])
  }

  /** What decoding reads: the alphabet characters before the first '='. */
  function Digits(text: string): seq<Digit> {
    if text == "" || text[0] == '=' then []
    else (if ValueOf(text[0]) >= 0 then [ValueOf(text[0])] else []) + Digits(text[1..])
  }

  function Decoded(text: string): seq<Byte> { FromDigits(Digits(text)) }

  // ----- encode -----

  /** data << (16 - 8 * j): the places of the bytes of a chunk do not overlap, so
      that or-ing the bytes together is adding them. */
  function Placed(b: Byte, j: nat): int
    requires j < 3
  {
    var x: int := b;
    if j == 0 then x * 0x1_0000 else if j == 1 then x * 0x100 else x
  }

  function Chunk(x: int, y: int, z: int): int { x * 0x1_0000 + y * 0x100 + z }

  /** Shifting and masking the chunk gives the four digits of the group. */
  lemma ChunkDigit0(x: Byte, y: Byte, z: Byte)
    ensures Chunk(x, y, z) / 0x4_0000 % 64 == Digit0(x)
  {
    assert Chunk(x, y, z) == 0x4_0000 * (x / 4) + (x % 4 * 0x1_0000 + y * 0x100 + z);
    assert Chunk(x, y, z) / 0x4_0000 == x / 4;
  }

  lemma ChunkDigit1(x: Byte, y: Byte, z: Byte)
    ensures Chunk(x, y, z) / 0x1000 % 64 == Digit1(x, y)
  {
    assert Chunk(x, y, z) == 0x1000 * (x * 16 + y / 16) + (y % 16 * 0x100 + z);
    assert Chunk(x, y, z) / 0x1000 == x * 16 + y / 16;
    Div64(x * 16 + y / 16, x / 4, Digit1(x, y));
  }

  lemma ChunkDigit2(x: Byte, y: Byte, z: Byte)
    ensures Chunk(x, y, z) / 0x40 % 64 == Digit2(y, z)
  {
    Div64(Chunk(x, y, z), x * 1024 + y * 4 + z / 64, z % 64);
    Div64(x * 1024 + y * 4 + z / 64, x * 16 + y / 16, Digit2(y, z));
  }

  lemma ChunkDigit3(x: Byte, y: Byte, z: Byte)
    ensures Chunk(x, y, z) % 64 == Digit3(z)
  {
    Div64(Chunk(x, y, z), x * 1024 + y * 4 + z / 64, z % 64);
  }

  /** The inner loop of the encoder. */
  method Pack(group: seq<Byte>) returns (chunk: int)
    requires 1 <= |group| <= 3
    ensures chunk == Chunk(group[0], if |group| > 1 then group[1] else 0, if |group| > 2 then group[2] else 0)
  {
    chunk := 0;
    var j := 0;
    while j < |group|
      invariant 0 <= j <= |group|
      invariant chunk == (if j > 0 then Placed(group[0], 0) else 0)
        + (if j > 1 then Placed(group[1], 1) else 0) + (if j > 2 then Placed(group[2], 2) else 0)
    {
      chunk := chunk + Placed(group[j], j);
      j := j + 1;
    }
  }

  method EncodeGroup(group: seq<Byte>) returns (out: string)
    requires 1 <= |group| <= 3
    ensures out == Group(group)
  {
    var n := |group|;
    ghost var y, z := if n > 1 then group[1] else 0, if n > 2 then group[2] else 0;
    var chunk := Pack(group);
    ChunkDigit0(group[0], y, z);
    ChunkDigit1(group[0], y, z);
    ChunkDigit2(group[0], y, z);
    ChunkDigit3(group[0], y, z);
    out := [Alphabet(chunk / 0x4_0000 % 64)];
    out := out + [Alphabet(chunk / 0x1000 % 64)];
    out := out + [if n > 1 then Alphabet(chunk / 0x40 % 64) else '='];
    out := out + [if n > 2 then Alphabet(chunk % 64) else '='];
  }

  function EncodedFrom(data: seq<Byte>, i: nat): string {
    if i < |data| then Encoded(data[i..]) else ""
  }

  function GroupSize(data: seq<Byte>, i: nat): (n: nat)
    requires i < |data|
    ensures 1 <= n <= 3 && i + n <= |data|
  {
    if |data| - i < 3 then |data| - i else 3
  }

  lemma EncodedNext(data: seq<Byte>, i: nat)
    requires i < |data|
    ensures EncodedFrom(data, i) == Group(data[i..i + GroupSize(data, i)]) + EncodedFrom(data, i + 3)
  {
    var rest := data[i..];
    if |rest| >= 3 {
      assert rest[..3] == data[i..i + 3] && rest[3..] == data[i + 3..];
      assert i + 3 == |data| ==> data[i + 3..] == [];
      assert EncodedFrom(data, i + 3) == Encoded(data[i + 3..]);
    } else {
      assert rest == data[i..|data|];
      assert Group(rest) + "" == Group(rest);
    }
  }

  method Encode(data: seq<Byte>) returns (out: string)
    ensures out == Encoded(data)
  {
    out := "";
    var i: nat := 0;
    assert data[0..] == data;
    assert EncodedFrom(data, 0) == Encoded(data);
    while i < |data|
      invariant 0 <= i && out + EncodedFrom(data, i) == Encoded(data)
    {
      EncodedNext(data, i);
      var group := EncodeGroup(data[i..i + GroupSize(data, i)]);
      out := out + group;
      i := i + 3;
    }
    assert EncodedFrom(data, i) == "";
  }

  // ----- decode -----

  const TWO_31 := 0x8000_0000
  const TWO_32 := 0x1_0000_0000

  /** The 32-bit int that equals x modulo 2 to the 32. */
  function Wrap(x: int): (r: int)
    ensures -TWO_31 <= r < TWO_31
    ensures exists k :: r == x - k * TWO_32
  {
    assert (x + TWO_31) % TWO_32 - TWO_31 == x - (x + TWO_31) / TWO_32 * TWO_32;
    (x + TWO_31) % TWO_32 - TWO_31
  }

  /** The decoder's bit counter after a number of digits. */
  function Shift(digits: nat): int {
    match digits % 4
    case 0 => -8
    case 1 => -2
    case 2 => -4
    case _ => -6
  }

  /** The low bits of the accumulator that belong to the last digit and are not yet in a byte. */
  predicate Holds(val: int, digits: nat, last: Digit) {
    match digits % 4
    case 0 => true
    case 1 => val % 64 == last
    case 2 => val % 16 == last % 16
    case _ => val % 4 == last % 4
  }

  /** The byte completed by digit d when `digits` digits, the last being `last`, came before. */
  function Completed(digits: nat, last: Digit, d: Digit): seq<Byte> {
    match digits % 4
    case 0 => []
    case 1 => [Byte0(last, d)]
    case 2 => [Byte1(last, d)]
    case _ => [Byte2(last, d)]
  }

  function Last(ds: seq<Digit>): Digit { if ds == [] then 0 else ds[|ds| - 1] }

  lemma {:induction false} FromDigitsSnoc(ds: seq<Digit>, d: Digit)
    ensures FromDigits(ds + [d]) == FromDigits(ds) + Completed(|ds|, Last(ds), d)
    decreases |ds|
  {
    if |ds| >= 4 {
      FromDigitsSnoc(ds[4..], d);
      FromDigitsGroup(ds, d);
      SkipGroup(|ds|, Last(ds[4..]), Last(ds), d);
    } else if |ds| == 3 {
      assert (ds + [d])[4..] == [];
    }
  }

  lemma FromDigitsGroup(ds: seq<Digit>, d: Digit)
    requires |ds| >= 4
    ensures var first := [Byte0(ds[0], ds[1]), Byte1(ds[1], ds[2]), Byte2(ds[2], ds[3])];
      && FromDigits(ds + [d]) == first + FromDigits(ds[4..] + [d])
      && FromDigits(ds) == first + FromDigits(ds[4..])
  {
    assert (ds + [d])[4..] == ds[4..] + [d];
  }

  lemma SkipGroup(digits: nat, l: Digit, last: Digit, d: Digit)
    requires digits >= 4 && ((digits - 4) % 4 != 0 ==> l == last)
    ensures Completed(digits - 4, l, d) == Completed(digits, last, d)
  {
    assert (digits - 4) % 4 == digits % 4;
  }

  /** Low bits of an int are those of its remainder by a larger power of two. */
  lemma LowBits(q: int, d: Digit)
    ensures (64 * q + d) % 64 == d && (64 * q + d) % 16 == d % 16 && (64 * q + d) % 4 == d % 4
  {
    Div64(64 * q + d, q, d);
    Div16(64 * q + d, 4 * q + d / 16, d % 16);
    Div4(64 * q + d, 16 * q + d / 4, d % 4);
  }

  /** After one more digit the accumulator holds that digit's low bits again, however it wrapped. */
  lemma StillHolds(val: int, digits: nat, d: Digit)
    ensures Holds(Wrap(val * 64) + d, digits + 1, d)
  {
    var k :| Wrap(val * 64) == val * 64 - k * TWO_32;
    LowBits(val - k * 0x400_0000, d);
    assert Wrap(val * 64) + d == 64 * (val - k * 0x400_0000) + d;
  }

  lemma FirstByte(val: int, last: Digit, d: Digit)
    requires val % 64 == last
    ensures (Wrap(val * 64) + d) / 16 % 256 == Byte0(last, d)
  {
    var k :| Wrap(val * 64) == val * 64 - k * TWO_32;
    var q := val / 64 - k * 0x10_0000;
    Div16(Wrap(val * 64) + d, 256 * q + (4 * last + d / 16), d % 16);
    Div256(256 * q + (4 * last + d / 16), q, 4 * last + d / 16);
  }

  lemma SecondByte(val: int, last: Digit, d: Digit)
    requires val % 16 == last % 16
    ensures (Wrap(val * 64) + d) / 4 % 256 == Byte1(last, d)
  {
    var k :| Wrap(val * 64) == val * 64 - k * TWO_32;
    var q := val / 16 - k * 0x40_0000;
    var low := last % 16;
    assert val == 16 * (val / 16) + low;
    Div4(Wrap(val * 64) + d, 256 * q + (16 * low + d / 4), d % 4);
    Div256(256 * q + (16 * low + d / 4), q, 16 * low + d / 4);
  }

  lemma ThirdByte(val: int, last: Digit, d: Digit)
    requires val % 4 == last % 4
    ensures (Wrap(val * 64) + d) % 256 == Byte2(last, d)
  {
    var k :| Wrap(val * 64) == val * 64 - k * TWO_32;
    var q := val / 4 - k * 0x100_0000;
    var low := last % 4;
    assert val == 4 * (val / 4) + low;
    Div256(Wrap(val * 64) + d, q, 64 * low + d);
  }

  /** (val >> shift) & 0xFF; shifting right rounds down, for negative values too. */
  function ByteAt(val: int, shift: int): Byte
    requires 0 <= shift < 6
  {
    (match shift
     case 0 => val
     case 1 => val / 2
     case 2 => val / 4
     case 3 => val / 8
     case 4 => val / 16
     case _ => val / 32) % 256
  }

  /** The decoder after the digits ds. */
  predicate Decoding(ds: seq<Digit>, out: seq<Byte>, val: int, valb: int) {
    out == FromDigits(ds) && valb == Shift(|ds|) && Holds(val, |ds|, Last(ds))
  }

  lemma ShiftNext(digits: nat)
    ensures Shift(digits + 1) == if Shift(digits) + 6 >= 0 then Shift(digits) - 2 else Shift(digits) + 6
    ensures -8 <= Shift(digits) < 0
  {
  }

  /** The byte given by the accumulator when a digit completes one. */
  lemma AccumulatorByte(val: int, digits: nat, last: Digit, d: Digit)
    requires Holds(val, digits, last)
    ensures Shift(digits) + 6 < 0 ==> Completed(digits, last, d) == []
    ensures 0 <= Shift(digits) + 6 < 6 ==>
      Completed(digits, last, d) == [ByteAt(Wrap(val * 64) + d, Shift(digits) + 6)]
  {
    if digits % 4 == 1 {
      FirstByte(val, last, d);
    } else if digits % 4 == 2 {
      SecondByte(val, last, d);
    } else if digits % 4 == 3 {
      ThirdByte(val, last, d);
    }
  }

  lemma DecodingNext(ds: seq<Digit>, out: seq<Byte>, val: int, valb: int, d: Digit)
    requires Decoding(ds, out, val, valb)
    ensures -8 <= valb < 0
    ensures valb + 6 < 0 ==> Decoding(ds + [d], out, Wrap(val * 64) + d, valb + 6)
    ensures valb + 6 >= 0 ==>
      Decoding(ds + [d], out + [ByteAt(Wrap(val * 64) + d, valb + 6)], Wrap(val * 64) + d, valb - 2)
  {
    ShiftNext(|ds|);
    StillHolds(val, |ds|, d);
    AccumulatorByte(val, |ds|, Last(ds), d);
    FromDigitsSnoc(ds, d);
    assert Last(ds + [d]) == d && |ds + [d]| == |ds| + 1;
  }

  /** What is left to read at position i. */
  lemma DigitsAt(text: string, i: nat)
    requires i < |text|
    ensures Digits(text[i..]) ==
      if text[i] == '=' then []
      else (if ValueOf(text[i]) >= 0 then [ValueOf(text[i])] else []) + Digits(text[i + 1..])
  {
    assert text[i..][1..] == text[i + 1..];
  }

  lemma Regroup(a: seq<Digit>, d: Digit, b: seq<Digit>)
    ensures a + ([d] + b) == (a + [d]) + b
  {
  }

  /** What is left to read after position i, and what reading it adds. */
  lemma ReadOne(text: string, i: nat, ds: seq<Digit>)
    requires i < |text| && ds + Digits(text[i..]) == Digits(text)
    ensures text[i] == '=' ==> ds == Digits(text)
    ensures text[i] != '=' && ValueOf(text[i]) < 0 ==> ds + Digits(text[i + 1..]) == Digits(text)
    ensures text[i] != '=' && ValueOf(text[i]) >= 0 ==>
      (ds + [ValueOf(text[i])]) + Digits(text[i + 1..]) == Digits(text)
  {
    DigitsAt(text, i);
    if text[i] == '=' {
      assert ds + [] == ds;
    } else if ValueOf(text[i]) >= 0 {
      Regroup(ds, ValueOf(text[i]), Digits(text[i + 1..]));
    } else {
      assert [] + Digits(text[i + 1..]) == Digits(text[i + 1..]);
    }
  }

  method Decode(text: string) returns (out: seq<Byte>)
    ensures out == Decoded(text)
  {
    out := [];
    var val, valb := 0, -8;
    ghost var ds: seq<Digit> := [];
    var i := 0;
    assert text[0..] == text;
    while i < |text|
      invariant 0 <= i <= |text| && ds + Digits(text[i..]) == Digits(text)
      invariant Decoding(ds, out, val, valb)
    {
      var c := text[i];
      ReadOne(text, i, ds);
      if c == '=' {
        return;
      }
      i := i + 1;
      var d := ValueOf(c);
      if d < 0 {
        continue;
      }
      DecodingNext(ds, out, val, valb, d);
      val := Wrap(val * 64) + d;
      valb := valb + 6;
      if valb >= 0 {
        out := out + [ByteAt(val, valb)];
        valb := valb - 8;
      }
      ds := ds + [d];
    }
    assert ds + [] == ds;
  }

  // ----- main results -----

  lemma DigitsCons(d: Digit, rest: string)
    ensures Digits([Alphabet(d)] + rest) == [d] + Digits(rest)
  {
    ValueOfAlphabet(d);
    assert ([Alphabet(d)] + rest)[1..] == rest;
  }

  lemma DigitsOfFull(a: Digit, b: Digit, c: Digit, d: Digit, rest: string)
    ensures Digits([Alphabet(a), Alphabet(b), Alphabet(c), Alphabet(d)] + rest) == [a, b, c, d] + Digits(rest)
  {
    var x := [Alphabet(d)] + rest;
    var y := [Alphabet(c)] + x;
    var z := [Alphabet(b)] + y;
    assert [Alphabet(a), Alphabet(b), Alphabet(c), Alphabet(d)] + rest == [Alphabet(a)] + z;
    DigitsCons(d, rest);
    DigitsCons(c, x);
    DigitsCons(b, y);
    DigitsCons(a, z);
  }

  lemma DigitsOfThree(a: Digit, b: Digit, c: Digit)
    ensures Digits([Alphabet(a), Alphabet(b), Alphabet(c), '=']) == [a, b, c]
  {
    var x := [Alphabet(c)] + "=";
    var y := [Alphabet(b)] + x;
    assert [Alphabet(a), Alphabet(b), Alphabet(c), '='] == [Alphabet(a)] + y;
    DigitsCons(c, "=");
    DigitsCons(b, x);
    DigitsCons(a, y);
  }

  lemma DigitsOfTwo(a: Digit, b: Digit)
    ensures Digits([Alphabet(a), Alphabet(b), '=', '=']) == [a, b]
  {
    var x := [Alphabet(b)] + "==";
    assert [Alphabet(a), Alphabet(b), '=', '='] == [Alphabet(a)] + x;
    DigitsCons(b, "==");
    DigitsCons(a, x);
  }

  lemma DigitsOfFour(a: Digit, b: Digit, c: Digit, d: Digit, rest: string)
    ensures Digits([Alphabet(a), Alphabet(b), Alphabet(c), Alphabet(d)] + rest) == [a, b, c, d] + Digits(rest)
    ensures Digits([Alphabet(a), Alphabet(b), Alphabet(c), '=']) == [a, b, c]
    ensures Digits([Alphabet(a), Alphabet(b), '=', '=']) == [a, b]
  {
    DigitsOfFull(a, b, c, d, rest);
    DigitsOfThree(a, b, c);
    DigitsOfTwo(a, b);
  }

  lemma {:induction false} DigitsOfEncoded(data: seq<Byte>)
    ensures Digits(Encoded(data)) == ToDigits(data)
    decreases |data|
  {
    if |data| == 1 {
      DigitsOfFour(Digit0(data[0]), Digit1(data[0], 0), 0, 0, "");
    } else if |data| == 2 {
      DigitsOfFour(Digit0(data[0]), Digit1(data[0], data[1]), Digit2(data[1], 0), 0, "");
    } else if |data| >= 3 {
      DigitsOfFour(Digit0(data[0]), Digit1(data[0], data[1]), Digit2(data[1], data[2]), Digit3(data[2]),
                   Encoded(data[3..]));
      DigitsOfEncoded(data[3..]);
    }
  }

  /** Decoding undoes encoding for every byte sequence. */
  lemma DecodeUndoesEncode(data: seq<Byte>)
    ensures Decoded(Encoded(data)) == data
  {
    DigitsOfEncoded(data);
    FromDigitsUndoesToDigits(data);
  }

  /** A character outside the alphabet changes nothing before the first '=', and
      after it nothing does. */
  lemma {:induction false} NoiseIsIgnored(before: string, c: char, after: string)
    ensures ValueOf(c) < 0 && c != '=' ==> Decoded(before + [c] + after) == Decoded(before + after)
    ensures Decoded(before + "=" + after) == Decoded(before)
  {
    DigitsSkip(before, c, after);
  }

  lemma {:induction false} DigitsSkip(before: string, c: char, after: string)
    ensures ValueOf(c) < 0 && c != '=' ==> Digits(before + [c] + after) == Digits(before + after)
    ensures Digits(before + "=" + after) == Digits(before)
  {
    if before == "" {
      assert (before + [c] + after)[1..] == after && before + after == after;
    } else {
      assert (before + [c] + after)[1..] == before[1..] + [c] + after;
      assert (before + "=" + after)[1..] == before[1..] + "=" + after;
      assert (before + after)[1..] == before[1..] + after;
      DigitsSkip(before[1..], c, after);
    }
  }

  /** The alphabet of section 4 of RFC 4648: 'A' to 'Z', 'a' to 'z', '0' to '9', '+' and '/'. */
  lemma AlphabetIsStandard(d: Digit)
    ensures Alphabet(0) == 'A' && Alphabet(25) == 'Z' && Alphabet(26) == 'a' && Alphabet(51) == 'z'
    ensures Alphabet(52) == '0' && Alphabet(61) == '9' && Alphabet(62) == '+' && Alphabet(63) == '/'
    ensures d != 25 && d != 51 && d < 61 ==> Alphabet(d + 1) as int == Alphabet(d) as int + 1
  {
  }

  /** The test vectors "f", "fo" and "foo" of section 10 of RFC 4648. */
  lemma TestVectors()
    ensures Encoded([0x66]) == "Zg==" && Encoded([0x66, 0x6F]) == "Zm8=" && Encoded([0x66, 0x6F, 0x6F]) == "Zm9v"
  {
    var foo: seq<Byte> := [0x66, 0x6F, 0x6F];
    assert foo[..3] == foo && foo[3..] == [];
  }
}
