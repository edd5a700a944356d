/** Natural, case-insensitive order of strings: "image(2)" before "image(10)".
    The two-cursor comparison is the lexicographic order over tokens, which is
    total, and equates exactly the strings that are equal up to ASCII case. */
module NaturalOrder {
  import opened Ascii

  // ----- the order, by tokens -----

  /** A maximal run of digits, or one lowercased character. */
  datatype Token = Run(digits: string) | Single(c: char)

  function DigitEnd(s: string, i: nat): (e: nat)
    requires i <= |s|
    ensures i <= e <= |s| && (forall k :: i <= k < e ==> IsDigit(s[k]))
    ensures e < |s| ==> !IsDigit(s[e])
    decreases |s| - i
  {
    if i < |s| && IsDigit(s[i]) then DigitEnd(s, i + 1) else i
  }

  function ZeroEnd(s: string, i: nat): (e: nat)
    requires i <= |s|
    ensures i <= e <= |s| && (forall k :: i <= k < e ==> s[k] == '0')
    ensures e < |s| ==> s[e] != '0'
    decreases |s| - i
  {
    if i < |s| && s[i] == '0' then ZeroEnd(s, i + 1) else i
  }

  function Tokens(s: string, i: nat): seq<Token>
    requires i <= |s|
    decreases |s| - i
  {
    if i == |s| then []
    else if IsDigit(s[i]) then [Run(s[i..DigitEnd(s, i)])] + Tokens(s, DigitEnd(s, i))
    else [Single(Lower(s[i]))] + Tokens(s, i + 1)
  }

  /** The digits without leading zeros. */
  function Significant(digits: string): string { digits[ZeroEnd(digits, 0)..] }

  function Sign(less: bool): int { if less then -1 else 1 }

  /** First difference of two digit strings of one length. */
  function CompareDigits(a: string, b: string): int
    requires |a| == |b|
  {
    if a == [] then 0
    else if a[0] != b[0] then Sign(a[0] < b[0])
    else CompareDigits(a[1..], b[1..])
  }

  /** By value, then by the number of leading zeros. */
  function CompareRuns(a: string, b: string): int {
    var x, y := Significant(a), Significant(b);
    if |x| != |y| then Sign(|x| < |y|)
    else if CompareDigits(x, y) != 0 then CompareDigits(x, y)
    else if |a| != |b| then Sign(|a| < |b|)
    else 0
  }

  function First(t: Token): char
    requires WellFormed(t)
  {
    match t
    case Run(digits) => digits[0]
    case Single(c) => c
  }

  predicate WellFormed(t: Token) {
    match t
    case Run(digits) => digits != [] && forall k :: 0 <= k < |digits| ==> IsDigit(digits[k])
    case Single(c) => !IsDigit(c)
  }

  function CompareTokens(a: Token, b: Token): int
    requires WellFormed(a) && WellFormed(b)
  {
    if a.Run? && b.Run? then CompareRuns(a.digits, b.digits)
    else if First(a) != First(b) then Sign(First(a) < First(b))
    else 0
  }

  predicate AllWellFormed(s: seq<Token>) { forall k :: 0 <= k < |s| ==> WellFormed(s[k]) }

  function CompareLists(a: seq<Token>, b: seq<Token>): int
    requires AllWellFormed(a) && AllWellFormed(b)
  {
    if a == [] && b == [] then 0
    else if a == [] then -1
    else if b == [] then 1
    else if CompareTokens(a[0], b[0]) != 0 then CompareTokens(a[0], b[0])
    else CompareLists(a[1..], b[1..])
  }

  lemma {:induction false} TokensWellFormed(s: string, i: nat)
    requires i <= |s|
    ensures AllWellFormed(Tokens(s, i))
    decreases |s| - i
  {
    if i < |s| {
      TokensWellFormed(s, if IsDigit(s[i]) then DigitEnd(s, i) else i + 1);
    }
  }

  // ----- the two-cursor comparison -----

  lemma {:induction false} ZeroEndOfSlice(s: string, i: nat, e: nat, k: nat)
    requires k <= e - i && i <= e <= |s| && DigitEnd(s, i) == e && ZeroEnd(s, i) <= e
    requires i + k <= ZeroEnd(s, i)
    ensures ZeroEnd(s[i..e], k) == ZeroEnd(s, i) - i
    decreases e - i - k
  {
    if i + k < ZeroEnd(s, i) {
      ZeroEndOfSlice(s, i, e, k + 1);
    }
  }

  /** What the two inner loops find at a digit: where the run ends and where its value starts. */
  lemma RunAt(s: string, i: nat)
    requires i < |s| && IsDigit(s[i])
    ensures DigitEnd(s, ZeroEnd(s, i)) == DigitEnd(s, i) > i
    ensures Significant(s[i..DigitEnd(s, i)]) == s[ZeroEnd(s, i)..DigitEnd(s, i)]
  {
    var z, e := ZeroEnd(s, i), DigitEnd(s, i);
    ZeroEndOfSlice(s, i, e, 0);
    assert s[i..e][z - i..] == s[z..e];
  }

  lemma {:induction false} CompareDigitsAt(a: string, b: string, k: nat)
    requires |a| == |b| && k <= |a| && a[..k] == b[..k]
    ensures CompareDigits(a, b) == CompareDigits(a[k..], b[k..])
  {
    if k > 0 {
      assert a[0] == a[..k][0] == b[..k][0];
      assert a[1..][..k - 1] == a[..k][1..] && b[1..][..k - 1] == b[..k][1..];
      CompareDigitsAt(a[1..], b[1..], k - 1);
      assert a[1..][k - 1..] == a[k..] && b[1..][k - 1..] == b[k..];
    }
  }

  method SkipZeros(s: string, i: nat) returns (e: nat)
    requires i <= |s|
    ensures e == ZeroEnd(s, i)
  {
    e := i;
    while e < |s| && s[e] == '0'
      invariant i <= e <= |s| && ZeroEnd(s, e) == ZeroEnd(s, i)
    {
      e := e + 1;
    }
  }

  method SkipDigits(s: string, i: nat) returns (e: nat)
    requires i <= |s|
    ensures e == DigitEnd(s, i)
  {
    e := i;
    while e < |s| && IsDigit(s[e])
      invariant i <= e <= |s| && DigitEnd(s, e) == DigitEnd(s, i)
    {
      e := e + 1;
    }
  }

  /** The loop over the digits of two values of one length. */
  method CompareValues(a: string, i: nat, b: string, j: nat, len: nat) returns (r: int)
    requires i + len <= |a| && j + len <= |b|
    ensures r == CompareDigits(a[i..i + len], b[j..j + len])
  {
    ghost var x, y := a[i..i + len], b[j..j + len];
    var k := 0;
    while k < len
      invariant 0 <= k <= len && x[..k] == y[..k]
    {
      CompareDigitsAt(x, y, k);
      assert x[k..][0] == a[i + k] && y[k..][0] == b[j + k];
      if a[i + k] != b[j + k] {
        return if a[i + k] < b[j + k] then -1 else 1;
      }
      assert x[..k + 1] == x[..k] + [x[k]] && y[..k + 1] == y[..k] + [y[k]];
      k := k + 1;
    }
    CompareDigitsAt(x, y, k);
    return 0;
  }

  /** The branch of the comparison that handles two digit runs; 0 moves both cursors to the ends. */
  method CompareRunsAt(a: string, i: nat, b: string, j: nat) returns (r: int, aEnd: nat, bEnd: nat)
    requires i < |a| && IsDigit(a[i]) && j < |b| && IsDigit(b[j])
    ensures aEnd == DigitEnd(a, i) && bEnd == DigitEnd(b, j)
    ensures r == CompareRuns(a[i..aEnd], b[j..bEnd])
  {
    RunAt(a, i);
    RunAt(b, j);
    var aZero := SkipZeros(a, i);
    var bZero := SkipZeros(b, j);
    aEnd := SkipDigits(a, aZero);
    bEnd := SkipDigits(b, bZero);
    var aLen, bLen := aEnd - aZero, bEnd - bZero;
    if aLen != bLen {
      return if aLen < bLen then -1 else 1, aEnd, bEnd;
    }
    r := CompareValues(a, aZero, b, bZero, aLen);
    if r != 0 {
      return;
    }
    var aDigits, bDigits := aEnd - i, bEnd - j;
    if aDigits != bDigits {
      return if aDigits < bDigits then -1 else 1, aEnd, bEnd;
    }
  }

  /** The order of what is left of two strings. */
  function OrderFrom(a: string, i: nat, b: string, j: nat): int
    requires i <= |a| && j <= |b|
  {
    TokensWellFormed(a, i);
    TokensWellFormed(b, j);
    CompareLists(Tokens(a, i), Tokens(b, j))
  }

  /** naturalCaseInsensitiveCompare. */
  function Order(a: string, b: string): int { OrderFrom(a, 0, b, 0) }

  lemma RunIsWellFormed(s: string, i: nat)
    requires i < |s| && IsDigit(s[i])
    ensures WellFormed(Run(s[i..DigitEnd(s, i)]))
  {
    TokensWellFormed(s, i);
    assert Tokens(s, i)[0] == Run(s[i..DigitEnd(s, i)]);
  }

  lemma OrderAtRuns(a: string, i: nat, b: string, j: nat)
    requires i < |a| && IsDigit(a[i]) && j < |b| && IsDigit(b[j])
    ensures var c := CompareRuns(a[i..DigitEnd(a, i)], b[j..DigitEnd(b, j)]);
      OrderFrom(a, i, b, j) == if c != 0 then c else OrderFrom(a, DigitEnd(a, i), b, DigitEnd(b, j))
  {
    var iEnd, jEnd := DigitEnd(a, i), DigitEnd(b, j);
    RunIsWellFormed(a, i);
    RunIsWellFormed(b, j);
    TokensWellFormed(a, iEnd);
    TokensWellFormed(b, jEnd);
  }

  lemma OrderAtOther(a: string, i: nat, b: string, j: nat)
    requires i < |a| && j < |b| && !(IsDigit(a[i]) && IsDigit(b[j]))
    ensures OrderFrom(a, i, b, j) ==
      if Lower(a[i]) != Lower(b[j]) then Sign(Lower(a[i]) < Lower(b[j])) else OrderFrom(a, i + 1, b, j + 1)
  {
    var x, y := Tokens(a, i), Tokens(b, j);
    TokensWellFormed(a, i);
    TokensWellFormed(b, j);
    if Lower(a[i]) == Lower(b[j]) {
      assert x[1..] == Tokens(a, i + 1) && y[1..] == Tokens(b, j + 1);
    }
  }

  lemma OrderAtEnd(a: string, i: nat, b: string, j: nat)
    requires i <= |a| && j <= |b| && (i == |a| || j == |b|)
    ensures OrderFrom(a, i, b, j) == if i == |a| && j == |b| then 0 else Sign(i == |a|)
  {
    TokensWellFormed(a, i);
    TokensWellFormed(b, j);
  }

  method Compare(a: string, b: string) returns (r: int)
    ensures r == Order(a, b)
  {
    var i: nat, j: nat := 0, 0;
    while i < |a| && j < |b|
      invariant 0 <= i <= |a| && 0 <= j <= |b| && OrderFrom(a, i, b, j) == Order(a, b)
      decreases |a| - i
    {
      if IsDigit(a[i]) && IsDigit(b[j]) {
        RunAt(a, i);
        RunAt(b, j);
        OrderAtRuns(a, i, b, j);
        var c, aEnd, bEnd := CompareRunsAt(a, i, b, j);
        if c != 0 {
          return c;
        }
        i, j := aEnd, bEnd;
      } else {
        OrderAtOther(a, i, b, j);
        if Lower(a[i]) != Lower(b[j]) {
          return if Lower(a[i]) < Lower(b[j]) then -1 else 1;
        }
        i, j := i + 1, j + 1;
      }
    }
    OrderAtEnd(a, i, b, j);
    if i == |a| && j == |b| {
      return 0;
    }
    return if i == |a| then -1 else 1;
  }

  // ----- it is a total order up to case -----

  lemma {:induction false} DigitsOrder(a: string, b: string, c: string)
    requires |a| == |b| == |c|
    ensures CompareDigits(a, b) == -CompareDigits(b, a)
    ensures CompareDigits(a, b) == 0 <==> a == b
    ensures CompareDigits(a, b) < 0 && CompareDigits(b, c) < 0 ==> CompareDigits(a, c) < 0
  {
    if a != [] {
      DigitsOrder(a[1..], b[1..], c[1..]);
      assert a == [a[0]] + a[1..] && b == [b[0]] + b[1..];
    }
  }

  /** Runs of one value and one length are one run. */
  lemma SameSignificant(a: string, b: string)
    requires |a| == |b| && Significant(a) == Significant(b)
    ensures a == b
  {
    var z := ZeroEnd(a, 0);
    assert z == ZeroEnd(b, 0);
    forall i | 0 <= i < |a| ensures a[i] == b[i] {
      if i >= z {
        assert a[i] == Significant(a)[i - z] && b[i] == Significant(b)[i - z];
      }
    }
  }

  lemma RunsOrder(a: string, b: string, c: string)
    ensures CompareRuns(a, b) == -CompareRuns(b, a)
    ensures CompareRuns(a, b) == 0 <==> a == b
    ensures CompareRuns(a, b) < 0 && CompareRuns(b, c) < 0 ==> CompareRuns(a, c) < 0
  {
    var x, y, z := Significant(a), Significant(b), Significant(c);
    if |x| == |y| {
      DigitsOrder(x, y, if |z| == |x| then z else x);
    }
    if |y| == |z| {
      DigitsOrder(y, z, if |z| == |x| then x else y);
    }
    if |x| == |y| && CompareDigits(x, y) == 0 && |a| == |b| {
      SameSignificant(a, b);
    } else if a == b {
      DigitsOrder(x, x, x);
    }
  }

  lemma TokensOrder(a: Token, b: Token, c: Token)
    requires WellFormed(a) && WellFormed(b) && WellFormed(c)
    ensures CompareTokens(a, b) == -CompareTokens(b, a)
    ensures CompareTokens(a, b) == 0 <==> a == b
    ensures CompareTokens(a, b) < 0 && CompareTokens(b, c) < 0 ==> CompareTokens(a, c) < 0
  {
    if a.Run? && b.Run? {
      RunsOrder(a.digits, b.digits, if c.Run? then c.digits else a.digits);
    }
  }

  lemma {:induction false} ListsOrder(a: seq<Token>, b: seq<Token>, c: seq<Token>)
    requires AllWellFormed(a) && AllWellFormed(b) && AllWellFormed(c)
    ensures CompareLists(a, b) == -CompareLists(b, a)
    ensures CompareLists(a, b) == 0 <==> a == b
    ensures CompareLists(a, b) < 0 && CompareLists(b, c) < 0 ==> CompareLists(a, c) < 0
  {
    if a != [] && b != [] {
      var c0 := if c != [] then c[0] else a[0];
      TokensOrder(a[0], b[0], c0);
      TokensOrder(b[0], c0, a[0]);
      ListsOrder(a[1..], b[1..], if c != [] then c[1..] else []);
      assert a == [a[0]] + a[1..] && b == [b[0]] + b[1..];
    }
  }

  predicate EqualInsensitive(a: string, b: string) {
    |a| == |b| && forall k :: 0 <= k < |a| ==> Lower(a[k]) == Lower(b[k])
  }

  lemma {:induction false} EqualTokens(a: string, b: string, i: nat)
    requires i <= |a| && EqualInsensitive(a, b)
    ensures Tokens(a, i) == Tokens(b, i)
    decreases |a| - i
  {
    if i < |a| {
      assert Lower(a[i]) == Lower(b[i]);
      if IsDigit(a[i]) {
        SameDigitEnd(a, b, i);
        var e := DigitEnd(a, i);
        assert a[i..e] == b[i..e] by {
          forall k | i <= k < e ensures a[k] == b[k] {
            assert Lower(a[k]) == Lower(b[k]);
          }
        }
        EqualTokens(a, b, e);
      } else {
        EqualTokens(a, b, i + 1);
      }
    }
  }

  lemma {:induction false} SameDigitEnd(a: string, b: string, i: nat)
    requires i <= |a| && EqualInsensitive(a, b)
    ensures DigitEnd(a, i) == DigitEnd(b, i)
    decreases |a| - i
  {
    if i < |a| {
      assert Lower(a[i]) == Lower(b[i]);
      SameDigitEnd(a, b, i + 1);
    }
  }

  function TextOf(t: Token): string {
    match t
    case Run(digits) => digits
    case Single(c) => [c]
  }

  function Text(s: seq<Token>): string {
    if s == [] then [] else TextOf(s[0]) + Text(s[1..])
  }

  /** The tokens keep every character, up to case. */
  lemma {:induction false} TextOfTokens(s: string, i: nat)
    requires i <= |s|
    ensures Text(Tokens(s, i)) == Lowered(s)[i..]
    decreases |s| - i
  {
    if i < |s| {
      var e := if IsDigit(s[i]) then DigitEnd(s, i) else i + 1;
      TextOfTokens(s, e);
      var first := if IsDigit(s[i]) then Run(s[i..e]) else Single(Lower(s[i]));
      assert TextOf(first) == Lowered(s)[i..e];
      assert Lowered(s)[i..] == Lowered(s)[i..e] + Lowered(s)[e..];
    }
  }

  /** Strings have the same tokens exactly when they are equal ignoring case. */
  lemma SameTokensSameText(a: string, b: string)
    ensures Tokens(a, 0) == Tokens(b, 0) <==> EqualInsensitive(a, b)
  {
    if EqualInsensitive(a, b) {
      EqualTokens(a, b, 0);
    }
    if Tokens(a, 0) == Tokens(b, 0) {
      TextOfTokens(a, 0);
      TextOfTokens(b, 0);
      var x, y := Lowered(a), Lowered(b);
      assert x[0..] == x && y[0..] == y && x == y;
      forall k | 0 <= k < |a| ensures Lower(a[k]) == Lower(b[k]) {
        assert x[k] == y[k];
      }
    }
  }

  /** The comparison is antisymmetric and transitive, and 0 exactly for strings that
      are equal ignoring ASCII case: sorting by it is well defined. */
  lemma OrderIsTotalUpToCase(a: string, b: string, c: string)
    ensures Order(a, b) == -Order(b, a)
    ensures Order(a, b) == 0 <==> EqualInsensitive(a, b)
    ensures Order(a, b) <= 0 && Order(b, c) <= 0 ==> Order(a, c) <= 0
    ensures Order(a, b) < 0 && Order(b, c) <= 0 ==> Order(a, c) < 0
  {
    TokensWellFormed(a, 0);
    TokensWellFormed(b, 0);
    TokensWellFormed(c, 0);
    ListsOrder(Tokens(a, 0), Tokens(b, 0), Tokens(c, 0));
    ListsOrder(Tokens(b, 0), Tokens(c, 0), Tokens(a, 0));
    SameTokensSameText(a, b);
  }

  // ----- what comes first -----

  predicate AllDigits(s: string) { forall k :: 0 <= k < |s| ==> IsDigit(s[k]) }

  /** The number that the digits from i to j write. */
  function ValueOf(s: string, i: nat, j: nat): nat
    requires i <= j <= |s| && AllDigits(s)
  {
    if i == j then 0 else 10 * ValueOf(s, i, j - 1) + (s[j - 1] as int - '0' as int)
  }

  function Value(digits: string): nat
    requires AllDigits(digits)
  {
    ValueOf(digits, 0, |digits|)
  }

  function Pow10(n: nat): nat { if n == 0 then 1 else 10 * Pow10(n - 1) }

  lemma {:induction false} PowersGrow(m: nat, n: nat)
    requires m <= n
    ensures Pow10(m) <= Pow10(n)
  {
    if m < n {
      PowersGrow(m, n - 1);
    }
  }

  lemma {:induction false} ValueBelow(s: string, i: nat, j: nat)
    requires i <= j <= |s| && AllDigits(s)
    ensures ValueOf(s, i, j) < Pow10(j - i)
  {
    if i < j {
      ValueBelow(s, i, j - 1);
    }
  }

  lemma {:induction false} ValueAbove(s: string, i: nat, j: nat)
    requires i < j <= |s| && AllDigits(s) && s[i] != '0'
    ensures ValueOf(s, i, j) >= Pow10(j - i - 1)
  {
    if i + 1 < j {
      ValueAbove(s, i, j - 1);
    } else {
      assert ValueOf(s, i, i) == 0;
    }
  }

  lemma {:induction false} ZerosAddNothing(s: string, i: nat, z: nat, j: nat)
    requires i <= z <= j <= |s| && AllDigits(s) && forall k :: i <= k < z ==> s[k] == '0'
    ensures ValueOf(s, i, j) == ValueOf(s, z, j)
    decreases j
  {
    if z < j {
      ZerosAddNothing(s, i, z, j - 1);
    } else if i < j {
      ZerosAddNothing(s, i, z - 1, j - 1);
      assert ValueOf(s, z - 1, z - 1) == 0;
    }
  }

  /** The first difference decides. */
  lemma {:induction false} FirstDifference(x: string, y: string)
    returns (k: nat)
    requires |x| == |y| && CompareDigits(x, y) != 0
    ensures k < |x| && x[k] != y[k] && x[..k] == y[..k] && CompareDigits(x, y) == Sign(x[k] < y[k])
  {
    if x[0] != y[0] {
      k := 0;
    } else {
      var m := FirstDifference(x[1..], y[1..]);
      k := m + 1;
      assert x[..k] == [x[0]] + x[1..][..m] && y[..k] == [y[0]] + y[1..][..m];
    }
  }

  lemma {:induction false} ValueOfRest(s: string, i: nat, n: nat)
    requires AllDigits(s) && i + n <= |s| && AllDigits(s[i..])
    ensures ValueOf(s, i, i + n) == ValueOf(s[i..], 0, n)
  {
    if n > 0 {
      ValueOfRest(s, i, n - 1);
    }
  }

  lemma {:induction false} SameValue(x: string, y: string, n: nat)
    requires AllDigits(x) && AllDigits(y) && n <= |x| && n <= |y| && forall k :: 0 <= k < n ==> x[k] == y[k]
    ensures ValueOf(x, 0, n) == ValueOf(y, 0, n)
  {
    if n > 0 {
      SameValue(x, y, n - 1);
    }
  }

  /** Numbers of one length stay apart from their first different digit on. */
  lemma {:induction false} StayApart(x: string, y: string, k: nat, n: nat)
    requires AllDigits(x) && AllDigits(y) && k < n <= |x| && n <= |y|
    requires (forall m :: 0 <= m < k ==> x[m] == y[m]) && x[k] < y[k]
    ensures ValueOf(x, 0, n) < ValueOf(y, 0, n)
  {
    if k == n - 1 {
      SameValue(x, y, k);
    } else {
      StayApart(x, y, k, n - 1);
    }
  }

  lemma DigitsByValue(x: string, y: string)
    requires AllDigits(x) && AllDigits(y) && |x| == |y|
    ensures CompareDigits(x, y) < 0 <==> Value(x) < Value(y)
    ensures CompareDigits(x, y) == 0 <==> Value(x) == Value(y)
  {
    DigitsOrder(x, y, x);
    if CompareDigits(x, y) != 0 {
      var k := FirstDifference(x, y);
      assert forall m :: 0 <= m < k ==> x[m] == x[..k][m] && y[m] == y[..k][m];
      if x[k] < y[k] {
        StayApart(x, y, k, |x|);
      } else {
        StayApart(y, x, k, |x|);
      }
    }
  }

  lemma ShorterIsLess(x: string, y: string)
    requires AllDigits(x) && AllDigits(y) && |x| < |y| && y[0] != '0'
    ensures Value(x) < Value(y)
  {
    ValueBelow(x, 0, |x|);
    ValueAbove(y, 0, |y|);
    PowersGrow(|x|, |y| - 1);
  }

  lemma SignificantValue(digits: string)
    requires AllDigits(digits)
    ensures AllDigits(Significant(digits)) && Value(Significant(digits)) == Value(digits)
  {
    var z := ZeroEnd(digits, 0);
    ZerosAddNothing(digits, 0, z, |digits|);
    ValueOfRest(digits, z, |digits| - z);
  }

  /** Of two runs of digits the smaller number comes first, and of equal numbers the one
      with fewer leading zeros. */
  lemma RunsByValue(a: string, b: string)
    requires AllDigits(a) && AllDigits(b)
    ensures CompareRuns(a, b) < 0 <==> Value(a) < Value(b) || (Value(a) == Value(b) && |a| < |b|)
  {
    var x, y := Significant(a), Significant(b);
    SignificantValue(a);
    SignificantValue(b);
    if |x| < |y| {
      ShorterIsLess(x, y);
    } else if |y| < |x| {
      ShorterIsLess(y, x);
    } else {
      DigitsByValue(x, y);
    }
  }

  /** Two texts that begin alike are ordered by their first different tokens: runs of digits by
      their numbers, anything else by its lowercased character. */
  lemma {:induction false} FirstDifferenceDecides(p: seq<Token>, a: Token, x: seq<Token>, b: Token, y: seq<Token>)
    requires AllWellFormed(p) && AllWellFormed(x) && AllWellFormed(y) && WellFormed(a) && WellFormed(b) && a != b
    ensures AllWellFormed(p + [a] + x) && AllWellFormed(p + [b] + y)
    ensures CompareLists(p + [a] + x, p + [b] + y) < 0 <==>
      if a.Run? && b.Run?
      then Value(a.digits) < Value(b.digits) || (Value(a.digits) == Value(b.digits) && |a.digits| < |b.digits|)
      else First(a) < First(b)
  {
    if p == [] {
      assert p + [a] + x == [a] + x && p + [b] + y == [b] + y;
      if a.Run? && b.Run? {
        RunsByValue(a.digits, b.digits);
        RunsOrder(a.digits, b.digits, a.digits);
      }
    } else {
      assert (p + [a] + x)[1..] == p[1..] + [a] + x && (p + [b] + y)[1..] == p[1..] + [b] + y;
      TokensOrder(p[0], p[0], p[0]);
      FirstDifferenceDecides(p[1..], a, x, b, y);
    }
  }

  /** A text that goes on comes after the one it begins with. */
  lemma {:induction false} PrefixIsFirst(p: seq<Token>, x: seq<Token>)
    requires AllWellFormed(p) && AllWellFormed(x) && x != []
    ensures AllWellFormed(p + x) && CompareLists(p, p + x) < 0
  {
    if p == [] {
      assert p + x == x;
    } else {
      assert (p + x)[1..] == p[1..] + x;
      TokensOrder(p[0], p[0], p[0]);
      PrefixIsFirst(p[1..], x);
    }
  }
}
