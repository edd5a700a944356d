/** Language tags: normalisation of locale names, and the catalogue names tried for one. */
module LanguageTag {
  import opened Ascii
  import opened TextSearch

  // ----- case -----

  function Uppered(s: string): (r: string)
    ensures |r| == |s| && forall i :: 0 <= i < |s| ==> r[i] == Upper(s[i])
  {
    seq(|s|, i requires 0 <= i < |s| => Upper(s[i]))
  }

  function Titled(s: string): (r: string)
    ensures |r| == |s| && forall i :: 0 <= i < |s| ==> r[i] == if i == 0 then Upper(s[0]) else Lower(s[i])
  {
    if s == "" then "" else [Upper(Lower(s[0]))] + Lowered(s)[1..]
  }

  predicate AllAlpha(s: string) { forall i :: 0 <= i < |s| ==> IsAlpha(s[i]) }

  predicate AllDigit(s: string) { forall i :: 0 <= i < |s| ==> IsDigit(s[i]) }

  predicate IsScript(p: string) { |p| == 4 && AllAlpha(p) }

  predicate IsRegion(p: string) { (|p| == 2 && AllAlpha(p)) || (|p| == 3 && AllDigit(p)) }

  /** The case a subtag after the first is written in. */
  function Cased(p: string): string {
    if IsScript(p) then Titled(p) else if IsRegion(p) then Uppered(p) else Lowered(p)
  }

  lemma CasedMeans(p: string)
    ensures |Cased(p)| == |p| && Lowered(Cased(p)) == Lowered(p)
    ensures IsScript(Cased(p)) == IsScript(p) && IsRegion(Cased(p)) == IsRegion(p)
    ensures Cased(Cased(p)) == Cased(p) && Cased(Lowered(p)) == Cased(p)
  {
    var q := Cased(p);
    assert forall i :: 0 <= i < |p| ==>
      Lower(q[i]) == Lower(p[i]) && IsAlpha(q[i]) == IsAlpha(p[i]) && IsDigit(q[i]) == IsDigit(p[i]);
    assert IsScript(q) == IsScript(p) && IsRegion(q) == IsRegion(p);
    assert IsScript(Lowered(p)) == IsScript(p) && IsRegion(Lowered(p)) == IsRegion(p);
    assert forall i :: 0 <= i < |p| ==> Upper(Lower(p[i])) == Upper(p[i]) && Upper(Upper(p[i])) == Upper(p[i]);
    assert Lowered(Lowered(p)) == Lowered(p) && Uppered(Lowered(p)) == Uppered(p) && Uppered(Uppered(p)) == Uppered(p);
    assert Titled(Lowered(p)) == Titled(p) && Titled(Titled(p)) == Titled(p);
  }

  predicate AllUpper(s: string) { forall i :: 0 <= i < |s| ==> !('a' <= s[i] <= 'z') }

  predicate AllLower(s: string) { forall i :: 0 <= i < |s| ==> !('A' <= s[i] <= 'Z') }

  /** A script begins with a capital, a region is in capitals, anything else has none. */
  lemma CasedLooks(p: string)
    ensures IsScript(p) ==> AllUpper(Cased(p)[..1]) && AllLower(Cased(p)[1..])
    ensures IsRegion(p) ==> AllUpper(Cased(p))
    ensures !IsScript(p) && !IsRegion(p) ==> AllLower(Cased(p))
  {
  }

  /** A region has two letters or three digits, a script four letters; a mixture is neither. */
  lemma SubtagClasses()
    ensures IsRegion("tw") && IsRegion("419") && !IsRegion("t1") && !IsRegion("1w")
    ensures !IsRegion("twn") && !IsRegion("41") && !IsRegion("4a9") && !IsRegion("4190")
    ensures IsScript("hant") && !IsScript("han") && !IsScript("hants") && !IsScript("1ant") && !IsScript("han1")
  {
    assert "t1"[1] == '1' && "1w"[0] == '1' && "twn"[0] == 't' && "41"[0] == '4';
    assert "4a9"[1] == 'a' && "1ant"[0] == '1' && "han1"[3] == '1';
  }

  // ----- parts -----

  function Split(s: string): (parts: seq<string>)
    ensures parts != []
  {
    if s == "" then [""]
    else
      var rest := Split(s[1..]);
      if s[0] == '-' then [""] + rest else [[s[0]] + rest[0]] + rest[1..]
  }

  /** The join skips the separator while nothing has been written. */
  function Join(parts: seq<string>): string {
    if parts == [] then ""
    else
      var front := Join(parts[..|parts| - 1]);
      (if front == "" then "" else front + "-") + parts[|parts| - 1]
  }

  lemma {:induction false} SplitAt(s: string, k: nat)
    requires k <= |s| && '-' !in s[..k] && (k < |s| ==> s[k] == '-')
    ensures Split(s) == if k < |s| then [s[..k]] + Split(s[k + 1..]) else [s]
  {
    if k > 0 {
      assert s[..k] == [s[0]] + s[1..][..k - 1];
      SplitAt(s[1..], k - 1);
      assert k < |s| ==> s[1..][k..] == s[k + 1..];
      assert s == [s[0]] + s[1..];
    } else if s != "" {
      assert s[..0] == "" && s[1..] == s[0 + 1..];
    }
  }

  lemma SplitFrom(s: string, start: nat, end: nat)
    requires start <= end <= |s| && '-' !in s[start..end] && (end < |s| ==> s[end] == '-')
    ensures Split(s[start..]) == if end < |s| then [s[start..end]] + Split(s[end + 1..]) else [s[start..end]]
  {
    assert s[start..][..end - start] == s[start..end];
    SplitAt(s[start..], end - start);
    assert end < |s| ==> s[start..][end - start + 1..] == s[end + 1..];
    assert end == |s| ==> s[start..end] == s[start..];
  }

  lemma Regroup(a: seq<string>, p: string, b: seq<string>)
    ensures a + ([p] + b) == (a + [p]) + b
  {
  }

  /** One more part is split off at the next dash, or the last part is reached. */
  lemma SplitStep(tag: string, parts: seq<string>, start: nat, end: nat)
    requires start <= |tag| && end == start + IndexOf(tag[start..], '-')
    requires parts + Split(tag[start..]) == Split(tag)
    ensures end <= |tag| && (parts + [tag[start..end]])
      + (if end < |tag| then Split(tag[end + 1..]) else []) == Split(tag)
  {
    assert tag[start..][..end - start] == tag[start..end];
    SplitFrom(tag, start, end);
    var part := tag[start..end];
    if end < |tag| {
      Regroup(parts, part, Split(tag[end + 1..]));
    } else {
      Regroup(parts, part, []);
      assert [part] + [] == [part];
    }
  }

  method SplitTag(tag: string) returns (parts: seq<string>)
    ensures parts == Split(tag)
  {
    parts := [];
    var start := 0;
    assert tag[0..] == tag;
    while true
      invariant start <= |tag| && parts + Split(tag[start..]) == Split(tag)
      decreases |tag| - start
    {
      var end := FindFrom(tag, '-', start);
      SplitStep(tag, parts, start, end);
      parts := parts + [tag[start..end]];
      if end == |tag| {
        return;
      }
      start := end + 1;
    }
  }

  method JoinParts(parts: seq<string>) returns (out: string)
    ensures out == Join(parts)
  {
    out := "";
    for i := 0 to |parts|
      invariant out == Join(parts[..i])
    {
      assert parts[..i + 1][..i] == parts[..i];
      if out != "" {
        out := out + "-";
      }
      out := out + parts[i];
    }
    assert parts[..|parts|] == parts;
  }

  // ----- normalisation -----

  /** The part before the first c. */
  function Cut(s: string, c: char): string { s[..IndexOf(s, c)] }

  function Dashed(s: string): (r: string)
    ensures |r| == |s| && forall i :: 0 <= i < |s| ==> r[i] == if s[i] == '_' then '-' else s[i]
  {
    seq(|s|, i requires 0 <= i < |s| => if s[i] == '_' then '-' else s[i])
  }

  /** The name without codeset and modifier, with dashes for underscores. */
  function Stripped(raw: string): string {
    Dashed(Cut(Cut(raw, '.'), '@'))
  }

  predicate Usable(s: string) {
    s != "" && s != "C" && s != "POSIX" && "" !in Split(s)
  }

  function CasedParts(parts: seq<string>): seq<string>
    requires parts != []
  {
    [Lowered(parts[0])] + seq(|parts| - 1, i requires 0 <= i < |parts| - 1 => Cased(parts[i + 1]))
  }

  function Normal(raw: string): string {
    if Usable(Stripped(raw)) then Join(CasedParts(Split(Stripped(raw)))) else ""
  }

  method CutBefore(s: string, c: char) returns (r: string)
    ensures r == Cut(s, c)
  {
    assert s[0..] == s;
    var k := FindFrom(s, c, 0);
    r := s[..k];
  }

  method ReplaceUnderscores(s: string) returns (r: string)
    ensures r == Dashed(s)
  {
    r := "";
    for i := 0 to |s|
      invariant r == Dashed(s)[..i]
    {
      r := r + [if s[i] == '_' then '-' else s[i]];
    }
  }

  method CaseParts(rawParts: seq<string>) returns (ok: bool, parts: seq<string>)
    requires rawParts != []
    ensures ok <==> "" !in rawParts
    ensures ok ==> parts == CasedParts(rawParts)
  {
    parts := [Lowered(rawParts[0])];
    if rawParts[0] == "" {
      return false, parts;
    }
    for i := 1 to |rawParts|
      invariant |parts| == i && parts[0] == Lowered(rawParts[0])
      invariant forall k :: 1 <= k < i ==> parts[k] == Cased(rawParts[k])
      invariant forall k :: 0 <= k < i ==> rawParts[k] != ""
    {
      var part := rawParts[i];
      if part == "" {
        return false, parts;
      }
      if IsScript(part) {
        parts := parts + [Titled(part)];
      } else if IsRegion(part) {
        parts := parts + [Uppered(part)];
      } else {
        parts := parts + [Lowered(part)];
      }
    }
    ok := true;
    assert parts == CasedParts(rawParts);
  }

  method Normalize(raw: string) returns (tag: string)
    ensures tag == Normal(raw)
  {
    var stripped := CutBefore(raw, '.');
    stripped := CutBefore(stripped, '@');
    stripped := ReplaceUnderscores(stripped);
    if stripped == "" || stripped == "C" || stripped == "POSIX" {
      return "";
    }
    var rawParts := SplitTag(stripped);
    var ok, parts := CaseParts(rawParts);
    if !ok {
      return "";
    }
    tag := JoinParts(parts);
  }

  // ----- normal forms -----

  predicate Clean(s: string) { '.' !in s && '@' !in s && '_' !in s }

  predicate GoodPart(p: string) { p != "" && Clean(p) && '-' !in p }

  /** Parts that a usable name splits into. */
  predicate GoodParts(parts: seq<string>) {
    parts != [] && forall k :: 0 <= k < |parts| ==> GoodPart(parts[k])
  }

  lemma CutMembers(s: string, c: char)
    ensures c !in Cut(s, c) && (forall d :: d in Cut(s, c) ==> d in s)
    ensures c !in s ==> Cut(s, c) == s
  {
  }

  lemma StrippedIsClean(raw: string)
    ensures Clean(Stripped(raw)) && (Clean(raw) ==> Stripped(raw) == raw)
  {
    CutMembers(raw, '.');
    CutMembers(Cut(raw, '.'), '@');
  }

  lemma {:induction false} SplitMembers(s: string)
    ensures forall k :: 0 <= k < |Split(s)| ==> '-' !in Split(s)[k]
    ensures forall k, c :: 0 <= k < |Split(s)| && c in Split(s)[k] ==> c in s
  {
    if s != "" {
      SplitMembers(s[1..]);
      assert s == [s[0]] + s[1..];
    }
  }

  lemma SplitGood(s: string)
    requires Clean(s) && "" !in Split(s)
    ensures GoodParts(Split(s))
  {
    SplitMembers(s);
  }

  lemma {:induction false} SplitAppend(x: string, y: string)
    ensures Split(x + "-" + y) == Split(x) + Split(y)
  {
    var s := x + "-" + y;
    if x == "" {
      assert s[1..] == y;
    } else {
      assert s[1..] == x[1..] + "-" + y;
      SplitAppend(x[1..], y);
    }
  }

  lemma {:induction false} SplitOne(y: string)
    requires '-' !in y
    ensures Split(y) == [y]
  {
    assert y[..|y|] == y;
    SplitAt(y, |y|);
  }

  lemma {:induction false} SplitUndoesJoin(parts: seq<string>)
    requires GoodParts(parts)
    ensures Split(Join(parts)) == parts && Join(parts) != "" && Clean(Join(parts)) && Join(parts)[0] == parts[0][0]
  {
    var n := |parts| - 1;
    var front := Join(parts[..n]);
    SplitOne(parts[n]);
    assert parts == parts[..n] + [parts[n]];
    if n > 0 {
      SplitUndoesJoin(parts[..n]);
      SplitAppend(front, parts[n]);
    } else {
      assert parts[..n] == [] && parts == [parts[n]];
      assert Join(parts) == "" + parts[n] == parts[n];
    }
  }

  lemma {:induction false} JoinUndoesSplit(s: string)
    requires "" !in Split(s)
    ensures Join(Split(s)) == s
  {
    var k := IndexOf(s, '-');
    SplitAt(s, k);
    if k < |s| {
      var p, rest := s[..k], s[k + 1..];
      JoinUndoesSplit(rest);
      JoinCons(p, Split(rest));
      assert s == p + "-" + rest;
    } else {
      assert [s][..0] == [];
      assert Join([s]) == "" + s == s;
    }
  }

  lemma {:induction false} JoinCons(p: string, parts: seq<string>)
    requires p != "" && parts != [] && "" !in parts
    ensures Join([p] + parts) == p + "-" + Join(parts)
  {
    var all, n := [p] + parts, |parts| - 1;
    assert parts == parts[..n] + [parts[n]];
    assert all[..|all| - 1] == [p] + parts[..n] && all[|all| - 1] == parts[n];
    if n == 0 {
      assert parts[..0] == [] && [p] + [] == [p] && [p][..0] == [];
    } else {
      assert "" != parts[0] && parts[0] in parts;
      JoinCons(p, parts[..n]);
    }
  }

  lemma CasedPartsMean(parts: seq<string>)
    requires parts != []
    ensures |CasedParts(parts)| == |parts| && CasedParts(CasedParts(parts)) == CasedParts(parts)
    ensures forall k :: 0 <= k < |parts| ==> Lowered(CasedParts(parts)[k]) == Lowered(parts[k])
  {
    var cased := CasedParts(parts);
    forall k | 0 <= k < |parts|
      ensures Lowered(cased[k]) == Lowered(parts[k]) && CasedParts(cased)[k] == cased[k]
    {
      CasedMeans(parts[k]);
      assert Lowered(Lowered(parts[k])) == Lowered(parts[k]);
    }
  }

  lemma CasedGood(parts: seq<string>)
    requires GoodParts(parts)
    ensures GoodParts(CasedParts(parts))
  {
    CasedPartsMean(parts);
    var cased := CasedParts(parts);
    forall k | 0 <= k < |cased| ensures GoodPart(cased[k]) {
      SameLowerGood(parts[k], cased[k]);
    }
  }

  lemma SameLowerGood(p: string, q: string)
    requires Lowered(p) == Lowered(q) && GoodPart(p)
    ensures GoodPart(q)
  {
    assert |Lowered(p)| == |p| && |Lowered(q)| == |q|;
  }

  /** Parts of a normal form. */
  predicate Canonical(parts: seq<string>) {
    && parts != [] && HeadPart(parts[0])
    && forall k :: 1 <= k < |parts| ==> TailPart(parts[k])
  }

  predicate HeadPart(p: string) { GoodPart(p) && Lowered(p) == p }

  predicate TailPart(p: string) { GoodPart(p) && Cased(p) == p }

  lemma CanonicalIsGood(parts: seq<string>)
    requires Canonical(parts)
    ensures GoodParts(parts) && CasedParts(parts) == parts
  {
    assert CasedParts(parts) == parts;
  }

  /** Joined canonical parts are left as they are. */
  lemma CanonicalIsNormal(parts: seq<string>)
    requires Canonical(parts)
    ensures Join(parts) != "" && Split(Join(parts)) == parts && Normal(Join(parts)) == Join(parts)
  {
    var t := Join(parts);
    CanonicalIsGood(parts);
    SplitUndoesJoin(parts);
    StrippedIsClean(t);
    assert t[0] == parts[0][0] == Lowered(parts[0])[0];
    assert "" !in parts;
  }

  /** A normal form splits into canonical parts. */
  lemma NormalIsCanonical(raw: string)
    requires Normal(raw) != ""
    ensures Canonical(Split(Normal(raw))) && Join(Split(Normal(raw))) == Normal(raw)
    ensures Split(Normal(raw)) == CasedParts(Split(Stripped(raw)))
  {
    StrippedIsClean(raw);
    SplitGood(Stripped(raw));
    var parts := CasedParts(Split(Stripped(raw)));
    CasedGood(Split(Stripped(raw)));
    CasedPartsMean(Split(Stripped(raw)));
    SplitUndoesJoin(parts);
  }

  /** Normalising twice changes nothing more. */
  lemma NormalizeIsIdempotent(raw: string)
    ensures Normal(Normal(raw)) == Normal(raw)
  {
    if Normal(raw) != "" {
      NormalIsCanonical(raw);
      CanonicalIsNormal(Split(Normal(raw)));
    } else {
      assert Cut("", '.') == "" && Cut("", '@') == "" && Dashed("") == "";
    }
  }

  function LoweredParts(parts: seq<string>): (r: seq<string>)
    ensures |r| == |parts| && forall k :: 0 <= k < |parts| ==> r[k] == Lowered(parts[k])
  {
    seq(|parts|, k requires 0 <= k < |parts| => Lowered(parts[k]))
  }

  lemma {:induction false} SplitLowered(s: string)
    ensures Split(Lowered(s)) == LoweredParts(Split(s))
  {
    if s != "" {
      assert Lowered(s)[1..] == Lowered(s[1..]);
      SplitLowered(s[1..]);
      var rest := Split(s[1..]);
      assert (Lower(s[0]) == '-') == (s[0] == '-');
      assert [Lower(s[0])] + Lowered(rest[0]) == Lowered([s[0]] + rest[0]);
      assert LoweredParts(rest)[1..] == LoweredParts(rest[1..]);
      assert s[0] != '-' ==> LoweredParts(Split(s)) == [Lowered([s[0]] + rest[0])] + LoweredParts(rest[1..]);
      assert s[0] == '-' ==> LoweredParts(Split(s)) == [""] + LoweredParts(rest);
    } else {
      assert LoweredParts([""]) == [""];
    }
  }

  lemma SameCasedParts(p: seq<string>, q: seq<string>)
    requires p != [] && LoweredParts(p) == LoweredParts(q)
    ensures |q| == |p| && CasedParts(p) == CasedParts(q)
  {
    assert |LoweredParts(p)| == |LoweredParts(q)|;
    forall k | 0 <= k < |p| ensures Lowered(p[k]) == Lowered(q[k]) && Cased(p[k]) == Cased(q[k]) {
      assert LoweredParts(p)[k] == LoweredParts(q)[k];
      CasedMeans(p[k]);
      CasedMeans(q[k]);
    }
  }

  lemma NormalLowered(raw: string)
    requires Normal(raw) != ""
    ensures Lowered(Normal(raw)) == Lowered(Stripped(raw))
  {
    var s, t := Stripped(raw), Normal(raw);
    NormalIsCanonical(raw);
    CasedPartsMean(Split(s));
    SplitLowered(s);
    SplitLowered(t);
    assert LoweredParts(Split(t)) == LoweredParts(Split(s));
    LoweredNonEmpty(s);
    LoweredNonEmpty(t);
    JoinUndoesSplit(Lowered(s));
    JoinUndoesSplit(Lowered(t));
  }

  lemma LoweredNonEmpty(s: string)
    ensures "" in Split(Lowered(s)) ==> "" in Split(s)
  {
    SplitLowered(s);
    if "" in Split(Lowered(s)) {
      var k :| 0 <= k < |Split(s)| && LoweredParts(Split(s))[k] == "";
      assert |Split(s)[k]| == 0;
    }
  }

  /** Two names that have a tag have the same tag exactly if they agree up to case, up to
      dashes for underscores, and up to codeset and modifier. */
  lemma SameTagExactly(x: string, y: string)
    requires Normal(x) != "" && Normal(y) != ""
    ensures Normal(x) == Normal(y) <==> Lowered(Stripped(x)) == Lowered(Stripped(y))
  {
    NormalLowered(x);
    NormalLowered(y);
    if Lowered(Stripped(x)) == Lowered(Stripped(y)) {
      SplitLowered(Stripped(x));
      SplitLowered(Stripped(y));
      SameCasedParts(Split(Stripped(x)), Split(Stripped(y)));
    }
  }
}
