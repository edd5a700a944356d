/** The catalogue names that are tried for a locale name, most specific first. */
module TagCandidates {
  import opened LanguageTag

  // ----- the parts of a tag -----

  type Parts = parts: seq<string> | parts != [] witness [""]

  /** The first script subtag after the language, or 0. */
  function ScriptIndex(parts: Parts, i: nat): (k: nat)
    requires 0 < i <= |parts|
    ensures k != 0 ==> i <= k < |parts| && IsScript(parts[k])
    decreases |parts| - i
  {
    if i == |parts| then 0 else if IsScript(parts[i]) then i else ScriptIndex(parts, i + 1)
  }

  function RegionIndex(parts: Parts, i: nat): (k: nat)
    requires 0 < i <= |parts|
    ensures k != 0 ==> i <= k < |parts| && IsRegion(parts[k])
    decreases |parts| - i
  {
    if i == |parts| then 0 else if IsRegion(parts[i]) then i else RegionIndex(parts, i + 1)
  }

  function Script(parts: Parts): string
  {
    var k := ScriptIndex(parts, 1);
    if k == 0 then "" else parts[k]
  }

  function Region(parts: Parts): string
  {
    var k := RegionIndex(parts, 1);
    if k == 0 then "" else parts[k]
  }

  /** One pass finds the first script and the first region. */
  method ParseTag(parts: Parts) returns (script: string, region: string, scriptIndex: nat)
    ensures scriptIndex == ScriptIndex(parts, 1) && script == Script(parts) && region == Region(parts)
  {
    script, region, scriptIndex := "", "", 0;
    ghost var regionIndex := 0;
    for i := 1 to |parts|
      invariant if script == "" then scriptIndex == 0 && ScriptIndex(parts, 1) == ScriptIndex(parts, i)
        else 0 < scriptIndex < i && ScriptIndex(parts, 1) == scriptIndex && script == parts[scriptIndex]
      invariant if region == "" then RegionIndex(parts, 1) == RegionIndex(parts, i)
        else 0 < regionIndex < i && RegionIndex(parts, 1) == regionIndex && region == parts[regionIndex]
    {
      var part := parts[i];
      if script == "" && IsScript(part) {
        script, scriptIndex := part, i;
      } else if region == "" && IsRegion(part) {
        region, regionIndex := part, i;
      }
    }
  }

  function InferredChineseScript(language: string, region: string): string {
    if language != "zh" then ""
    else if region in ["CN", "SG", "MY"] then "Hans"
    else if region in ["TW", "HK", "MO"] then "Hant"
    else ""
  }

  // ----- the candidates -----

  function WithInsertedScript(parts: Parts, script: string): string
  {
    if script == "" then "" else Join(parts[..1] + [script] + parts[1..])
  }

  function WithoutScript(parts: Parts): string
  {
    var k := ScriptIndex(parts, 1);
    if k == 0 then "" else Join(parts[..k] + parts[k + 1..])
  }

  function ScriptOnly(parts: Parts, script: string): string
  {
    if script == "" then "" else parts[0] + "-" + script
  }

  function AppendUnique(out: seq<string>, value: string): seq<string> {
    if value == "" || value in out then out else out + [value]
  }

  /** The script that is tried: the one given, or the one the region implies. */
  function EffectiveScript(parts: Parts): string
  {
    if Script(parts) != "" then Script(parts)
    else if Region(parts) != "" then InferredChineseScript(parts[0], Region(parts))
    else ""
  }

  /** The names tried in turn; an empty one is passed over. */
  function Tried(parts: Parts): seq<string>
  {
    [if Script(parts) == "" then WithInsertedScript(parts, EffectiveScript(parts)) else "",
     Join(parts),
     if Script(parts) != "" && Region(parts) != "" then WithoutScript(parts) else "",
     ScriptOnly(parts, EffectiveScript(parts)),
     parts[0]]
  }

  function Collected(values: seq<string>): seq<string> {
    if values == [] then []
    else AppendUnique(Collected(values[..|values| - 1]), values[|values| - 1])
  }

  function Candidates(raw: string): seq<string> {
    var tag := Normal(raw);
    if tag == "" then [] else Collected(Tried(Split(tag)))
  }

  method Append(out: seq<string>, value: string) returns (more: seq<string>)
    ensures more == AppendUnique(out, value)
  {
    more := out;
    if value == "" {
      return;
    }
    if value !in more {
      more := more + [value];
    }
  }

  lemma CollectedFive(a: string, b: string, c: string, d: string, e: string)
    ensures Collected([a, b, c, d, e]) ==
      AppendUnique(AppendUnique(AppendUnique(AppendUnique(AppendUnique([], a), b), c), d), e)
  {
    assert [a, b, c, d, e][..4] == [a, b, c, d] && [a, b, c, d][..3] == [a, b, c];
    assert [a, b, c][..2] == [a, b] && [a, b][..1] == [a] && [a][..0] == [];
    assert Collected([a]) == AppendUnique([], a);
    assert Collected([a, b]) == AppendUnique(Collected([a]), b);
    assert Collected([a, b, c]) == AppendUnique(Collected([a, b]), c);
    assert Collected([a, b, c, d]) == AppendUnique(Collected([a, b, c]), d);
  }

  method CatalogLanguageCandidates(raw: string) returns (candidates: seq<string>)
    ensures candidates == Candidates(raw)
  {
    candidates := [];
    var normalized := Normalize(raw);
    if normalized == "" {
      return;
    }
    NormalIsCanonical(raw);
    var parts := SplitTag(normalized);
    var parsedScript, region, scriptIndex := ParseTag(parts);
    ghost var tried := Tried(parts);
    CollectedFive(tried[0], tried[1], tried[2], tried[3], tried[4]);
    var script := parsedScript;
    if script == "" && region != "" {
      script := InferredChineseScript(parts[0], region);
      if script != "" {
        var inserted := JoinParts(parts[..1] + [script] + parts[1..]);
        candidates := Append(candidates, inserted);
      }
    }
    candidates := Append(candidates, normalized);
    if parsedScript != "" && region != "" && scriptIndex != 0 {
      var without := JoinParts(parts[..scriptIndex] + parts[scriptIndex + 1..]);
      candidates := Append(candidates, without);
    }
    candidates := Append(candidates, if script == "" then "" else parts[0] + "-" + script);
    candidates := Append(candidates, parts[0]);
  }

  // ----- what they promise -----

  predicate NoDuplicates(s: seq<string>) { forall i, j :: 0 <= i < j < |s| ==> s[i] != s[j] }

  lemma {:induction false} CollectedMeans(values: seq<string>)
    ensures NoDuplicates(Collected(values))
    ensures forall v :: v in Collected(values) <==> v in values && v != ""
  {
    if values != [] {
      var n := |values| - 1;
      CollectedMeans(values[..n]);
      assert values == values[..n] + [values[n]];
    }
  }

  /** The last value comes last if it is not among the earlier ones. */
  lemma CollectedLast(values: seq<string>)
    requires values != [] && values[|values| - 1] != "" && values[|values| - 1] !in values[..|values| - 1]
    ensures Collected(values) != [] && Collected(values)[|Collected(values)| - 1] == values[|values| - 1]
  {
    CollectedMeans(values[..|values| - 1]);
  }

  /** The name is joined from canonical parts, of which the first is the language. */
  ghost predicate Names(language: string, value: string) {
    exists parts :: Canonical(parts) && parts[0] == language && value == Join(parts)
  }

  lemma JoinNames(parts: Parts)
    requires Canonical(parts)
    ensures Names(parts[0], Join(parts))
  {
  }

  lemma EffectiveScriptIsCanonical(parts: Parts)
    requires Canonical(parts) && EffectiveScript(parts) != ""
    ensures TailPart(EffectiveScript(parts))
  {
    if Script(parts) == "" {
      InferredIsCanonical(parts[0], Region(parts));
    } else {
      assert TailPart(parts[ScriptIndex(parts, 1)]);
    }
  }

  lemma InferredIsCanonical(language: string, region: string)
    ensures InferredChineseScript(language, region) in ["", "Hans", "Hant"]
    ensures TailPart("Hans") && TailPart("Hant")
  {
  }

  lemma InsertedNames(parts: Parts, script: string)
    requires Canonical(parts) && TailPart(script)
    ensures Names(parts[0], WithInsertedScript(parts, script))
  {
    var more := parts[..1] + [script] + parts[1..];
    forall k | 1 <= k < |more| ensures TailPart(more[k]) {
      assert more[k] == if k == 1 then script else parts[k - 1];
    }
    JoinNames(more);
  }

  lemma WithoutNames(parts: Parts, i: nat)
    requires Canonical(parts) && 1 <= i < |parts|
    ensures Names(parts[0], Join(parts[..i] + parts[i + 1..]))
  {
    var fewer := parts[..i] + parts[i + 1..];
    forall k | 1 <= k < |fewer| ensures TailPart(fewer[k]) {
      assert fewer[k] == parts[if k < i then k else k + 1];
    }
    JoinNames(fewer);
  }

  lemma JoinTwo(p: string, q: string)
    requires p != "" && q != ""
    ensures Join([p, q]) == p + "-" + q && Join([p]) == p
  {
    assert [p, q][..1] == [p] && [p][..0] == [];
    assert Join([p]) == "" + p == p;
  }

  lemma ScriptOnlyNames(parts: Parts, script: string)
    requires Canonical(parts) && TailPart(script)
    ensures Names(parts[0], ScriptOnly(parts, script))
  {
    JoinTwo(parts[0], script);
    JoinNames([parts[0], script]);
  }

  lemma LanguageNames(parts: Parts)
    requires Canonical(parts)
    ensures Names(parts[0], parts[0])
  {
    JoinTwo(parts[0], parts[0]);
    JoinNames([parts[0]]);
  }

  lemma TriedInserted(parts: Parts)
    requires Canonical(parts) && Tried(parts)[0] != ""
    ensures Names(parts[0], Tried(parts)[0])
  {
    EffectiveScriptIsCanonical(parts);
    InsertedNames(parts, EffectiveScript(parts));
  }

  lemma TriedWithout(parts: Parts)
    requires Canonical(parts) && Tried(parts)[2] != ""
    ensures Names(parts[0], Tried(parts)[2])
  {
    WithoutNames(parts, ScriptIndex(parts, 1));
  }

  lemma TriedScriptOnly(parts: Parts)
    requires Canonical(parts) && Tried(parts)[3] != ""
    ensures Names(parts[0], Tried(parts)[3])
  {
    EffectiveScriptIsCanonical(parts);
    ScriptOnlyNames(parts, EffectiveScript(parts));
  }

  lemma TriedNames(parts: Parts, k: nat)
    requires Canonical(parts) && k < |Tried(parts)| && Tried(parts)[k] != ""
    ensures Names(parts[0], Tried(parts)[k])
  {
    if k == 0 {
      TriedInserted(parts);
    } else if k == 1 {
      JoinNames(parts);
    } else if k == 2 {
      TriedWithout(parts);
    } else if k == 3 {
      TriedScriptOnly(parts);
    } else {
      LanguageNames(parts);
    }
  }

  /** Whatever is collected from the names tried is a normal form of the language. */
  lemma TriedAreNormal(parts: Parts, v: string)
    requires Canonical(parts) && v in Collected(Tried(parts))
    ensures Normal(v) == v && v != "" && Split(v)[0] == parts[0]
  {
    CollectedMeans(Tried(parts));
    var k :| 0 <= k < |Tried(parts)| && Tried(parts)[k] == v;
    TriedNames(parts, k);
    NamesAreNormal(parts[0], v);
  }

  lemma NamesAreNormal(language: string, value: string)
    requires Names(language, value)
    ensures value != "" && Normal(value) == value && Split(value)[0] == language
  {
    var parts :| Canonical(parts) && parts[0] == language && value == Join(parts);
    CanonicalIsNormal(parts);
  }

  /** The candidates of a name that has a tag: no duplicates, all in normal form and of the
      tag's language, the tag among them. */
  lemma CandidatesMean(raw: string)
    requires Normal(raw) != ""
    ensures NoDuplicates(Candidates(raw)) && Normal(raw) in Candidates(raw)
    ensures forall v :: v in Candidates(raw) ==> Normal(v) == v && v != "" && Split(v)[0] == Split(Normal(raw))[0]
  {
    var parts := Split(Normal(raw));
    NormalIsCanonical(raw);
    CollectedMeans(Tried(parts));
    assert Tried(parts)[1] == Normal(raw);
    forall v | v in Candidates(raw) ensures Normal(v) == v && v != "" && Split(v)[0] == parts[0] {
      TriedAreNormal(parts, v);
    }
  }

  lemma HasDash(p: string, rest: string)
    requires '-' !in p
    ensures p + "-" + rest != p
  {
    assert (p + "-" + rest)[|p|] == '-';
  }

  /** A name of two or more parts is not a bare language. */
  lemma LongerIsNotLanguage(parts: Parts)
    requires Canonical(parts) && |parts| >= 2
    ensures Join(parts) != parts[0]
  {
    CanonicalIsNormal(parts);
    SplitOne(parts[0]);
  }

  lemma OthersAreNotLanguage(parts: Parts, k: nat)
    requires Canonical(parts) && k < 4 && Tried(parts)[k] == parts[0]
    ensures k == 1 && |parts| == 1
  {
    var script := EffectiveScript(parts);
    if k == 1 && |parts| >= 2 {
      LongerIsNotLanguage(parts);
    }
    if script != "" {
      EffectiveScriptIsCanonical(parts);
      InsertedIsLonger(parts, script);
      HasDash(parts[0], script);
    }
    if Script(parts) != "" && Region(parts) != "" {
      WithoutIsLonger(parts);
    }
  }

  lemma InsertedIsLonger(parts: Parts, script: string)
    requires Canonical(parts) && TailPart(script)
    ensures WithInsertedScript(parts, script) != parts[0]
  {
    var more := parts[..1] + [script] + parts[1..];
    forall k | 1 <= k < |more| ensures TailPart(more[k]) {
      assert more[k] == if k == 1 then script else parts[k - 1];
    }
    LongerIsNotLanguage(more);
  }

  lemma ScriptAndRegionAreTwo(parts: Parts)
    requires Script(parts) != "" && Region(parts) != ""
    ensures |parts| >= 3
  {
    assert IsScript(parts[ScriptIndex(parts, 1)]) && IsRegion(parts[RegionIndex(parts, 1)]);
  }

  lemma RemovedIsLonger(parts: Parts, i: nat)
    requires Canonical(parts) && 1 <= i < |parts| && |parts| >= 3
    ensures Join(parts[..i] + parts[i + 1..]) != parts[0]
  {
    var fewer := parts[..i] + parts[i + 1..];
    forall k | 1 <= k < |fewer| ensures TailPart(fewer[k]) {
      assert fewer[k] == parts[if k < i then k else k + 1];
    }
    LongerIsNotLanguage(fewer);
  }

  lemma WithoutIsLonger(parts: Parts)
    requires Canonical(parts) && Script(parts) != "" && Region(parts) != ""
    ensures WithoutScript(parts) != parts[0]
  {
    ScriptAndRegionAreTwo(parts);
    RemovedIsLonger(parts, ScriptIndex(parts, 1));
  }

  /** The last candidate is the bare language. */
  lemma CandidatesEndWithLanguage(raw: string)
    requires Normal(raw) != ""
    ensures Candidates(raw) != [] && Candidates(raw)[|Candidates(raw)| - 1] == Split(Normal(raw))[0]
  {
    var parts := Split(Normal(raw));
    NormalIsCanonical(raw);
    var tried := Tried(parts);
    CollectedFive(tried[0], tried[1], tried[2], tried[3], tried[4]);
    if |parts| == 1 {
      SingleTried(parts);
    } else {
      forall k | 0 <= k < 4 ensures tried[k] != parts[0] {
        if tried[k] == parts[0] {
          OthersAreNotLanguage(parts, k);
        }
      }
      CollectedLast(tried);
    }
  }

  lemma SingleTried(parts: Parts)
    requires Canonical(parts) && |parts| == 1
    ensures Tried(parts) == ["", parts[0], "", "", parts[0]]
  {
    assert parts == [parts[0]];
    JoinTwo(parts[0], parts[0]);
  }

  // ----- which names are tried -----

  lemma JoinThree(p: string, q: string, r: string)
    requires p != "" && q != "" && r != ""
    ensures Join([p, q, r]) == p + "-" + q + "-" + r
  {
    assert [p, q, r][..2] == [p, q];
    JoinTwo(p, q);
  }

  function ScriptOfRegion(region: string): string {
    match region
    case "CN" => "Hans"
    case "SG" => "Hans"
    case "MY" => "Hans"
    case "TW" => "Hant"
    case "HK" => "Hant"
    case "MO" => "Hant"
    case _ => ""
  }

  lemma CollectedOfTwo(a: string, b: string)
    requires a != "" && b != "" && a != b
    ensures Collected(["", a, "", a, b]) == [a, b] && Collected(["", a, "", "", b]) == [a, b]
    ensures Collected(["", a, "", "", a]) == [a]
  {
    CollectedFive("", a, "", a, b);
    CollectedFive("", a, "", "", b);
    CollectedFive("", a, "", "", a);
  }

  lemma CollectedOfFour(a: string, b: string, c: string, d: string)
    requires "" !in [a, b, c, d] && NoDuplicates([a, b, c, d])
    ensures Collected([a, b, "", c, d]) == [a, b, c, d] && Collected(["", a, b, c, d]) == [a, b, c, d]
  {
    CollectedFive(a, b, "", c, d);
    CollectedFive("", a, b, c, d);
    var all := [a, b, c, d];
    assert all[0] != all[1] && all[0] != all[2] && all[0] != all[3] && all[1] != all[2];
    assert all[1] != all[3] && all[2] != all[3];
    assert a in all && b in all && c in all && d in all;
  }

  lemma LanguageCandidates(language: string)
    requires language != ""
    ensures Collected(Tried([language])) == [language]
  {
    JoinTwo(language, language);
    assert ScriptIndex([language], 1) == 0 && RegionIndex([language], 1) == 0;
    assert Tried([language]) == ["", language, "", "", language];
    CollectedOfTwo(language, language + "-");
  }

  /** A language alone has itself; with a script, both together come first. */
  lemma CandidatesWithoutRegion(language: string, script: string)
    requires language != "" && IsScript(script)
    ensures Collected(Tried([language])) == [language]
    ensures Collected(Tried([language, script])) == [language + "-" + script, language]
  {
    LanguageCandidates(language);
    JoinTwo(language, script);
    var parts := [language, script];
    assert ScriptIndex(parts, 1) == 1 && RegionIndex(parts, 1) == 0 by {
      assert RegionIndex(parts, 2) == 0;
    }
    DifferentLengths(language, script);
    var both := language + "-" + script;
    assert Tried(parts) == ["", both, "", both, language];
    CollectedOfTwo(both, language);
  }

  lemma DifferentLengths(p: string, q: string)
    ensures p + "-" + q != p && |p + "-" + q| == |p| + 1 + |q|
  {
  }

  /** With a region, the name comes first, then the language; but Chinese regions imply a script,
      and then the name with that script comes before them, and language and script between. */
  lemma CandidatesWithRegion(language: string, region: string)
    requires language != "" && IsRegion(region)
    ensures var script := if language == "zh" then ScriptOfRegion(region) else "";
      Collected(Tried([language, region])) ==
        if script == "" then [language + "-" + region, language]
        else [language + "-" + script + "-" + region, language + "-" + region, language + "-" + script, language]
  {
    var parts := [language, region];
    var script := if language == "zh" then ScriptOfRegion(region) else "";
    assert ScriptIndex(parts, 1) == 0 && RegionIndex(parts, 1) == 1 by {
      assert ScriptIndex(parts, 2) == 0;
    }
    assert EffectiveScript(parts) == script;
    JoinTwo(language, region);
    DifferentLengths(language, region);
    if script == "" {
      assert Tried(parts) == ["", language + "-" + region, "", "", language];
      CollectedOfTwo(language + "-" + region, language);
    } else {
      assert parts[..1] + [script] + parts[1..] == [language, script, region];
      JoinThree(language, script, region);
      FourDifferent(language, script, region);
      CollectedOfFour(language + "-" + script + "-" + region, language + "-" + region,
                      language + "-" + script, language);
    }
  }

  lemma FourDifferent(language: string, script: string, region: string)
    requires language != "" && |script| == 4 && IsRegion(region)
    ensures var all := [language + "-" + script + "-" + region, language + "-" + region,
                        language + "-" + script, language];
      "" !in all && NoDuplicates(all)
  {
    DifferentLengths(language, region);
    DifferentLengths(language, script);
    DifferentLengths(language + "-" + script, region);
  }

  /** With a script and a region the name comes first, then without the script, then without the
      region, then the language. */
  lemma CandidatesWithScriptAndRegion(language: string, script: string, region: string)
    requires language != "" && IsScript(script) && IsRegion(region)
    ensures Collected(Tried([language, script, region])) ==
      [language + "-" + script + "-" + region, language + "-" + region, language + "-" + script, language]
  {
    var parts := [language, script, region];
    assert ScriptIndex(parts, 1) == 1 && RegionIndex(parts, 1) == 2 by {
      assert RegionIndex(parts, 2) == 2;
    }
    JoinThree(language, script, region);
    JoinTwo(language, region);
    assert parts[..1] + parts[2..] == [language, region];
    FourDifferent(language, script, region);
    CollectedOfFour(language + "-" + script + "-" + region, language + "-" + region, language + "-" + script, language);
  }
}
