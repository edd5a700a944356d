/** Quoting and splitting of shell-like argument strings. The methods are the loops
    of the program; the functions beside them say what they compute, and splitting
    is proved to undo quoting. */
module ShellWords {
  import opened TextSearch

  datatype Split = Words(words: seq<string>) | UnterminatedQuote

  predicate IsBlank(c: char) { c == ' ' || c == '\t' || c == '\n' || c == '\r' }

  // ----- printers -----

  function QuoteChar(c: char): string { if c == '\'' then "'\\''" else [c] }

  function QuotedBody(s: string): string {
    if s == "" then "" else QuoteChar(s[0]) + QuotedBody(s[1..])
  }

  function ShellQuoted(s: string): string { "'" + QuotedBody(s) + "'" }

  function EscapeChar(c: char): string { if c == '\\' || c == '"' then ['\\', c] else [c] }

  function EscapedBody(s: string): string {
    if s == "" then "" else EscapeChar(s[0]) + EscapedBody(s[1..])
  }

  function DoubleQuoted(s: string): string { "\"" + EscapedBody(s) + "\"" }

  function Joined(parts: seq<string>, separator: string): string {
    if parts == [] then ""
    else if |parts| == 1 then parts[0]
    else parts[0] + separator + Joined(parts[1..], separator)
  }

  lemma {:induction false} QuotedBodySnoc(s: string, c: char)
    ensures QuotedBody(s + [c]) == QuotedBody(s) + QuoteChar(c)
  {
    if s == "" {
      assert (s + [c])[1..] == "";
    } else {
      assert (s + [c])[1..] == s[1..] + [c];
      QuotedBodySnoc(s[1..], c);
    }
  }

  lemma {:induction false} EscapedBodySnoc(s: string, c: char)
    ensures EscapedBody(s + [c]) == EscapedBody(s) + EscapeChar(c)
  {
    if s == "" {
      assert (s + [c])[1..] == "";
    } else {
      assert (s + [c])[1..] == s[1..] + [c];
      EscapedBodySnoc(s[1..], c);
    }
  }

  lemma {:induction false} JoinedSnoc(parts: seq<string>, part: string, separator: string)
    requires parts != []
    ensures Joined(parts + [part], separator) == Joined(parts, separator) + separator + part
  {
    assert (parts + [part])[1..] == parts[1..] + [part];
    if |parts| > 1 {
      JoinedSnoc(parts[1..], part, separator);
    } else {
      assert Joined([part], separator) == part;
    }
  }

  method ShellQuote(text: string) returns (result: string)
    ensures result == ShellQuoted(text)
  {
    result := "'";
    var i := 0;
    while i < |text|
      invariant 0 <= i <= |text| && result == "'" + QuotedBody(text[..i])
    {
      QuotedBodySnoc(text[..i], text[i]);
      assert text[..i + 1] == text[..i] + [text[i]];
      if text[i] == '\'' {
        result := result + "'\\''";
      } else {
        result := result + [text[i]];
      }
      i := i + 1;
    }
    assert text[..i] == text;
    result := result + "'";
  }

  method QuoteDouble(text: string) returns (result: string)
    ensures result == DoubleQuoted(text)
  {
    result := "\"";
    var i := 0;
    while i < |text|
      invariant 0 <= i <= |text| && result == "\"" + EscapedBody(text[..i])
    {
      EscapedBodySnoc(text[..i], text[i]);
      assert text[..i + 1] == text[..i] + [text[i]];
      if text[i] == '\\' || text[i] == '"' {
        result := result + "\\";
      }
      result := result + [text[i]];
      i := i + 1;
    }
    assert text[..i] == text;
    result := result + "\"";
  }

  method Join(parts: seq<string>, separator: string) returns (result: string)
    ensures result == Joined(parts, separator)
  {
    result := "";
    var i := 0;
    while i < |parts|
      invariant 0 <= i <= |parts| && result == Joined(parts[..i], separator)
    {
      assert parts[..i + 1] == parts[..i] + [parts[i]];
      if i > 0 {
        JoinedSnoc(parts[..i], parts[i], separator);
        result := result + separator;
      }
      result := result + parts[i];
      i := i + 1;
    }
    assert parts[..i] == parts;
  }

  // ----- the splitter -----

  datatype Inner = Closed(rest: string, current: string) | Open

  predicate Escapable(c: char) { c == '"' || c == '\\' || c == '$' || c == '`' }

  /** Reads the inside of a double-quoted part up to its closing quote. */
  function ReadDouble(rest: string, current: string): (r: Inner)
    ensures r.Closed? ==> |r.rest| < |rest|
    decreases |rest|
  {
    if rest == "" then Open
    else if rest[0] == '"' then Closed(rest[1..], current)
    else if rest[0] == '\\' && |rest| > 1 && Escapable(rest[1]) then ReadDouble(rest[2..], current + [rest[1]])
    else ReadDouble(rest[1..], current + [rest[0]])
  }

  /** Splits the rest of the text, after the given words and the word being read. */
  function Scan(rest: string, words: seq<string>, current: string, inWord: bool): Split
    decreases |rest|
  {
    if rest == "" then Words(if inWord then words + [current] else words)
    else if IsBlank(rest[0]) then
      if inWord then Scan(rest[1..], words + [current], "", false) else Scan(rest[1..], words, current, false)
    else if rest[0] == '\'' then
      var k := IndexOf(rest[1..], '\'');
      if k == |rest| - 1 then UnterminatedQuote
      else Scan(rest[k + 2..], words, current + rest[1..k + 1], true)
    else if rest[0] == '"' then
      match ReadDouble(rest[1..], current)
      case Open => UnterminatedQuote
      case Closed(after, word) => Scan(after, words, word, true)
    else if rest[0] == '\\' then
      if |rest| > 1 then Scan(rest[2..], words, current + [rest[1]], true)
      else Scan("", words, current + "\\", true)
    else Scan(rest[1..], words, current + [rest[0]], true)
  }

  /** The inner loop over a double-quoted part. */
  method ReadDoubleAt(text: string, start: nat, word: string) returns (closed: bool, i: nat, current: string)
    requires start <= |text|
    ensures start <= i <= |text|
    ensures closed ==> ReadDouble(text[start..], word) == Closed(text[i..], current)
    ensures !closed ==> ReadDouble(text[start..], word) == Open
  {
    i, current := start, word;
    while i < |text|
      invariant start <= i <= |text|
      invariant ReadDouble(text[i..], current) == ReadDouble(text[start..], word)
    {
      var inner := text[i];
      assert text[i..][1..] == text[i + 1..];
      if inner == '"' {
        return true, i + 1, current;
      }
      if inner == '\\' && i + 1 < |text| && Escapable(text[i + 1]) {
        assert text[i..][2..] == text[i + 2..];
        current := current + [text[i + 1]];
        i := i + 2;
        continue;
      }
      current := current + [inner];
      i := i + 1;
    }
    return false, i, current;
  }

  /** A part in single quotes, of which the closing one is at `close` or missing. */
  lemma ScanSingleQuoted(
      text: string, start: nat, close: nat, word: string, words: seq<string>, inWord: bool)
    requires start < |text| && text[start] == '\'' && close == start + 1 + IndexOf(text[start + 1..], '\'')
    ensures Scan(text[start..], words, word, inWord) ==
      if close == |text| then UnterminatedQuote
      else Scan(text[close + 1..], words, word + text[start + 1..close], true)
  {
    var rest := text[start..];
    assert rest[1..] == text[start + 1..];
    if close < |text| {
      assert rest[1..close - start] == text[start + 1..close] && rest[close - start + 1..] == text[close + 1..];
    }
  }

  lemma ScanDoubleQuoted(text: string, start: nat, word: string, words: seq<string>, inWord: bool)
    requires start < |text| && text[start] == '"'
    ensures Scan(text[start..], words, word, inWord) ==
      match ReadDouble(text[start + 1..], word)
      case Open => UnterminatedQuote
      case Closed(after, current) => Scan(after, words, current, true)
  {
    assert text[start..][1..] == text[start + 1..];
  }

  lemma ScanEscaped(text: string, start: nat, word: string, words: seq<string>, inWord: bool)
    requires start < |text| && text[start] == '\\'
    ensures Scan(text[start..], words, word, inWord) ==
      if start + 1 < |text| then Scan(text[start + 2..], words, word + [text[start + 1]], true)
      else Scan(text[start + 1..], words, word + "\\", true)
  {
    if start + 1 < |text| {
      assert text[start..][2..] == text[start + 2..] && text[start..][1] == text[start + 1];
    } else {
      assert text[start + 1..] == "";
    }
  }

  lemma ScanPlain(text: string, start: nat, word: string, words: seq<string>, inWord: bool)
    requires start < |text| && !IsBlank(text[start]) && text[start] !in ['\'', '"', '\\']
    ensures Scan(text[start..], words, word, inWord) == Scan(text[start + 1..], words, word + [text[start]], true)
  {
    assert text[start..][1..] == text[start + 1..];
  }

  /** The part of a word that starts at a non-blank character. */
  method ReadPart(text: string, start: nat, word: string, ghost words: seq<string>, ghost inWord: bool)
    returns (ok: bool, i: nat, current: string)
    requires start < |text| && !IsBlank(text[start])
    ensures start < i <= |text|
    ensures ok ==> Scan(text[start..], words, word, inWord) == Scan(text[i..], words, current, true)
    ensures !ok ==> Scan(text[start..], words, word, inWord) == UnterminatedQuote
  {
    var ch := text[start];
    if ch == '\'' {
      var close := FindFrom(text, '\'', start + 1);
      ScanSingleQuoted(text, start, close, word, words, inWord);
      if close == |text| {
        return false, |text|, word;
      }
      return true, close + 1, word + text[start + 1..close];
    } else if ch == '"' {
      ok, i, current := ReadDoubleAt(text, start + 1, word);
      ScanDoubleQuoted(text, start, word, words, inWord);
      return;
    } else if ch == '\\' {
      ScanEscaped(text, start, word, words, inWord);
      if start + 1 < |text| {
        return true, start + 2, word + [text[start + 1]];
      }
      return true, start + 1, word + "\\";
    }
    ScanPlain(text, start, word, words, inWord);
    return true, start + 1, word + [ch];
  }

  method SplitShellWords(text: string) returns (split: Split)
    ensures split == Scan(text, [], "", false)
  {
    var words: seq<string>, current := [], "";
    var inWord := false;
    var i: nat := 0;
    assert text[0..] == text;
    while i < |text|
      invariant 0 <= i <= |text|
      invariant Scan(text[i..], words, current, inWord) == Scan(text, [], "", false)
      decreases |text| - i
    {
      if IsBlank(text[i]) {
        if inWord {
          words := words + [current];
          current := "";
          inWord := false;
        }
        i := i + 1;
        continue;
      }
      var ok;
      ok, i, current := ReadPart(text, i, current, words, inWord);
      if !ok {
        return UnterminatedQuote;
      }
      inWord := true;
    }
    assert text[i..] == "";
    if inWord {
      words := words + [current];
    }
    return Words(words);
  }

  // ----- splitting undoes quoting -----

  lemma {:induction false} QuotedBodySplit(u: string, v: string)
    requires '\'' !in u
    ensures QuotedBody(u + v) == u + QuotedBody(v)
  {
    if u == "" {
      assert u + v == v;
    } else {
      assert (u + v)[1..] == u[1..] + v;
      QuotedBodySplit(u[1..], v);
      assert u == [u[0]] + u[1..];
    }
  }

  lemma {:induction false} IndexOfAfter(u: string, c: char, v: string)
    requires c !in u
    ensures IndexOf(u + [c] + v, c) == |u|
  {
    if u != "" {
      assert (u + [c] + v)[1..] == u[1..] + [c] + v;
      IndexOfAfter(u[1..], c, v);
    }
  }

  lemma ScanSegment(u: string, post: string, words: seq<string>, current: string, inWord: bool)
    requires '\'' !in u
    ensures Scan("'" + u + "'" + post, words, current, inWord) == Scan(post, words, current + u, true)
  {
    var text := "'" + u + "'" + post;
    IndexOfAfter(u, '\'', post);
    assert text[1..] == u + ['\''] + post;
    assert text[|u| + 2..] == post && text[1..|u| + 1] == u;
  }

  lemma Regrouped(a: string, b: string, u: string, q: string, post: string)
    ensures a + (u + (a + b + a + q)) + a == a + u + a + b + (a + q + a)
    ensures a + u + a + b + q + post == a + u + a + (b + (q + post))
  {
  }

  lemma QuotedAt(u: string, v: string)
    requires '\'' !in u
    ensures ShellQuoted(u + "'" + v) == "'" + u + "'" + "\\'" + ShellQuoted(v)
  {
    QuoteFirst(v);
    QuotedBodySplit(u, "'" + v);
    assert u + "'" + v == u + ("'" + v);
    Regrouped("'", "\\'", u, QuotedBody(v), "");
  }

  lemma QuoteFirst(v: string)
    ensures QuotedBody("'" + v) == "'" + "\\'" + "'" + QuotedBody(v)
  {
    assert ("'" + v)[1..] == v;
    assert "'\\''" == "'" + "\\'" + "'";
  }

  lemma QuotedPlain(u: string)
    requires '\'' !in u
    ensures ShellQuoted(u) == "'" + u + "'"
  {
    QuotedBodySplit(u, "");
    assert u + "" == u;
  }

  lemma ScanUpToQuote(u: string, v: string, post: string, words: seq<string>, current: string, inWord: bool)
    requires '\'' !in u
    ensures Scan(ShellQuoted(u + "'" + v) + post, words, current, inWord) ==
      Scan(ShellQuoted(v) + post, words, current + u + "'", true)
  {
    var after := ShellQuoted(v) + post;
    QuotedAt(u, v);
    Regrouped("'", "\\'", u, ShellQuoted(v), post);
    ScanSegment(u, "\\'" + after, words, current, inWord);
    ScanEscapedQuote(after, words, current + u);
  }

  lemma ScanEscapedQuote(after: string, words: seq<string>, current: string)
    ensures Scan("\\'" + after, words, current, true) == Scan(after, words, current + "'", true)
  {
    assert ("\\'" + after)[2..] == after;
  }

  /** A quoted word is read back whole, whatever precedes it in the word and follows it. */
  lemma {:induction false} ScanQuoted(s: string, post: string, words: seq<string>, current: string, inWord: bool)
    ensures Scan(ShellQuoted(s) + post, words, current, inWord) == Scan(post, words, current + s, true)
    decreases |s|
  {
    var k := IndexOf(s, '\'');
    var u := s[..k];
    if k == |s| {
      assert u == s;
      QuotedPlain(s);
      ScanSegment(s, post, words, current, inWord);
    } else {
      var v := s[k + 1..];
      assert s == u + "'" + v;
      ScanUpToQuote(u, v, post, words, current, inWord);
      ScanQuoted(v, post, words, current + u + "'", true);
      assert current + u + "'" + v == current + s;
    }
  }

  lemma ScanQuotedWord(word: string, rest: string, before: seq<string>)
    ensures Scan(ShellQuoted(word) + " " + rest, before, "", false) == Scan(rest, before + [word], "", false)
    ensures Scan(ShellQuoted(word), before, "", false) == Words(before + [word])
  {
    ScanQuoted(word, " " + rest, before, "", false);
    ScanQuoted(word, "", before, "", false);
    assert ShellQuoted(word) + " " + rest == ShellQuoted(word) + (" " + rest);
    assert ShellQuoted(word) + "" == ShellQuoted(word);
    assert (" " + rest)[1..] == rest && "" + word == word;
  }

  function Quoted(words: seq<string>): seq<string> {
    seq(|words|, k requires 0 <= k < |words| => ShellQuoted(words[k]))
  }

  lemma JoinedQuoted(word: string, words: seq<string>)
    ensures Joined(Quoted([word]), " ") == ShellQuoted(word)
    ensures words != [] ==> Joined(Quoted([word] + words), " ") == ShellQuoted(word) + " " + Joined(Quoted(words), " ")
  {
    assert Quoted([word] + words)[1..] == Quoted(words);
  }

  lemma ScanJoinedFirst(word: string, rest: seq<string>, before: seq<string>)
    ensures rest == [] ==> Scan(Joined(Quoted([word] + rest), " "), before, "", false) == Words(before + [word])
    ensures rest != [] ==>
      Scan(Joined(Quoted([word] + rest), " "), before, "", false) ==
      Scan(Joined(Quoted(rest), " "), before + [word], "", false)
  {
    JoinedQuoted(word, rest);
    ScanQuotedWord(word, Joined(Quoted(rest), " "), before);
    assert rest == [] ==> [word] + rest == [word];
  }

  lemma {:induction false} ScanJoined(words: seq<string>, before: seq<string>)
    requires words != []
    ensures Scan(Joined(Quoted(words), " "), before, "", false) == Words(before + words)
    decreases |words|
  {
    var rest, next := words[1..], before + [words[0]];
    assert words == [words[0]] + rest && next + rest == before + words;
    ScanJoinedFirst(words[0], rest, before);
    if rest != [] {
      ScanJoined(rest, next);
    }
  }

  /** Splitting the space-joined quoted words gives back the list: empty words, and
      words with quotes, backslashes, blanks and newlines included. */
  lemma SplitUndoesQuoting(words: seq<string>)
    ensures Scan(Joined(Quoted(words), " "), [], "", false) == Words(words)
  {
    if words != [] {
      ScanJoined(words, []);
      assert [] + words == words;
    }
  }

  lemma {:induction false} ReadEscaped(s: string, post: string, current: string)
    ensures ReadDouble(EscapedBody(s) + "\"" + post, current) == Closed(post, current + s)
    decreases |s|
  {
    var text := EscapedBody(s) + "\"" + post;
    if s == "" {
      assert text[1..] == post && current + s == current;
    } else {
      var rest := EscapedBody(s[1..]) + "\"" + post;
      assert text == EscapeChar(s[0]) + rest;
      assert text[|EscapeChar(s[0])|..] == rest;
      ReadEscaped(s[1..], post, current + [s[0]]);
      assert current + [s[0]] + s[1..] == current + s;
    }
  }

  /** A double-quoted string is read back as one word. */
  lemma SplitUndoesQuoteDouble(s: string)
    ensures Scan(DoubleQuoted(s), [], "", false) == Words([s])
  {
    assert DoubleQuoted(s)[1..] == EscapedBody(s) + "\"" + "";
    ReadEscaped(s, "", "");
    assert "" + s == s && [] + [s] == [s];
  }

  // ----- unquote -----

  function Unescaped(s: string): string
    decreases |s|
  {
    if s == "" then ""
    else if s[0] == '\\' && |s| > 1 then [s[1]] + Unescaped(s[2..])
    else [s[0]] + Unescaped(s[1..])
  }

  predicate Enclosed(text: string) {
    |text| >= 2 && text[0] == text[|text| - 1] && (text[0] == '"' || text[0] == '\'')
  }

  function Unquoted(text: string): string {
    if Enclosed(text) then Unescaped(text[1..|text| - 1]) else text
  }

  /** Drops the backslashes that escape a character. */
  method Unescape(inside: string) returns (result: string)
    ensures result == Unescaped(inside)
  {
    result := "";
    var i: nat := 0;
    assert inside[0..] == inside;
    while i < |inside|
      invariant 0 <= i <= |inside| && result + Unescaped(inside[i..]) == Unescaped(inside)
    {
      UnescapedAt(inside, i);
      var skip := if inside[i] == '\\' && i + 1 < |inside| then 1 else 0;
      Regroup(result, inside[i + skip], Unescaped(inside[i + skip + 1..]));
      i := i + skip;
      result := result + [inside[i]];
      i := i + 1;
    }
  }

  lemma Regroup(a: string, c: char, b: string)
    ensures a + ([c] + b) == (a + [c]) + b
  {
  }

  lemma UnescapedAt(s: string, i: nat)
    requires i < |s|
    ensures Unescaped(s[i..]) ==
      var skip := if s[i] == '\\' && i + 1 < |s| then 1 else 0;
      [s[i + skip]] + Unescaped(s[i + skip + 1..])
  {
    assert s[i..][1..] == s[i + 1..];
    assert i + 1 < |s| ==> s[i..][2..] == s[i + 2..];
  }

  method Unquote(text: string) returns (result: string)
    ensures result == Unquoted(text)
  {
    if |text| < 2 {
      return text;
    }
    var front, back := text[0], text[|text| - 1];
    if (front == '"' && back == '"') || (front == '\'' && back == '\'') {
      result := Unescape(text[1..|text| - 1]);
      return;
    }
    return text;
  }

  lemma {:induction false} UnescapeUndoesEscape(s: string)
    ensures Unescaped(EscapedBody(s)) == s
  {
    if s != "" {
      var text := EscapedBody(s);
      assert text[|EscapeChar(s[0])|..] == EscapedBody(s[1..]);
      UnescapeUndoesEscape(s[1..]);
    }
  }

  /** unquote undoes quoteDouble. */
  lemma UnquoteUndoesQuoteDouble(s: string)
    ensures Unquoted(DoubleQuoted(s)) == s
  {
    UnescapeUndoesEscape(s);
    assert DoubleQuoted(s)[1..|DoubleQuoted(s)| - 1] == EscapedBody(s);
  }

  // ----- words without quotes -----

  predicate Plain(c: char) { !IsBlank(c) && c != '\'' && c != '"' && c != '\\' }

  predicate AllBlank(s: string) { forall k :: 0 <= k < |s| ==> s[k] in " \t\n\r" }

  predicate AllPlain(s: string) { forall k :: 0 <= k < |s| ==> Plain(s[k]) }

  /** The words with gaps before, between and after them. */
  function Spread(words: seq<string>, gaps: seq<string>): string
    requires |gaps| == |words| + 1
  {
    if words == [] then gaps[0] else gaps[0] + words[0] + Spread(words[1..], gaps[1..])
  }

  lemma {:induction false} ScanBlanks(gap: string, rest: string, words: seq<string>)
    requires AllBlank(gap)
    ensures Scan(gap + rest, words, "", false) == Scan(rest, words, "", false)
  {
    if gap == "" {
      assert gap + rest == rest;
    } else {
      assert (gap + rest)[1..] == gap[1..] + rest;
      ScanBlanks(gap[1..], rest, words);
    }
  }

  lemma {:induction false} ScanPlainWord(word: string, rest: string, words: seq<string>, current: string, inWord: bool)
    requires AllPlain(word) && (word != "" || inWord)
    ensures Scan(word + rest, words, current, inWord) == Scan(rest, words, current + word, true)
  {
    if word == "" {
      assert word + rest == rest && current + word == current;
    } else {
      assert (word + rest)[1..] == word[1..] + rest;
      assert current + [word[0]] + word[1..] == current + word;
      ScanPlainWord(word[1..], rest, words, current + [word[0]], true);
    }
  }

  lemma ScanEndOfWord(gap: string, rest: string, words: seq<string>, current: string)
    requires AllBlank(gap) && (gap != "" || rest == "")
    ensures Scan(gap + rest, words, current, true) == Scan(rest, words + [current], "", false)
  {
    if gap != "" {
      assert (gap + rest)[1..] == gap[1..] + rest;
      ScanBlanks(gap[1..], rest, words + [current]);
    } else {
      assert gap + rest == "";
    }
  }

  /** Plain words are split at the blanks between them, however many and of whatever kind. */
  lemma {:induction false} SplitsAtBlanks(words: seq<string>, gaps: seq<string>, before: seq<string>)
    requires |gaps| == |words| + 1 && (forall k :: 0 <= k < |gaps| ==> AllBlank(gaps[k]))
    requires forall k :: 0 < k < |words| ==> gaps[k] != ""
    requires forall k :: 0 <= k < |words| ==> words[k] != "" && AllPlain(words[k])
    ensures Scan(Spread(words, gaps), before, "", false) == Words(before + words)
  {
    if words == [] {
      assert gaps[0] + "" == gaps[0] && before + words == before;
      ScanBlanks(gaps[0], "", before);
    } else {
      var rest := Spread(words[1..], gaps[1..]);
      assert gaps[0] + words[0] + rest == gaps[0] + (words[0] + rest);
      ScanBlanks(gaps[0], words[0] + rest, before);
      ScanPlainWord(words[0], rest, before, "", false);
      assert "" + words[0] == words[0];
      SpreadBegins(words[1..], gaps[1..]);
      var tail := rest[|gaps[1]|..];
      assert rest == gaps[1] + tail;
      ScanEndOfWord(gaps[1], tail, before, words[0]);
      ScanBlanks(gaps[1], tail, before + [words[0]]);
      SplitsAtBlanks(words[1..], gaps[1..], before + [words[0]]);
      assert before + [words[0]] + words[1..] == before + words;
    }
  }

  lemma SpreadBegins(words: seq<string>, gaps: seq<string>)
    requires |gaps| == |words| + 1
    ensures gaps[0] <= Spread(words, gaps) && (words == [] ==> Spread(words, gaps) == gaps[0])
  {
  }

  /** Inside double quotes a backslash escapes a double quote, a backslash, a dollar and a grave
      accent; before anything else it stands for itself. */
  lemma EscapesInside(c: char, rest: string, current: string)
    ensures ReadDouble(['\\', c] + rest, current) ==
      if c in "\"\\$`" then ReadDouble(rest, current + [c]) else ReadDouble([c] + rest, current + ['\\'])
  {
    assert (['\\', c] + rest)[1..] == [c] + rest && (['\\', c] + rest)[2..] == rest;
    var all := "\"\\$`";
    assert all[0] == '"' && all[1] == '\\' && all[2] == '$' && all[3] == '`';
  }

  /** Unquoting takes off a pair of quotes of either kind, and nothing else. */
  lemma UnquotesEitherKind(s: string, quote: char)
    requires forall k :: 0 <= k < |s| ==> s[k] != '\\'
    ensures Unquoted([quote] + s + [quote]) == if quote in "'\"" then s else [quote] + s + [quote]
    ensures (s == "" || s[0] != s[|s| - 1] || (s[0] != '"' && s[0] != '\'')) ==> Unquoted(s) == s
  {
    var text := [quote] + s + [quote];
    assert text[1..|text| - 1] == s;
    WithoutEscapes(s);
    var both := "'\"";
    assert both[0] == '\'' && both[1] == '"';
  }

  lemma {:induction false} WithoutEscapes(s: string)
    requires forall k :: 0 <= k < |s| ==> s[k] != '\\'
    ensures Unescaped(s) == s
  {
    if s != "" {
      WithoutEscapes(s[1..]);
    }
  }
}
