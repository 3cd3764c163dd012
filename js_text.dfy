/**
 * The JavaScript string and number primitives the watcher is written with,
 * stated on `string` (= `seq<char>`) and `int`: `trim`, `split`, `join`,
 * `String(n)`, `Number(s)`, integer `toLocaleString()`, `toUpperCase()` and
 * the regular-expression rewrites `/\s+/g -> ' '` and `/\n{3,}/g -> '\n\n'`.
 */
module JsText {
  import opened Wrappers

  // ---------------------------------------------------------------- white space

  /** The characters `String.prototype.trim` strips and the regex class `\s` matches. */
  predicate IsWhitespace(c: char) {
    || c == '\t' || c == '\n' || c == '\U{000B}' || c == '\U{000C}' || c == '\r' || c == ' '
    || c == '\U{00A0}' || c == '\U{1680}' || ('\U{2000}' <= c <= '\U{200A}')
    || c == '\U{2028}' || c == '\U{2029}' || c == '\U{202F}' || c == '\U{205F}'
    || c == '\U{3000}' || c == '\U{FEFF}'
  }

  /** `s.trimStart()`: the suffix left after dropping leading white space. */
  function TrimStart(s: string): (r: string)
    ensures |r| <= |s| && r == s[|s| - |r|..]
    ensures s != [] && IsWhitespace(s[0]) ==> |r| < |s|
  {
    if s != [] && IsWhitespace(s[0]) then TrimStart(s[1..]) else s
  }

  /** `s.trimEnd()`: the prefix left after dropping trailing white space. */
  function TrimEnd(s: string): (r: string)
    ensures |r| <= |s| && r == s[..|r|]
  {
    if s != [] && IsWhitespace(s[|s| - 1]) then TrimEnd(s[..|s| - 1]) else s
  }

  /** Where `Trim(s)` starts inside `s`. */
  function TrimOffset(s: string): nat {
    |s| - |TrimStart(s)|
  }

  /** `s.trim()`: a window of `s`; `TrimEnds` says it has no white space at either end. */
  function Trim(s: string): (r: string)
    ensures TrimOffset(s) + |r| <= |s| && r == s[TrimOffset(s)..TrimOffset(s) + |r|]
  {
    TrimEnd(TrimStart(s))
  }

  /** `TrimStart` drops white space only, and all of it. */
  lemma {:induction false} TrimStartFacts(s: string)
    ensures forall i :: 0 <= i < |s| - |TrimStart(s)| ==> IsWhitespace(s[i])
    ensures TrimStart(s) == [] || !IsWhitespace(TrimStart(s)[0])
    decreases |s|
  {
    if s != [] && IsWhitespace(s[0]) {
      var t := s[1..];
      TrimStartFacts(t);
      var r := TrimStart(t);
      assert TrimStart(s) == r;
      forall i | 1 <= i < |s| - |r| ensures IsWhitespace(s[i]) {
        assert s[i] == t[i - 1];
      }
    }
  }

  /** `TrimEnd` drops white space only, and all of it. */
  lemma {:induction false} TrimEndFacts(s: string)
    ensures forall i :: |TrimEnd(s)| <= i < |s| ==> IsWhitespace(s[i])
    ensures TrimEnd(s) == [] || !IsWhitespace(TrimEnd(s)[|TrimEnd(s)| - 1])
    decreases |s|
  {
    if s != [] && IsWhitespace(s[|s| - 1]) {
      TrimEndFacts(s[..|s| - 1]);
      var r := TrimEnd(s);
      forall i | |r| <= i < |s| ensures IsWhitespace(s[i]) {
        if i < |s| - 1 {
          assert s[i] == s[..|s| - 1][i];
        }
      }
    }
  }

  /** The trimmed text has no white space at either end. */
  lemma TrimEnds(s: string)
    ensures var r := Trim(s);
            r == [] || (!IsWhitespace(r[0]) && !IsWhitespace(r[|r| - 1]))
  {
    var t := TrimStart(s);
    TrimStartFacts(s);
    TrimEndFacts(t);
    var r := Trim(s);
    if r != [] {
      assert r[0] == t[0];
    }
  }

  /** Every character of a trimmed text was a character of its input. */
  lemma TrimAt(s: string, i: int)
    requires 0 <= i < |Trim(s)|
    ensures Trim(s)[i] == s[TrimOffset(s) + i]
  {
  }

  /** Trimming leaves a text that starts and ends with non-white space unchanged. */
  lemma TrimUnchanged(s: string)
    requires s != [] && !IsWhitespace(s[0]) && !IsWhitespace(s[|s| - 1])
    ensures Trim(s) == s
  {
    assert TrimStart(s) == s;
  }

  /** `s.replace(/\s+/g, ' ')`: every run of white space becomes one space. */
  function CollapseWhitespace(s: string): (r: string)
    ensures |r| <= |s|
    ensures forall i :: 0 <= i < |r| ==> r[i] == ' ' || !IsWhitespace(r[i])
    ensures (s == []) == (r == [])
    decreases |s|
  {
    if s == [] then []
    else if IsWhitespace(s[0]) then " " + CollapseWhitespace(TrimStart(s))
    else [s[0]] + CollapseWhitespace(s[1..])
  }

  // ---------------------------------------------------------------- split / join

  /** `parts.join(sep)`. */
  function Join(parts: seq<string>, sep: string): string {
    if parts == [] then ""
    else if |parts| == 1 then parts[0]
    else parts[0] + sep + Join(parts[1..], sep)
  }

  /** Putting a character in front of the first part puts it in front of the joined text. */
  lemma JoinHead(x: char, parts: seq<string>, sep: string)
    requires |parts| >= 1
    ensures Join([[x] + parts[0]] + parts[1..], sep) == [x] + Join(parts, sep)
  {
    var q := [[x] + parts[0]] + parts[1..];
    assert q[1..] == parts[1..];
  }

  /** `s.split(c)` for a one-character separator: the pieces between the `c`s (see `SplitFacts`). */
  function Split(s: string, c: char): (parts: seq<string>)
    ensures |parts| >= 1
    decreases |s|
  {
    if s == [] then [""]
    else
      var rest := Split(s[1..], c);
      if s[0] == c then [""] + rest else [[s[0]] + rest[0]] + rest[1..]
  }

  /** The pieces hold no separator, there are two or more exactly when `s` holds one, and joining them gives `s` back. */
  lemma SplitFacts(s: string, c: char)
    ensures c in s <==> |Split(s, c)| >= 2
    ensures forall i :: 0 <= i < |Split(s, c)| ==> c !in Split(s, c)[i]
    ensures Join(Split(s, c), [c]) == s
  {
    SplitCount(s, c);
    SplitPieces(s, c);
    SplitJoin(s, c);
  }

  lemma {:induction false} SplitCount(s: string, c: char)
    ensures c in s <==> |Split(s, c)| >= 2
    decreases |s|
  {
    if s != [] {
      var t := s[1..];
      SplitCount(t, c);
      assert s == [s[0]] + t;
      assert c in s <==> s[0] == c || c in t;
    }
  }

  lemma {:induction false} SplitPieces(s: string, c: char)
    ensures forall i :: 0 <= i < |Split(s, c)| ==> c !in Split(s, c)[i]
    decreases |s|
  {
    if s != [] {
      var t := s[1..];
      var rest := Split(t, c);
      SplitPieces(t, c);
      var parts := Split(s, c);
      if s[0] == c {
        forall k | 1 <= k < |parts| ensures c !in parts[k] {
          assert parts[k] == rest[k - 1];
        }
      } else {
        forall k | 1 <= k < |parts| ensures c !in parts[k] {
          assert parts[k] == rest[k];
        }
      }
    }
  }

  lemma {:induction false} SplitJoin(s: string, c: char)
    ensures Join(Split(s, c), [c]) == s
    decreases |s|
  {
    if s != [] {
      var t := s[1..];
      var rest := Split(t, c);
      SplitJoin(t, c);
      assert s == [s[0]] + t;
      if s[0] == c {
        assert Split(s, c)[1..] == rest;
      } else {
        JoinHead(s[0], rest, [c]);
      }
    }
  }

  /** Splitting at the first separator: the text before it is the first piece. */
  lemma {:induction false} SplitCons(h: string, t: string, c: char)
    requires c !in h
    ensures Split(h + [c] + t, c) == [h] + Split(t, c)
    decreases |h|
  {
    var s := h + [c] + t;
    if h == [] {
      assert s[1..] == t;
    } else {
      assert s[1..] == h[1..] + [c] + t;
      SplitCons(h[1..], t, c);
      assert [h[0]] + h[1..] == h;
    }
  }

  /** The first piece is the text before the first separator. */
  lemma SplitHead(s: string, k: nat, c: char)
    requires k < |s| && s[k] == c && c !in s[..k]
    ensures Split(s, c)[0] == s[..k]
  {
    assert s == s[..k] + [c] + s[k + 1..];
    SplitCons(s[..k], s[k + 1..], c);
  }

  /** `parts.map(p => p.trim())`. */
  function TrimAll(parts: seq<string>): (r: seq<string>)
    ensures |r| == |parts|
  {
    if parts == [] then [] else [Trim(parts[0])] + TrimAll(parts[1..])
  }

  /** Piece `i` of the result is piece `i` of the input, trimmed. */
  lemma {:induction false} TrimAllAt(parts: seq<string>, i: nat)
    requires i < |parts|
    ensures TrimAll(parts)[i] == Trim(parts[i])
    decreases i
  {
    var tail := TrimAll(parts[1..]);
    assert TrimAll(parts) == [Trim(parts[0])] + tail;
    if i > 0 {
      TrimAllAt(parts[1..], i - 1);
      assert parts[1..][i - 1] == parts[i];
    }
  }

  /** `parts.filter(Boolean)` on strings: the non-empty parts, in order (see `NonEmptyPartsFacts`). */
  function NonEmptyParts(parts: seq<string>): (r: seq<string>)
    ensures |r| <= |parts|
  {
    if parts == [] then []
    else if parts[0] == [] then NonEmptyParts(parts[1..])
    else [parts[0]] + NonEmptyParts(parts[1..])
  }

  /** Every kept part is non-empty and one of the input's parts. */
  lemma {:induction false} NonEmptyPartsFacts(parts: seq<string>)
    ensures forall i :: 0 <= i < |NonEmptyParts(parts)| ==> NonEmptyParts(parts)[i] != [] && NonEmptyParts(parts)[i] in parts
  {
    if parts != [] {
      NonEmptyPartsFacts(parts[1..]);
      var r := NonEmptyParts(parts);
      var r' := NonEmptyParts(parts[1..]);
      forall i | 0 <= i < |r| ensures r[i] != [] && r[i] in parts {
        if parts[0] == [] {
          assert r[i] == r'[i] && r'[i] in parts[1..];
        } else if i > 0 {
          assert r[i] == r'[i - 1] && r'[i - 1] in parts[1..];
        }
      }
    }
  }

  // ---------------------------------------------------------------- decimal numbers

  predicate IsDigit(c: char) {
    '0' <= c <= '9'
  }

  predicate AllDigits(s: string) {
    forall i :: 0 <= i < |s| ==> IsDigit(s[i])
  }

  /** A character `String(n)` can produce for an integer `n`. */
  predicate IsDecimalChar(c: char) {
    IsDigit(c) || c == '-'
  }

  function DigitChar(d: nat): (c: char)
    requires d < 10
    ensures IsDigit(c) && c as int - '0' as int == d
  {
    ('0' as int + d) as char
  }

  function DigitValue(c: char): nat
    requires IsDigit(c)
  {
    c as int - '0' as int
  }

  /** `String(n)` for `n >= 0`. */
  function NatToDecimal(n: nat): (r: string)
    ensures |r| >= 1 && AllDigits(r)
  {
    if n < 10 then [DigitChar(n)] else NatToDecimal(n / 10) + [DigitChar(n % 10)]
  }

  /** `String(n)` for an integer `n`. */
  function IntToDecimal(n: int): (r: string)
    ensures r != [] && (IsDigit(r[0]) || r[0] == '-')
    ensures forall i :: 0 <= i < |r| ==> IsDecimalChar(r[i])
  {
    if n < 0 then "-" + NatToDecimal(-n) else NatToDecimal(n)
  }

  /** The value of a run of decimal digits. */
  function DigitsValue(s: string): nat
    requires AllDigits(s)
  {
    if s == [] then 0 else 10 * DigitsValue(s[..|s| - 1]) + DigitValue(s[|s| - 1])
  }

  /** Optionally signed decimal integer text; None for anything else. */
  function ParseDecimal(s: string): Option<int> {
    if |s| >= 2 && (s[0] == '-' || s[0] == '+') && AllDigits(s[1..]) then
      var v: int := DigitsValue(s[1..]);
      Some(if s[0] == '-' then -v else v)
    else if |s| >= 1 && AllDigits(s) then
      Some(DigitsValue(s))
    else
      None
  }

  /**
   * `Number(s)` where the result is an integer: blank text is 0, signed
   * decimal digits (with surrounding white space) are their value, and every
   * other text counts as non-finite (None).
   */
  function JsNumber(s: string): Option<int> {
    var t := Trim(s);
    if t == [] then Some(0) else ParseDecimal(t)
  }

  lemma {:induction false} DigitsValueOfDecimal(n: nat)
    ensures DigitsValue(NatToDecimal(n)) == n
  {
    if n >= 10 {
      var r := NatToDecimal(n);
      assert r[..|r| - 1] == NatToDecimal(n / 10);
      DigitsValueOfDecimal(n / 10);
    }
  }

  /** `Number(String(n)) === n` for every integer `n`. */
  lemma NumberOfDecimal(n: int)
    ensures JsNumber(IntToDecimal(n)) == Some(n)
  {
    var r := IntToDecimal(n);
    assert IsDecimalChar(r[|r| - 1]);
    TrimUnchanged(r);
    if n < 0 {
      DigitsValueOfDecimal(-n);
      ParseNegative(NatToDecimal(-n));
    } else {
      DigitsValueOfDecimal(n);
      ParseDigits(NatToDecimal(n));
    }
  }

  lemma ParseDigits(s: string)
    requires |s| >= 1 && AllDigits(s)
    ensures ParseDecimal(s) == Some(DigitsValue(s))
  {
    assert IsDigit(s[0]);
  }

  lemma ParseNegative(s: string)
    requires |s| >= 1 && AllDigits(s)
    ensures ParseDecimal("-" + s) == Some(-(DigitsValue(s) as int))
  {
    assert ("-" + s)[1..] == s;
  }

  /** Distinct integers print differently. */
  lemma DecimalInjective(a: int, b: int)
    requires IntToDecimal(a) == IntToDecimal(b)
    ensures a == b
  {
    NumberOfDecimal(a);
    NumberOfDecimal(b);
  }

  // ---------------------------------------------------------------- locale grouping

  predicate IsGroupedChar(c: char) {
    IsDigit(c) || c == ','
  }

  /** Three digits with leading zeros. */
  function Pad3(k: nat): (r: string)
    requires k < 1000
    ensures |r| == 3 && AllDigits(r)
  {
    [DigitChar(k / 100), DigitChar(k / 10 % 10), DigitChar(k % 10)]
  }

  /** `n.toLocaleString()` for `n >= 0`: digits grouped in threes by commas. */
  function GroupedNat(n: nat): (r: string)
    ensures |r| >= 1 && IsDigit(r[0])
    ensures forall i :: 0 <= i < |r| ==> IsGroupedChar(r[i])
  {
    if n < 1000 then NatToDecimal(n) else GroupedNat(n / 1000) + "," + Pad3(n % 1000)
  }

  /** `n.toLocaleString()` for an integer, in a locale that groups by commas (ja-JP, en-US). */
  function Grouped(n: int): string {
    if n < 0 then "-" + GroupedNat(-n) else GroupedNat(n)
  }

  // ---------------------------------------------------------------- case

  function UpperChar(c: char): char {
    if 'a' <= c <= 'z' then (c as int - 32) as char else c
  }

  /** `s.toUpperCase()` on the ASCII letters. */
  function ToUpper(s: string): (r: string)
    ensures |r| == |s|
    ensures forall i :: 0 <= i < |s| ==> r[i] == UpperChar(s[i])
  {
    if s == [] then [] else [UpperChar(s[0])] + ToUpper(s[1..])
  }

  // ---------------------------------------------------------------- newline runs

  predicate NoTripleNewline(s: string) {
    forall i :: 0 <= i < |s| - 2 ==> !(s[i] == '\n' && s[i + 1] == '\n' && s[i + 2] == '\n')
  }

  /** How many newlines `s` starts with. */
  function LeadingNewlines(s: string): (k: nat)
    ensures k <= |s|
    ensures forall i :: 0 <= i < k ==> s[i] == '\n'
    ensures k == |s| || s[k] != '\n'
  {
    if s != [] && s[0] == '\n' then 1 + LeadingNewlines(s[1..]) else 0
  }

  /** `s` without its newline characters. */
  function WithoutNewlines(s: string): string {
    if s == [] then [] else (if s[0] == '\n' then [] else [s[0]]) + WithoutNewlines(s[1..])
  }

  /** `s.replace(/\n{3,}/g, '\n\n')`: each run of three or more newlines becomes two. */
  function CollapseBlankRuns(s: string): (r: string)
    ensures NoTripleNewline(r)
    ensures (r == []) == (s == [])
    ensures s != [] && s[0] != '\n' ==> r[0] == s[0]
    decreases |s|
  {
    if s == [] then []
    else if s[0] != '\n' then [s[0]] + CollapseBlankRuns(s[1..])
    else
      var k := LeadingNewlines(s);
      var rest := CollapseBlankRuns(s[k..]);
      (if k >= 3 then "\n\n" else s[..k]) + rest
  }

  lemma WithoutNewlinesAppend(a: string, b: string)
    ensures WithoutNewlines(a + b) == WithoutNewlines(a) + WithoutNewlines(b)
  {
    if a == [] {
      assert a + b == b;
    } else {
      assert (a + b)[0] == a[0] && (a + b)[1..] == a[1..] + b;
      WithoutNewlinesAppend(a[1..], b);
    }
  }

  lemma WithoutNewlinesOfRun(s: string)
    requires forall i :: 0 <= i < |s| ==> s[i] == '\n'
    ensures WithoutNewlines(s) == []
  {
    if s != [] {
      WithoutNewlinesOfRun(s[1..]);
    }
  }

  /** Collapsing newline runs deletes newlines and nothing else. */
  lemma {:induction false} CollapseKeepsText(s: string)
    ensures WithoutNewlines(CollapseBlankRuns(s)) == WithoutNewlines(s)
    decreases |s|
  {
    if s == [] {
    } else if s[0] != '\n' {
      CollapseKeepsText(s[1..]);
      WithoutNewlinesAppend([s[0]], CollapseBlankRuns(s[1..]));
    } else {
      var k := LeadingNewlines(s);
      var run := if k >= 3 then "\n\n" else s[..k];
      CollapseKeepsText(s[k..]);
      WithoutNewlinesAppend(run, CollapseBlankRuns(s[k..]));
      WithoutNewlinesOfRun(run);
      assert s == s[..k] + s[k..];
      WithoutNewlinesAppend(s[..k], s[k..]);
      WithoutNewlinesOfRun(s[..k]);
    }
  }

  /** Text holding no newline passes through the collapse unchanged, whatever follows it. */
  lemma {:induction false} CollapseAfterLine(a: string, b: string)
    requires '\n' !in a
    ensures CollapseBlankRuns(a + b) == a + CollapseBlankRuns(b)
    decreases |a|
  {
    if a == [] {
      assert a + b == b;
    } else {
      assert (a + b)[0] == a[0] && (a + b)[1..] == a[1..] + b;
      assert '\n' !in a[1..] by {
        forall k | 0 <= k < |a[1..]| ensures a[1..][k] != '\n' {
          assert a[1..][k] == a[k + 1];
        }
      }
      CollapseAfterLine(a[1..], b);
    }
  }

  /** One or two newlines before text that does not start with one are kept as they are. */
  lemma ShortRunKept(run: string, b: string)
    requires run == "\n" || run == "\n\n"
    requires b == [] || b[0] != '\n'
    ensures CollapseBlankRuns(run + b) == run + CollapseBlankRuns(b)
  {
    var s := run + b;
    assert s[1..] == run[1..] + b;
    if run == "\n\n" {
      assert s[1..][1..] == b;
      assert LeadingNewlines(s[1..]) == 1;
    }
    assert LeadingNewlines(s) == |run|;
    assert s[..|run|] == run && s[|run|..] == b;
  }

  /** The joined text starts with the first part's first character. */
  lemma JoinFirst(parts: seq<string>, sep: string)
    requires parts != [] && parts[0] != []
    ensures Join(parts, sep) != [] && Join(parts, sep)[0] == parts[0][0]
  {
  }

  /** A window of text without three newlines in a row has none either. */
  lemma NoTripleNewlineWindow(s: string, lo: nat, hi: nat)
    requires lo <= hi <= |s| && NoTripleNewline(s)
    ensures NoTripleNewline(s[lo..hi])
  {
    var w := s[lo..hi];
    forall i | 0 <= i < |w| - 2 ensures !(w[i] == '\n' && w[i + 1] == '\n' && w[i + 2] == '\n') {
      assert w[i] == s[lo + i] && w[i + 1] == s[lo + i + 1] && w[i + 2] == s[lo + i + 2];
    }
  }
}
