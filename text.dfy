/**
 * String primitives of the JavaScript runtime that the logic filter and the
 * assistant rely on: the `\s` and `\w` character classes, ASCII case mapping,
 * `includes`, `startsWith`/`endsWith`, `join(' ')`, `split(/\s+/)` with empty
 * pieces dropped, and `replace(/\s+/g, ' ').trim()`.
 */
module Text {

  /** JavaScript's `\s`: the ECMAScript WhiteSpace and LineTerminator characters. */
  predicate IsSpace(c: char) {
    c == ' ' || c == '\t' || c == '\n' || c == '\U{000B}' || c == '\U{000C}' || c == '\r' ||
    c == '\U{00A0}' || c == '\U{1680}' || ('\U{2000}' <= c <= '\U{200A}') ||
    c == '\U{2028}' || c == '\U{2029}' || c == '\U{202F}' || c == '\U{205F}' ||
    c == '\U{3000}' || c == '\U{FEFF}'
  }

  /** The characters that `.` in a JavaScript regular expression does not match. */
  predicate IsLineTerminator(c: char) {
    c == '\n' || c == '\r' || c == '\U{2028}' || c == '\U{2029}'
  }

  predicate IsDigit(c: char) { '0' <= c <= '9' }

  predicate IsUpper(c: char) { 'A' <= c <= 'Z' }

  predicate IsLower(c: char) { 'a' <= c <= 'z' }

  /** JavaScript's `\w`: ASCII letters, digits and underscore. */
  predicate IsWordChar(c: char) { IsLower(c) || IsUpper(c) || IsDigit(c) || c == '_' }

  function LowerChar(c: char): (r: char)
    ensures !IsUpper(r)
    ensures !IsUpper(c) ==> r == c
  {
    if IsUpper(c) then (c as int + 32) as char else c
  }

  function UpperChar(c: char): (r: char)
    ensures !IsLower(r)
    ensures !IsLower(c) ==> r == c
  {
    if IsLower(c) then (c as int - 32) as char else c
  }

  /** `toLowerCase()` restricted to ASCII letters. */
  function ToLower(s: string): (r: string)
    ensures |r| == |s|
    ensures forall i :: 0 <= i < |s| ==> r[i] == LowerChar(s[i])
    ensures NoUpper(s) ==> r == s
  {
    seq(|s|, i requires 0 <= i < |s| => LowerChar(s[i]))
  }

  predicate NoUpper(s: string) { forall i :: 0 <= i < |s| ==> !IsUpper(s[i]) }

  predicate NoSpace(s: string) { forall i :: 0 <= i < |s| ==> !IsSpace(s[i]) }

  predicate StartsWith(s: string, p: string) { p <= s }

  predicate EndsWith(s: string, p: string) { |p| <= |s| && s[|s| - |p|..] == p }

  /** `s` is non-empty and its last character is `c`. */
  predicate EndsIn(s: string, c: char) { s != [] && s[|s| - 1] == c }

  /** `s.includes(p)`. */
  predicate Contains(s: string, p: string)
    decreases |s|
  {
    StartsWith(s, p) || (|s| > 0 && Contains(s[1..], p))
  }

  /** A pattern holding a character the text lacks does not occur in it. */
  lemma {:induction false} NotContains(s: string, p: string, i: nat)
    requires i < |p| && p[i] !in s
    ensures !Contains(s, p)
    decreases |s|
  {
    if |p| <= |s| {
      assert s[i] in s;
    }
    if s != [] {
      assert forall c :: c in s[1..] ==> c in s;
      NotContains(s[1..], p, i);
    }
  }

  lemma {:induction false} ContainsAt(s: string, p: string, i: nat)
    requires i + |p| <= |s| && s[i..i + |p|] == p
    ensures Contains(s, p)
  {
    if i > 0 {
      ContainsAt(s[1..], p, i - 1);
    } else {
      assert s[..|p|] == p;
    }
  }

  lemma {:induction false} ContainsWitness(s: string, p: string) returns (i: nat)
    requires Contains(s, p)
    ensures i + |p| <= |s| && s[i..i + |p|] == p
  {
    if StartsWith(s, p) {
      i := 0;
    } else {
      var j := ContainsWitness(s[1..], p);
      i := j + 1;
      assert s[i..i + |p|] == s[1..][j..j + |p|];
    }
  }

  /** A substring of a longer string is found in it as well. */
  lemma ContainsInSuffix(s: string, p: string, k: nat)
    requires k <= |s| && Contains(s[k..], p)
    ensures Contains(s, p)
  {
    var j := ContainsWitness(s[k..], p);
    assert s[k + j..k + j + |p|] == s[k..][j..j + |p|];
    ContainsAt(s, p, k + j);
  }

  lemma ContainsInPrefix(s: string, p: string, k: nat)
    requires k <= |s| && Contains(s[..k], p)
    ensures Contains(s, p)
  {
    var j := ContainsWitness(s[..k], p);
    assert s[j..j + |p|] == s[..k][j..j + |p|];
    ContainsAt(s, p, j);
  }

  /** A string found inside a found string is found too. */
  lemma ContainsTransitive(s: string, a: string, b: string)
    requires Contains(s, a) && Contains(a, b)
    ensures Contains(s, b)
  {
    var i := ContainsWitness(s, a);
    var j := ContainsWitness(a, b);
    forall k | 0 <= k < |b| ensures s[i + j + k] == b[k] {
      assert b[k] == a[j..j + |b|][k] == a[j + k];
      assert a[j + k] == s[i..i + |a|][j + k];
    }
    assert s[i + j..i + j + |b|] == b;
    ContainsAt(s, b, i + j);
  }

  /** Every character of a needle that is found occurs in the text. */
  lemma ContainsChars(s: string, p: string)
    requires Contains(s, p)
    ensures forall c :: c in p ==> c in s
  {
    var i := ContainsWitness(s, p);
    forall c | c in p ensures c in s {
      var k :| 0 <= k < |p| && p[k] == c;
      assert s[i + k] == s[i..i + |p|][k];
    }
  }

  /** A needle holding a character the text lacks is not found in it. */
  lemma MissingCharNotContained(s: string, p: string, c: char)
    ensures c in p && c !in s ==> !Contains(s, p)
  {
    if Contains(s, p) {
      ContainsChars(s, p);
    }
  }

  /** `tokens.join(' ')`. */
  function Join(ts: seq<string>): string
    decreases |ts|
  {
    if |ts| == 0 then ""
    else if |ts| == 1 then ts[0]
    else ts[0] + " " + Join(ts[1..])
  }

  /** Leading whitespace removed (`trimStart`). */
  function DropSpaces(s: string): (r: string)
    ensures |r| <= |s| && r == s[|s| - |r|..]
    ensures r == [] || !IsSpace(r[0])
    ensures s != [] && IsSpace(s[0]) ==> |r| < |s|
    decreases |s|
  {
    if s != [] && IsSpace(s[0]) then DropSpaces(s[1..]) else s
  }

  /** Trailing whitespace removed (`trimEnd`). */
  function DropTrailingSpaces(s: string): (r: string)
    ensures r <= s
    ensures r == [] || !IsSpace(r[|r| - 1])
    decreases |s|
  {
    if s != [] && IsSpace(s[|s| - 1]) then DropTrailingSpaces(s[..|s| - 1]) else s
  }

  /** `trim()`. */
  function Trim(s: string): string {
    DropTrailingSpaces(DropSpaces(s))
  }

  /** Trimming a string that neither starts nor ends with whitespace changes nothing. */
  lemma TrimUnchanged(s: string)
    requires s == [] || (!IsSpace(s[0]) && !IsSpace(s[|s| - 1]))
    ensures Trim(s) == s
  {
    assert DropSpaces(s) == s;
  }

  /** Trailing whitespace is dropped only after the last non-space character. */
  lemma {:induction false} DropTrailingSpacesKeeps(s: string, k: nat)
    requires k < |s| && !IsSpace(s[k])
    ensures k < |DropTrailingSpaces(s)|
    decreases |s|
  {
    if IsSpace(s[|s| - 1]) {
      DropTrailingSpacesKeeps(s[..|s| - 1], k);
    }
  }

  /** The longest prefix of `s` without whitespace. */
  function WordPrefix(s: string): (w: string)
    ensures w <= s && NoSpace(w)
    ensures |w| < |s| ==> IsSpace(s[|w|])
    decreases |s|
  {
    if s == [] || IsSpace(s[0]) then [] else [s[0]] + WordPrefix(s[1..])
  }

  /** `s.split(/\s+/).filter(t => t.length > 0)`: the maximal whitespace-free runs of `s`, in order. */
  function Words(s: string): (ws: seq<string>)
    ensures forall k :: 0 <= k < |ws| ==> ws[k] != [] && NoSpace(ws[k])
    decreases |s|
  {
    var t := DropSpaces(s);
    if t == [] then []
    else
      var w := WordPrefix(t);
      var ws := Words(t[|w|..]);
      assert w[0] == t[0];
      WordsCons(w, ws);
      [w] + ws
  }

  lemma WordsCons(w: string, ws: seq<string>)
    requires w != [] && NoSpace(w)
    requires forall k :: 0 <= k < |ws| ==> ws[k] != [] && NoSpace(ws[k])
    ensures forall k :: 0 <= k < |[w] + ws| ==> ([w] + ws)[k] != [] && NoSpace(([w] + ws)[k])
  {
    forall k | 0 <= k < |[w] + ws| ensures ([w] + ws)[k] != [] && NoSpace(([w] + ws)[k]) {
      if k > 0 {
        assert ([w] + ws)[k] == ws[k - 1];
      }
    }
  }

  /** Every maximal whitespace run replaced by one space: `replace(/\s+/g, ' ')`. */
  function Squeeze(s: string): (r: string)
    decreases |s|
  {
    if s == [] then []
    else if IsSpace(s[0]) then " " + Squeeze(DropSpaces(s))
    else [s[0]] + Squeeze(s[1..])
  }

  lemma {:induction false} SqueezeWordPrefix(w: string, x: string)
    requires NoSpace(w)
    ensures Squeeze(w + x) == w + Squeeze(x)
    decreases |w|
  {
    if w == [] {
      assert w + x == x;
    } else {
      assert (w + x)[0] == w[0] && !IsSpace(w[0]);
      assert (w + x)[1..] == w[1..] + x;
      SqueezeWordPrefix(w[1..], x);
      assert w == [w[0]] + w[1..];
    }
  }

  /** `replace(/\s+/g, ' ').trim()`. */
  function Normalize(s: string): string {
    Trim(Squeeze(s))
  }

  /** A word after leading whitespace survives normalisation at the front. */
  lemma NormalizeLeadingWord(w: string, x: string)
    requires w != [] && NoSpace(w)
    ensures w <= Normalize(" " + w + x)
  {
    var s := " " + w + x;
    assert s[1..] == w + x;
    assert DropSpaces(w + x) == w + x;
    assert DropSpaces(s) == w + x;
    SqueezeWordPrefix(w, x);
    var q := Squeeze(s);
    assert q == " " + w + Squeeze(x);
    assert q[1..] == w + Squeeze(x);
    assert DropSpaces(q) == w + Squeeze(x);
    DropTrailingSpacesKeeps(w + Squeeze(x), |w| - 1);
  }

  /** No leading, trailing or repeated whitespace, and every whitespace character is a plain space. */
  predicate Tidy(s: string) {
    forall i :: 0 <= i < |s| && IsSpace(s[i]) ==> s[i] == ' ' && 0 < i < |s| - 1 && !IsSpace(s[i + 1])
  }

  /** What Squeeze guarantees before trimming: single plain spaces only. */
  predicate SingleSpaced(s: string) {
    forall i :: 0 <= i < |s| && IsSpace(s[i]) ==> s[i] == ' ' && (i + 1 < |s| ==> !IsSpace(s[i + 1]))
  }

  lemma SingleSpacedCons(c: char, r: string)
    requires SingleSpaced(r)
    requires IsSpace(c) ==> c == ' ' && (r == [] || !IsSpace(r[0]))
    ensures SingleSpaced([c] + r)
  {
    var s := [c] + r;
    forall i | 0 <= i < |s| && IsSpace(s[i])
      ensures s[i] == ' ' && (i + 1 < |s| ==> !IsSpace(s[i + 1]))
    {
      if i > 0 {
        assert s[i] == r[i - 1];
        if i + 1 < |s| { assert s[i + 1] == r[i]; }
      } else if i + 1 < |s| {
        assert s[1] == r[0];
      }
    }
  }

  lemma {:induction false} SqueezeSingleSpaced(s: string)
    ensures SingleSpaced(Squeeze(s))
    ensures Squeeze(s) != [] ==> (IsSpace(Squeeze(s)[0]) <==> IsSpace(s[0]))
    ensures Squeeze(s) == [] <==> s == []
    decreases |s|
  {
    if s == [] {
    } else if IsSpace(s[0]) {
      var t := DropSpaces(s);
      SqueezeSingleSpaced(t);
      SingleSpacedCons(' ', Squeeze(t));
    } else {
      SqueezeSingleSpaced(s[1..]);
      SingleSpacedCons(s[0], Squeeze(s[1..]));
    }
  }

  lemma TrimTidy(s: string)
    requires SingleSpaced(s)
    ensures Tidy(Trim(s))
  {
    var a := DropSpaces(s);
    var r := DropTrailingSpaces(a);
    assert a == s[|s| - |a|..];
    forall i | 0 <= i < |r| && IsSpace(r[i])
      ensures r[i] == ' ' && 0 < i < |r| - 1 && !IsSpace(r[i + 1])
    {
      assert r[i] == s[|s| - |a| + i];
      if i + 1 < |r| {
        assert r[i + 1] == s[|s| - |a| + i + 1];
      }
    }
  }

  /** Whitespace normalisation leaves no leading, trailing or repeated whitespace. */
  lemma NormalizeTidy(s: string)
    ensures Tidy(Normalize(s))
  {
    SqueezeSingleSpaced(s);
    TrimTidy(Squeeze(s));
  }

  lemma {:induction false} SqueezeFixpoint(s: string)
    requires SingleSpaced(s)
    ensures Squeeze(s) == s
    decreases |s|
  {
    if s != [] {
      SingleSpacedTail(s);
      SqueezeFixpoint(s[1..]);
      SqueezeHead(s);
    }
  }

  /** One step of Squeeze on a single-spaced string: the first character stays. */
  lemma SqueezeHead(s: string)
    requires s != [] && SingleSpaced(s)
    ensures Squeeze(s) == [s[0]] + Squeeze(s[1..])
  {
    if IsSpace(s[0]) {
      var t := s[1..];
      assert t == [] || !IsSpace(t[0]);
      assert DropSpaces(t) == t;
      assert DropSpaces(s) == t;
      assert s[0] == ' ';
    }
  }

  lemma SingleSpacedTail(s: string)
    requires s != [] && SingleSpaced(s)
    ensures SingleSpaced(s[1..])
  {
    forall i | 0 <= i < |s[1..]| && IsSpace(s[1..][i])
      ensures s[1..][i] == ' ' && (i + 1 < |s[1..]| ==> !IsSpace(s[1..][i + 1]))
    {
      assert s[1..][i] == s[i + 1];
      if i + 1 < |s[1..]| { assert s[1..][i + 1] == s[i + 2]; }
    }
  }

  /** An already tidy string is left alone: normalisation is idempotent. */
  lemma TidyFixpoint(s: string)
    requires Tidy(s)
    ensures Normalize(s) == s
  {
    SqueezeFixpoint(s);
  }

  lemma NormalizeIdempotent(s: string)
    ensures Normalize(Normalize(s)) == Normalize(s)
  {
    NormalizeTidy(s);
    TidyFixpoint(Normalize(s));
  }

  lemma {:induction false} WordPrefixOfJoin(w: string, rest: string)
    requires NoSpace(w)
    requires rest == [] || IsSpace(rest[0])
    ensures WordPrefix(w + rest) == w
    decreases |w|
  {
    if w != [] {
      assert (w + rest)[1..] == w[1..] + rest;
      WordPrefixOfJoin(w[1..], rest);
    }
  }

  /**
   * Splitting a space-joined list of non-empty, whitespace-free tokens gives
   * the tokens back: `split(/\s+/)` undoes `join(' ')`.
   */
  lemma {:induction false} WordsOfJoin(ts: seq<string>)
    requires forall k :: 0 <= k < |ts| ==> ts[k] != [] && NoSpace(ts[k])
    ensures Words(Join(ts)) == ts
    decreases |ts|
  {
    if |ts| == 0 {
    } else if |ts| == 1 {
      var w := ts[0];
      assert DropSpaces(w) == w;
      WordPrefixOfJoin(w, []);
      assert w + [] == w;
      assert w[|w|..] == [];
    } else {
      var w, tail := ts[0], Join(ts[1..]);
      assert Join(ts) == w + ([' '] + tail);
      WordPrefixOfJoin(w, [' '] + tail);
      JoinStartsWithWord(ts[1..]);
      WordsOfJoin(ts[1..]);
      WordsAfterSpace(w, tail, ts[1..]);
    }
  }

  lemma NonSpaceStart(s: string)
    requires s != [] && !IsSpace(s[0])
    ensures DropSpaces(s) == s
  {
  }

  lemma WordsSkipSpace(s: string)
    requires s != [] && IsSpace(s[0])
    ensures Words(s) == Words(s[1..])
  {
    assert DropSpaces(s) == DropSpaces(s[1..]);
  }

  lemma WordsAfterSpace(w: string, tail: string, ws: seq<string>)
    requires w != [] && NoSpace(w)
    requires tail != [] && !IsSpace(tail[0])
    requires WordPrefix(w + ([' '] + tail)) == w
    requires Words(tail) == ws
    ensures Words(w + ([' '] + tail)) == [w] + ws
  {
    var rest := [' '] + tail;
    var s := w + rest;
    NonSpaceStart(s);
    assert s[|w|..] == rest;
    assert rest[1..] == tail;
    WordsSkipSpace(rest);
    assert Words(s) == [w] + Words(rest);
  }

  lemma JoinStartsWithWord(ts: seq<string>)
    requires |ts| > 0 && ts[0] != [] && NoSpace(ts[0])
    ensures Join(ts) != [] && !IsSpace(Join(ts)[0])
  {
    if |ts| > 1 {
      assert Join(ts)[0] == ts[0][0];
    }
  }

  /** Every character of `w` occurs in `s`. */
  predicate CharsIn(w: string, s: string) {
    forall i :: 0 <= i < |w| ==> w[i] in s
  }

  lemma CharsInSuffix(w: string, s: string, k: nat)
    requires k <= |s| && CharsIn(w, s[k..])
    ensures CharsIn(w, s)
  {
    forall i | 0 <= i < |w| ensures w[i] in s {
      var j :| 0 <= j < |s[k..]| && s[k..][j] == w[i];
      assert s[k + j] == w[i];
    }
  }

  /** The words of a string are made of its own characters. */
  lemma {:induction false} WordsCharsIn(s: string)
    ensures forall k :: 0 <= k < |Words(s)| ==> CharsIn(Words(s)[k], s)
    decreases |s|
  {
    if DropSpaces(s) != [] {
      var i, j := WordsStep(s);
      WordsCharsIn(s[j..]);
      SliceCharsIn(s, i, j);
      WordsCharsInCons(s[i..j], Words(s[j..]), s, j);
    }
  }

  /** One step of `Words`: the first word is `s[i..j]`, the rest are the words of `s[j..]`. */
  lemma WordsStep(s: string) returns (i: nat, j: nat)
    requires DropSpaces(s) != []
    ensures i < j <= |s| && Words(s) == [s[i..j]] + Words(s[j..])
  {
    var t := DropSpaces(s);
    var w := WordPrefix(t);
    i, j := |s| - |t|, |s| - |t| + |w|;
    assert w == s[i..j];
    assert t[|w|..] == s[j..];
  }

  lemma SliceCharsIn(s: string, i: nat, j: nat)
    requires i <= j <= |s|
    ensures CharsIn(s[i..j], s)
  {
    forall n | 0 <= n < j - i ensures s[i..j][n] in s {
      assert s[i..j][n] == s[i + n];
    }
  }

  lemma WordsCharsInCons(w: string, ws: seq<string>, s: string, k: nat)
    requires k <= |s| && CharsIn(w, s)
    requires forall n :: 0 <= n < |ws| ==> CharsIn(ws[n], s[k..])
    ensures forall n :: 0 <= n < |[w] + ws| ==> CharsIn(([w] + ws)[n], s)
  {
    forall n | 0 <= n < |[w] + ws| ensures CharsIn(([w] + ws)[n], s) {
      if n > 0 {
        assert ([w] + ws)[n] == ws[n - 1];
        CharsInSuffix(ws[n - 1], s, k);
      }
    }
  }

  lemma {:induction false} SqueezeChars(s: string)
    ensures forall i :: 0 <= i < |Squeeze(s)| ==> Squeeze(s)[i] == ' ' || Squeeze(s)[i] in s
    decreases |s|
  {
    if s == [] {
    } else if IsSpace(s[0]) {
      var t := DropSpaces(s);
      SqueezeChars(t);
      forall i | 0 < i < |Squeeze(s)| ensures Squeeze(s)[i] == ' ' || Squeeze(s)[i] in s {
        var c := Squeeze(t)[i - 1];
        assert Squeeze(s)[i] == c;
        if c != ' ' {
          var j :| 0 <= j < |t| && t[j] == c;
          assert s[|s| - |t| + j] == c;
        }
      }
    } else {
      SqueezeChars(s[1..]);
      forall i | 0 < i < |Squeeze(s)| ensures Squeeze(s)[i] == ' ' || Squeeze(s)[i] in s {
        assert Squeeze(s)[i] == Squeeze(s[1..])[i - 1];
      }
    }
  }

  /** Normalisation adds no character other than the plain space. */
  lemma NormalizeChars(s: string)
    ensures forall i :: 0 <= i < |Normalize(s)| ==> Normalize(s)[i] == ' ' || Normalize(s)[i] in s
  {
    SqueezeChars(s);
    var q := Squeeze(s);
    var a := DropSpaces(q);
    var r := DropTrailingSpaces(a);
    forall i | 0 <= i < |r| ensures r[i] == ' ' || r[i] in s {
      assert r[i] == a[i] == q[|q| - |a| + i];
    }
  }

  lemma {:induction false} DropSpacesKeepsLast(s: string)
    requires s != [] && !IsSpace(s[|s| - 1])
    ensures DropSpaces(s) != [] && DropSpaces(s)[|DropSpaces(s)| - 1] == s[|s| - 1]
    decreases |s|
  {
    if IsSpace(s[0]) {
      DropSpacesKeepsLast(s[1..]);
    }
  }

  lemma {:induction false} SqueezeKeepsLast(s: string)
    requires s != [] && !IsSpace(s[|s| - 1])
    ensures Squeeze(s) != [] && Squeeze(s)[|Squeeze(s)| - 1] == s[|s| - 1]
    decreases |s|
  {
    if IsSpace(s[0]) {
      DropSpacesKeepsLast(s);
      SqueezeKeepsLast(DropSpaces(s));
    } else if |s| > 1 {
      SqueezeKeepsLast(s[1..]);
    }
  }

  /** A final non-whitespace character survives normalisation. */
  lemma NormalizeKeepsLast(s: string)
    requires s != [] && !IsSpace(s[|s| - 1])
    ensures Normalize(s) != [] && Normalize(s)[|Normalize(s)| - 1] == s[|s| - 1]
  {
    SqueezeKeepsLast(s);
    var q := Squeeze(s);
    DropSpacesKeepsLast(q);
    var a := DropSpaces(q);
    assert !IsSpace(a[|a| - 1]);
    assert Normalize(s) == DropTrailingSpaces(a) == a;
  }

  // ---------------------------------------------------------------------
  // Decimal numerals
  // ---------------------------------------------------------------------

  predicate AllDigits(s: string) { forall i :: 0 <= i < |s| ==> IsDigit(s[i]) }

  function DigitChar(d: nat): (c: char)
    requires d < 10
    ensures IsDigit(c)
  {
    '0' + d as char
  }

  function DigitValue(c: char): (d: nat)
    requires IsDigit(c)
    ensures d < 10
  {
    (c - '0') as nat
  }

  /** The value of a string of decimal digits, as `parseInt(s, 10)` reads it. */
  function DecimalValue(s: string): nat
    requires AllDigits(s)
    decreases |s|
  {
    if s == [] then 0 else DecimalValue(s[..|s| - 1]) * 10 + DigitValue(s[|s| - 1])
  }

  /** The decimal numeral of `n`, as a template literal prints it. */
  function DecimalString(n: nat): (s: string)
    ensures s != [] && AllDigits(s)
    decreases n
  {
    if n < 10 then [DigitChar(n)] else DecimalString(n / 10) + [DigitChar(n % 10)]
  }

  /** `String(n)` for any integer: a minus sign before negative numbers. */
  function IntString(n: int): string {
    if n < 0 then "-" + DecimalString(-n) else DecimalString(n)
  }

  /** Reading back a printed number gives the number. */
  lemma {:induction false} DecimalRoundTrip(n: nat)
    ensures DecimalValue(DecimalString(n)) == n
    decreases n
  {
    if n >= 10 {
      DecimalRoundTrip(n / 10);
      var s := DecimalString(n);
      assert s[..|s| - 1] == DecimalString(n / 10);
    }
  }

  /** A printed number has no leading zero unless it is zero. */
  lemma {:induction false} DecimalNoLeadingZero(n: nat)
    ensures DecimalString(n)[0] == '0' <==> n == 0
    decreases n
  {
    if n >= 10 {
      DecimalNoLeadingZero(n / 10);
    }
  }
}
