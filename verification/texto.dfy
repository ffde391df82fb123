/** The parts of Python's `str` behaviour the models rely on: whitespace,
    `strip`/`lstrip`/`rstrip`, ASCII case mapping, `isdigit`, `split()` and
    `' '.join`, and prefix slicing `s[:k]`. */
module Texto {

  /** Python's `str.isspace()` for one character: the Unicode whitespace set. */
  predicate IsSpace(c: char) {
    || c == ' '
    || '\t' <= c <= '\r'
    || '\U{1C}' <= c <= '\U{1F}'
    || c == '\U{85}' || c == '\U{A0}' || c == '\U{1680}'
    || '\U{2000}' <= c <= '\U{200A}'
    || c == '\U{2028}' || c == '\U{2029}' || c == '\U{202F}' || c == '\U{205F}' || c == '\U{3000}'
  }

  /** No character of `s` is whitespace. */
  predicate NoSpace(s: string) {
    forall i :: 0 <= i < |s| ==> !IsSpace(s[i])
  }

  /** Every character of `s` is whitespace (true of ""). */
  predicate AllSpace(s: string) {
    forall i :: 0 <= i < |s| ==> IsSpace(s[i])
  }

  /** How many whitespace characters `s` starts with. */
  function LeadingSpaces(s: string): (n: nat)
    ensures n <= |s|
    ensures forall k :: 0 <= k < n ==> IsSpace(s[k])
    ensures n == |s| || !IsSpace(s[n])
  {
    if s != [] && IsSpace(s[0]) then 1 + LeadingSpaces(s[1..]) else 0
  }

  /** How many whitespace characters `s` ends with. */
  function TrailingSpaces(s: string): (n: nat)
    ensures n <= |s|
    ensures forall k :: |s| - n <= k < |s| ==> IsSpace(s[k])
    ensures n == |s| || !IsSpace(s[|s| - n - 1])
  {
    if s != [] && IsSpace(s[|s| - 1]) then 1 + TrailingSpaces(s[..|s| - 1]) else 0
  }

  /** `s.lstrip()`: the suffix left after dropping the leading whitespace. */
  function LStrip(s: string): string {
    s[LeadingSpaces(s)..]
  }

  /** `s.rstrip()`: the prefix left after dropping the trailing whitespace. */
  function RStrip(s: string): string {
    s[..|s| - TrailingSpaces(s)]
  }

  /** `s.strip()`. */
  function Strip(s: string): string {
    RStrip(LStrip(s))
  }

  /** Stripping keeps a contiguous run of `s` whose ends are not whitespace
      and drops only whitespace around it. */
  lemma StripSlice(s: string)
    ensures exists i, j :: 0 <= i <= j <= |s| && Strip(s) == s[i..j]
                           && AllSpace(s[..i]) && AllSpace(s[j..])
    ensures Strip(s) == [] || (!IsSpace(Strip(s)[0]) && !IsSpace(Strip(s)[|Strip(s)| - 1]))
  {
    var i, j := StripBounds(s);
  }

  /** The bounds of the run that `Strip` keeps. */
  lemma StripBounds(s: string) returns (i: nat, j: nat)
    ensures i <= j <= |s| && Strip(s) == s[i..j]
    ensures AllSpace(s[..i]) && AllSpace(s[j..])
    ensures Strip(s) == [] || (!IsSpace(Strip(s)[0]) && !IsSpace(Strip(s)[|Strip(s)| - 1]))
  {
    i := LeadingSpaces(s);
    var l := s[i..];
    var t := TrailingSpaces(l);
    j := i + |l| - t;
    assert Strip(s) == l[..|l| - t] == s[i..j];
    assert AllSpace(s[j..]) by {
      forall k | 0 <= k < |s| - j ensures IsSpace(s[j..][k]) {
        assert s[j..][k] == l[|l| - t + k];
      }
    }
  }

  /** `s.strip()` is idempotent. */
  lemma StripIdempotent(s: string)
    ensures Strip(Strip(s)) == Strip(s)
  {
    StripSlice(s);
  }

  /** Python's `not s or not s.strip()`: empty or only whitespace. */
  predicate Blank(s: string) {
    Strip(s) == []
  }

  /** A blank string is exactly one made only of whitespace. */
  lemma BlankIffAllSpace(s: string)
    ensures Blank(s) <==> AllSpace(s)
  {
    var i, j := StripBounds(s);
  }

  /** ASCII upper-case letter. */
  predicate IsUpperAscii(c: char) { 'A' <= c <= 'Z' }

  /** ASCII lower-case letter. */
  predicate IsLowerAscii(c: char) { 'a' <= c <= 'z' }

  function LowerChar(c: char): char {
    if IsUpperAscii(c) then (c as int + 32) as char else c
  }

  function UpperChar(c: char): char {
    if IsLowerAscii(c) then (c as int - 32) as char else c
  }

  /** `s.lower()` restricted to the ASCII letters. */
  function Lower(s: string): (r: string)
    ensures |r| == |s|
    ensures forall i :: 0 <= i < |s| ==> !IsUpperAscii(r[i])
    ensures forall i :: 0 <= i < |s| ==> (r[i] == s[i] || (IsUpperAscii(s[i]) && r[i] as int == s[i] as int + 32))
  {
    seq(|s|, i requires 0 <= i < |s| => LowerChar(s[i]))
  }

  /** `s.upper()` restricted to the ASCII letters. */
  function Upper(s: string): (r: string)
    ensures |r| == |s|
    ensures forall i :: 0 <= i < |s| ==> !IsLowerAscii(r[i])
    ensures forall i :: 0 <= i < |s| ==> (r[i] == s[i] || (IsLowerAscii(s[i]) && r[i] as int + 32 == s[i] as int))
  {
    seq(|s|, i requires 0 <= i < |s| => UpperChar(s[i]))
  }

  /** Whitespace is untouched by case mapping, so stripping and lower-casing commute. */
  lemma LowerKeepsSpace(s: string)
    ensures forall i :: 0 <= i < |s| ==> (IsSpace(Lower(s)[i]) <==> IsSpace(s[i]))
  {
  }

  /** `c.isdigit()` restricted to the ASCII digits. */
  predicate IsDigit(c: char) { '0' <= c <= '9' }

  /** `''.join(c for c in s if c.isdigit())`: the digits of `s`, in order. */
  function Digits(s: string): (r: string)
    ensures |r| <= |s|
    ensures forall i :: 0 <= i < |r| ==> IsDigit(r[i])
    ensures (forall i :: 0 <= i < |s| ==> IsDigit(s[i])) ==> r == s
  {
    if s == [] then [] else (if IsDigit(s[0]) then [s[0]] else []) + Digits(s[1..])
  }

  /** One character contributes itself if it is a digit and nothing otherwise. */
  lemma DigitsOne(c: char)
    ensures Digits([c]) == if IsDigit(c) then [c] else []
  {
    assert [c][1..] == [];
  }

  /** `Digits` distributes over concatenation; with `DigitsOne` this fixes
      it on every string. */
  lemma {:induction false} DigitsAppend(a: string, b: string)
    ensures Digits(a + b) == Digits(a) + Digits(b)
  {
    if a == [] {
      assert a + b == b;
    } else {
      assert (a + b)[0] == a[0];
      assert (a + b)[1..] == a[1..] + b;
      DigitsAppend(a[1..], b);
    }
  }

  /** The characters of `s` that are not whitespace, in order. */
  function NonSpace(s: string): string {
    if s == [] then [] else (if IsSpace(s[0]) then [] else [s[0]]) + NonSpace(s[1..])
  }

  lemma {:induction false} NonSpaceAppend(a: string, b: string)
    ensures NonSpace(a + b) == NonSpace(a) + NonSpace(b)
  {
    if a == [] {
      assert a + b == b;
    } else {
      var h := if IsSpace(a[0]) then [] else [a[0]];
      assert (a + b)[0] == a[0];
      assert (a + b)[1..] == a[1..] + b;
      NonSpaceAppend(a[1..], b);
      calc {
        NonSpace(a + b);
        h + NonSpace(a[1..] + b);
        h + (NonSpace(a[1..]) + NonSpace(b));
        (h + NonSpace(a[1..])) + NonSpace(b);
        NonSpace(a) + NonSpace(b);
      }
    }
  }

  lemma {:induction false} NonSpaceOfAllSpace(s: string)
    requires AllSpace(s)
    ensures NonSpace(s) == []
  {
    if s != [] {
      NonSpaceOfAllSpace(s[1..]);
    }
  }

  lemma {:induction false} NonSpaceOfNoSpace(s: string)
    requires NoSpace(s)
    ensures NonSpace(s) == s
  {
    if s != [] {
      NonSpaceOfNoSpace(s[1..]);
    }
  }

  /** Length of the leading run of non-whitespace characters. */
  function WordLength(s: string): (n: nat)
    ensures n <= |s|
    ensures NoSpace(s[..n])
    ensures n == |s| || IsSpace(s[n])
  {
    if s == [] || IsSpace(s[0]) then 0 else 1 + WordLength(s[1..])
  }

  /** `s.split()`: the maximal runs of non-whitespace characters, in order. */
  function Words(s: string): (ws: seq<string>)
    ensures forall k :: 0 <= k < |ws| ==> ws[k] != [] && NoSpace(ws[k])
    decreases |s|
  {
    if s == [] then []
    else if IsSpace(s[0]) then Words(s[1..])
    else
      var n := WordLength(s);
      [s[..n]] + Words(s[n..])
  }

  /** `''.join(ws)`. */
  function Concat(ws: seq<string>): string {
    if ws == [] then [] else ws[0] + Concat(ws[1..])
  }

  /** `' '.join(ws)`. */
  function JoinSpace(ws: seq<string>): string {
    if ws == [] then []
    else if |ws| == 1 then ws[0]
    else ws[0] + " " + JoinSpace(ws[1..])
  }

  /** A string whose only whitespace is single `' '` characters between two
      non-whitespace characters. */
  predicate Collapsed(s: string) {
    forall i :: 0 <= i < |s| && IsSpace(s[i]) ==>
      s[i] == ' ' && 0 < i < |s| - 1 && !IsSpace(s[i - 1]) && !IsSpace(s[i + 1])
  }

  lemma {:induction false} WordsContent(s: string)
    ensures Concat(Words(s)) == NonSpace(s)
    decreases |s|
  {
    if s == [] {
    } else if IsSpace(s[0]) {
      WordsContent(s[1..]);
    } else {
      var n := WordLength(s);
      WordsContent(s[n..]);
      assert s == s[..n] + s[n..];
      NonSpaceAppend(s[..n], s[n..]);
      NonSpaceOfNoSpace(s[..n]);
    }
  }

  lemma {:induction false} JoinSpaceContent(ws: seq<string>)
    requires forall k :: 0 <= k < |ws| ==> NoSpace(ws[k])
    ensures NonSpace(JoinSpace(ws)) == Concat(ws)
  {
    if |ws| == 1 {
      NonSpaceOfNoSpace(ws[0]);
      assert Concat(ws[1..]) == [];
    } else if |ws| > 1 {
      JoinSpaceContent(ws[1..]);
      NonSpaceAppend(ws[0] + " ", JoinSpace(ws[1..]));
      NonSpaceAppend(ws[0], " ");
      NonSpaceOfNoSpace(ws[0]);
    }
  }

  lemma {:induction false} JoinSpaceCollapsed(ws: seq<string>)
    requires forall k :: 0 <= k < |ws| ==> ws[k] != [] && NoSpace(ws[k])
    ensures Collapsed(JoinSpace(ws))
    ensures ws != [] ==> JoinSpace(ws) != [] && !IsSpace(JoinSpace(ws)[0])
                          && !IsSpace(JoinSpace(ws)[|JoinSpace(ws)| - 1])
  {
    if |ws| > 1 {
      JoinSpaceCollapsed(ws[1..]);
      var t := JoinSpace(ws[1..]);
      var r := ws[0] + " " + t;
      assert r == JoinSpace(ws);
      forall i | 0 <= i < |r| && IsSpace(r[i])
        ensures r[i] == ' ' && 0 < i < |r| - 1 && !IsSpace(r[i - 1]) && !IsSpace(r[i + 1])
      {
        if i != |ws[0]| {
          assert i > |ws[0]|;
          var k := i - |ws[0]| - 1;
          assert r[i] == t[k];
          assert 0 < k < |t| - 1;
          assert r[i - 1] == t[k - 1];
          assert r[i + 1] == t[k + 1];
        }
      }
    }
  }

  /** `' '.join(s.strip().split())`: the same words as `s`, whitespace runs
      collapsed to one space, ends trimmed, and every non-whitespace
      character kept in order. */
  function CollapseSpaces(s: string): (r: string)
    ensures Words(r) == Words(s)
    ensures Collapsed(r)
    ensures NonSpace(r) == NonSpace(s)
    ensures r == [] <==> Blank(s)
  {
    CollapseSpacesProperties(s);
    JoinSpace(Words(Strip(s)))
  }

  lemma CollapseSpacesProperties(s: string)
    ensures Words(JoinSpace(Words(Strip(s)))) == Words(s)
    ensures Collapsed(JoinSpace(Words(Strip(s))))
    ensures NonSpace(JoinSpace(Words(Strip(s)))) == NonSpace(s)
    ensures JoinSpace(Words(Strip(s))) == [] <==> Blank(s)
  {
    var t := Strip(s);
    StripKeepsNonSpace(s);
    StripSlice(s);
    WordsContent(t);
    JoinSpaceCollapsed(Words(t));
    JoinSpaceContent(Words(t));
    WordsOfJoinSpace(Words(t));
    WordsOfStrip(s);
    if t != [] {
      assert !IsSpace(t[0]);
      assert Words(t) != [];
    }
  }

  /** A string of whitespace has no words. */
  lemma {:induction false} WordsOfAllSpace(s: string)
    requires AllSpace(s)
    ensures Words(s) == []
    decreases |s|
  {
    if s != [] {
      WordsOfAllSpace(s[1..]);
    }
  }

  /** A word followed by nothing or by whitespace is the whole leading run. */
  lemma {:induction false} WordLengthOfWord(w: string, rest: string)
    requires NoSpace(w) && (rest == [] || IsSpace(rest[0]))
    ensures WordLength(w + rest) == |w|
  {
    if w != [] {
      assert (w + rest)[0] == w[0];
      assert (w + rest)[1..] == w[1..] + rest;
      WordLengthOfWord(w[1..], rest);
    }
  }

  /** Cutting `s` no earlier than the end of its leading run keeps that run. */
  lemma {:induction false} WordLengthOfPrefix(s: string, j: nat)
    requires WordLength(s) <= j <= |s|
    ensures WordLength(s[..j]) == WordLength(s)
  {
    if s != [] && !IsSpace(s[0]) {
      assert s[..j][0] == s[0];
      assert s[..j][1..] == s[1..][..j - 1];
      WordLengthOfPrefix(s[1..], j - 1);
    } else if j > 0 {
      assert s[..j][0] == s[0];
    }
  }

  /** Trailing whitespace does not change `split()`. */
  lemma {:induction false} WordsOfPrefix(s: string, j: nat)
    requires j <= |s| && AllSpace(s[j..])
    ensures Words(s[..j]) == Words(s)
    decreases |s|
  {
    if j == |s| {
      assert s[..j] == s;
    } else if j == 0 {
      WordsOfAllSpace(s);
      assert s[..j] == [];
    } else if IsSpace(s[0]) {
      assert s[..j][0] == s[0];
      assert s[..j][1..] == s[1..][..j - 1];
      assert s[1..][j - 1..] == s[j..];
      WordsOfPrefix(s[1..], j - 1);
    } else {
      var n := WordLength(s);
      assert s[j..][0] == s[j];
      assert n <= j;
      WordLengthOfPrefix(s, j);
      assert s[..j][..n] == s[..n];
      assert s[..j][n..] == s[n..][..j - n];
      assert s[n..][j - n..] == s[j..];
      WordsOfPrefix(s[n..], j - n);
    }
  }

  /** Leading whitespace does not change `split()`. */
  lemma {:induction false} WordsOfLStrip(s: string)
    ensures Words(LStrip(s)) == Words(s)
    decreases |s|
  {
    if s != [] && IsSpace(s[0]) {
      assert LStrip(s) == LStrip(s[1..]);
      WordsOfLStrip(s[1..]);
    } else {
      assert LStrip(s) == s;
    }
  }

  /** `s.strip().split() == s.split()`. */
  lemma WordsOfStrip(s: string)
    ensures Words(Strip(s)) == Words(s)
  {
    var l := LStrip(s);
    var j := RStripCut(l);
    WordsOfPrefix(l, j);
    WordsOfLStrip(s);
  }

  /** `rstrip()` keeps a prefix and drops only whitespace after it. */
  lemma RStripCut(l: string) returns (j: nat)
    ensures j <= |l| && RStrip(l) == l[..j] && AllSpace(l[j..])
  {
    j := |l| - TrailingSpaces(l);
    forall k | 0 <= k < |l| - j ensures IsSpace(l[j..][k]) {
      assert l[j..][k] == l[j + k];
    }
  }

  /** Joining non-empty words without whitespace by single spaces and
      splitting again gives the words back. */
  lemma {:induction false} WordsOfJoinSpace(ws: seq<string>)
    requires forall k :: 0 <= k < |ws| ==> ws[k] != [] && NoSpace(ws[k])
    ensures Words(JoinSpace(ws)) == ws
  {
    if |ws| == 1 {
      var w := ws[0];
      WordLengthOfWord(w, []);
      assert w + [] == w;
      assert w[..|w|] == w && w[|w|..] == [];
    } else if |ws| > 1 {
      var w, t := ws[0], JoinSpace(ws[1..]);
      var x := w + " " + t;
      assert x == w + ([' '] + t);
      WordLengthOfWord(w, [' '] + t);
      assert x[..|w|] == w;
      assert x[|w|..] == [' '] + t;
      assert ([' '] + t)[1..] == t;
      WordsOfJoinSpace(ws[1..]);
    }
  }

  /** Index of the first occurrence of `c` in `s`. */
  function IndexOf(s: string, c: char): (i: nat)
    requires c in s
    ensures i < |s| && s[i] == c && c !in s[..i]
  {
    if s[0] == c then 0 else 1 + IndexOf(s[1..], c)
  }

  /** `sep.join(parts)` for a one-character separator. */
  function JoinSep(parts: seq<string>, sep: char): string {
    if parts == [] then []
    else if |parts| == 1 then parts[0]
    else parts[0] + [sep] + JoinSep(parts[1..], sep)
  }

  /** `s.split(sep, maxsplit)` for a one-character separator: the parts
      joined by `sep` give `s` back, and the cuts are at the leftmost
      occurrences of `sep` (no part but the last holds one), at most
      `maxsplit` of them, and all of them when fewer are found. */
  function Split(s: string, sep: char, maxsplit: nat): (parts: seq<string>)
    ensures 1 <= |parts| <= maxsplit + 1
    ensures JoinSep(parts, sep) == s
    ensures forall k :: 0 <= k < |parts| - 1 ==> sep !in parts[k]
    ensures |parts| <= maxsplit ==> sep !in parts[|parts| - 1]
  {
    if maxsplit == 0 || sep !in s then [s]
    else
      var i := IndexOf(s, sep);
      var rest := Split(s[i + 1..], sep, maxsplit - 1);
      SplitCons(s, i, rest, sep, maxsplit);
      [s[..i]] + rest
  }

  /** A separator-free first part in front of the parts of the rest keeps
      the properties `Split` promises. */
  lemma SplitCons(s: string, i: nat, rest: seq<string>, sep: char, maxsplit: nat)
    requires i < |s| && s[i] == sep && sep !in s[..i] && maxsplit > 0
    requires 1 <= |rest| <= maxsplit && JoinSep(rest, sep) == s[i + 1..]
    requires forall k :: 0 <= k < |rest| - 1 ==> sep !in rest[k]
    requires |rest| <= maxsplit - 1 ==> sep !in rest[|rest| - 1]
    ensures JoinSep([s[..i]] + rest, sep) == s
    ensures forall k :: 0 <= k < |[s[..i]] + rest| - 1 ==> sep !in ([s[..i]] + rest)[k]
    ensures |[s[..i]] + rest| <= maxsplit ==> sep !in ([s[..i]] + rest)[|[s[..i]] + rest| - 1]
  {
    var parts := [s[..i]] + rest;
    assert parts[1..] == rest;
    assert JoinSep(parts, sep) == s[..i] + [sep] + JoinSep(rest, sep);
    assert s == s[..i] + [sep] + s[i + 1..];
    assert forall k :: 0 < k < |parts| ==> parts[k] == rest[k - 1];
  }

  /** Cutting `a + [sep] + b` where `a` holds no separator gives `a` first. */
  lemma SplitAfterFirst(a: string, sep: char, b: string, maxsplit: nat)
    requires sep !in a && maxsplit > 0
    ensures Split(a + [sep] + b, sep, maxsplit) == [a] + Split(b, sep, maxsplit - 1)
  {
    var s := a + [sep] + b;
    assert s[|a|] == sep;
    assert sep in s;
    var i := IndexOf(s, sep);
    assert s[..|a|] == a;
    assert i == |a|;
    assert s[i + 1..] == b;
  }

  /** Python's `s[:k]`, where a negative `k` counts from the end. */
  function PrefixPy<T>(s: seq<T>, k: int): (r: seq<T>)
    ensures r <= s
    ensures k >= 0 ==> |r| == if k < |s| then k else |s|
    ensures k < 0 ==> |r| == if |s| + k >= 0 then |s| + k else 0
  {
    if k >= |s| then s
    else if k >= 0 then s[..k]
    else if |s| + k >= 0 then s[..|s| + k]
    else []
  }

  /** Stripping drops whitespace only. */
  lemma StripKeepsNonSpace(s: string)
    ensures NonSpace(Strip(s)) == NonSpace(s)
  {
    var i, j := StripBounds(s);
    NonSpaceFramed(s, i, j);
  }

  /** Dropping whitespace from both ends of `s` keeps its non-whitespace. */
  lemma NonSpaceFramed(s: string, i: nat, j: nat)
    requires i <= j <= |s| && AllSpace(s[..i]) && AllSpace(s[j..])
    ensures NonSpace(s[i..j]) == NonSpace(s)
  {
    var antes, meio, depois := s[..i], s[i..j], s[j..];
    assert antes + meio == s[..j];
    assert s[..j] + depois == s;
    NonSpaceAppend(antes, meio);
    NonSpaceAppend(s[..j], depois);
    NonSpaceOfAllSpace(antes);
    NonSpaceOfAllSpace(depois);
    assert [] + NonSpace(meio) + [] == NonSpace(meio);
  }

  /** A string whose ends are not whitespace is its own `strip()`. */
  lemma StripOfTrimmed(s: string)
    requires s == [] || (!IsSpace(s[0]) && !IsSpace(s[|s| - 1]))
    ensures Strip(s) == s
  {
    assert LStrip(s) == s;
    assert RStrip(s) == s;
  }

  /** Lower-casing twice is lower-casing once. */
  lemma LowerIdempotent(s: string)
    ensures Lower(Lower(s)) == Lower(s)
  {
  }

  /** `s.strip().lower()` is a normal form: trimming or lower-casing it
      again changes nothing. */
  lemma NormalizarIdempotente(s: string)
    ensures Strip(Lower(Strip(s))) == Lower(Strip(s))
    ensures Lower(Lower(Strip(s))) == Lower(Strip(s))
  {
    var t := Strip(s);
    var i, j := StripBounds(s);
    LowerKeepsSpace(t);
    StripOfTrimmed(Lower(t));
    LowerIdempotent(t);
  }

  /** A word of lower-case ASCII letters is already trimmed and lower-cased. */
  lemma NormalDePalavra(s: string)
    requires forall i :: 0 <= i < |s| ==> IsLowerAscii(s[i])
    ensures Lower(Strip(s)) == s
  {
    if s != [] {
      assert !IsSpace(s[0]) && !IsSpace(s[|s| - 1]);
    }
    StripOfTrimmed(s);
    assert Lower(s) == s;
  }
}
