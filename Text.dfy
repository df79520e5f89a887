/**
 * The handful of Rust `str` operations the core relies on, on `seq<char>`, with
 * the semantics of the Rust standard library: `starts_with`, `ends_with`,
 * `contains`, `replace`, `trim_start_matches`, `trim_end_matches`, `trim`,
 * `split(char)`, `split_whitespace`, `lines`, `to_lowercase` (ASCII letters),
 * `join`, decimal rendering of integers and `u64::from_str_radix`.
 */
module Text {
  import opened Wrappers

  predicate StartsWith(s: string, p: string) {
    |p| <= |s| && s[..|p|] == p
  }

  predicate EndsWith(s: string, p: string) {
    |p| <= |s| && s[|s| - |p|..] == p
  }

  /** A text that differs from `p` at a position both have does not start
      with `p`. */
  lemma DiffersAt(s: string, p: string, i: nat)
    requires i < |s| && i < |p| && s[i] != p[i]
    ensures !StartsWith(s, p)
  {
    if |p| <= |s| {
      assert s[..|p|][i] != p[i];
    }
  }

  /** A text followed by a suffix ends with that suffix. */
  lemma EndsWithAppended(s: string, p: string)
    ensures EndsWith(s + p, p)
  {
    assert (s + p)[|s|..] == p;
  }

  /** `s.contains(p)`: `p` occurs at some position of `s`. */
  predicate Contains(s: string, p: string) {
    StartsWith(s, p) || (s != [] && Contains(s[1..], p))
  }

  /** Number of occurrences of the character `c` in `s`. */
  function Count(s: string, c: char): nat {
    if s == [] then 0 else (if s[0] == c then 1 else 0) + Count(s[1..], c)
  }

  // ---------------------------------------------------------------------------
  // str::replace

  /** `s.replace(from, to)`: every non-overlapping occurrence of `from`, scanned
      left to right, is replaced; an empty `from` matches between every two
      characters and at both ends. */
  function Replace(s: string, from: string, to: string): string
    decreases |s|
  {
    if from == [] then ReplaceEmpty(s, to)
    else if StartsWith(s, from) then to + Replace(s[|from|..], from, to)
    else if s == [] then []
    else [s[0]] + Replace(s[1..], from, to)
  }

  function ReplaceEmpty(s: string, to: string): string {
    if s == [] then to else to + [s[0]] + ReplaceEmpty(s[1..], to)
  }

  /** Replacing a pattern by itself leaves the text unchanged. */
  lemma {:induction false} ReplaceSelf(s: string, p: string)
    ensures Replace(s, p, p) == s
    decreases |s|
  {
    if p == [] {
      ReplaceEmptySelf(s);
    } else if StartsWith(s, p) {
      ReplaceSelf(s[|p|..], p);
      assert s == s[..|p|] + s[|p|..];
    } else if s != [] {
      ReplaceSelf(s[1..], p);
      assert s == [s[0]] + s[1..];
    }
  }

  lemma {:induction false} ReplaceEmptySelf(s: string)
    ensures ReplaceEmpty(s, []) == s
  {
    if s != [] {
      ReplaceEmptySelf(s[1..]);
      assert s == [s[0]] + s[1..];
    }
  }

  /** A non-empty pattern that does not occur leaves the text unchanged. */
  lemma {:induction false} ReplaceAbsent(s: string, p: string, q: string)
    requires p != [] && !Contains(s, p)
    ensures Replace(s, p, q) == s
    decreases |s|
  {
    if s != [] {
      ReplaceAbsent(s[1..], p, q);
      assert s == [s[0]] + s[1..];
    }
  }

  /** A chain of `str::replace` calls, applied in order. */
  function ReplaceAll(s: string, subs: seq<(string, string)>): string
    decreases |subs|
  {
    if subs == [] then s else ReplaceAll(Replace(s, subs[0].0, subs[0].1), subs[1..])
  }

  /** A chain whose patterns are all absent leaves the text unchanged. */
  lemma {:induction false} ReplaceAllAbsent(s: string, subs: seq<(string, string)>)
    requires forall k :: 0 <= k < |subs| ==> subs[k].0 != [] && !Contains(s, subs[k].0)
    ensures ReplaceAll(s, subs) == s
    decreases |subs|
  {
    if subs != [] {
      ReplaceAbsent(s, subs[0].0, subs[0].1);
      assert forall k :: 0 <= k < |subs[1..]| ==> subs[1..][k] == subs[k + 1];
      ReplaceAllAbsent(s, subs[1..]);
    }
  }

  /** Replacing along `a` and then along `b` is replacing along `a + b`. */
  lemma {:induction false} ReplaceAllConcat(s: string, a: seq<(string, string)>, b: seq<(string, string)>)
    ensures ReplaceAll(s, a + b) == ReplaceAll(ReplaceAll(s, a), b)
    decreases |a|
  {
    if a == [] {
      assert a + b == b;
    } else {
      assert (a + b)[0] == a[0];
      assert (a + b)[1..] == a[1..] + b;
      ReplaceAllConcat(Replace(s, a[0].0, a[0].1), a[1..], b);
    }
  }

  lemma {:induction false} ContainsPrepend(q: string, x: string, w: string)
    requires Contains(x, w)
    ensures Contains(q + x, w)
    decreases |q|
  {
    if q == [] {
      assert q + x == x;
    } else {
      ContainsPrepend(q[1..], x, w);
      assert (q + x)[1..] == q[1..] + x;
    }
  }

  /** An occurrence of `w` does not start among the first `n` characters when
      none of them is `w`'s first character. */
  lemma {:induction false} ContainsSkip(s: string, w: string, n: nat)
    requires w != [] && Contains(s, w) && n <= |s|
    requires forall i :: 0 <= i < n ==> s[i] != w[0]
    ensures Contains(s[n..], w)
    decreases n
  {
    if n == 0 {
      assert s[0..] == s;
    } else {
      if |w| <= |s| {
        assert s[..|w|][0] != w[0];
      }
      ContainsSkip(s[1..], w, n - 1);
      assert s[1..][n - 1..] == s[n..];
    }
  }

  /** A first character that cannot start a match is kept. */
  lemma ReplaceKeepsHead(s: string, p: string, q: string)
    requires p != [] && s != [] && s[0] != p[0]
    ensures Replace(s, p, q) == [s[0]] + Replace(s[1..], p, q)
  {
    if |p| <= |s| {
      assert s[..|p|][0] == s[0];
    }
  }

  /** A prefix without the pattern's first character is left as it is. */
  lemma {:induction false} ReplaceFreePrefix(s: string, n: nat, p: string, q: string)
    requires p != [] && n <= |s| && forall j :: 0 <= j < n ==> s[j] != p[0]
    ensures Replace(s, p, q) == s[..n] + Replace(s[n..], p, q)
    decreases n
  {
    if n == 0 {
      assert s[0..] == s;
    } else {
      var t := s[1..];
      assert t[n - 1..] == s[n..];
      assert [s[0]] + t[..n - 1] == s[..n];
      assert Replace(t, p, q) == t[..n - 1] + Replace(s[n..], p, q) by {
        ReplaceFreePrefix(t, n - 1, p, q);
      }
      ReplaceKeepsHead(s, p, q);
    }
  }

  /** Replacing a pattern keeps every occurrence of `w` when neither can
      start inside the other: `w`'s first character is not in the pattern and
      the pattern's first character is not in `w`. */
  lemma {:induction false} ReplaceKeeps(s: string, p: string, q: string, w: string)
    requires p != [] && w != [] && w[0] !in p && p[0] !in w && Contains(s, w)
    ensures Contains(Replace(s, p, q), w)
    decreases |s|
  {
    if StartsWith(s, p) {
      forall i | 0 <= i < |p|
        ensures s[i] != w[0]
      {
        assert s[i] == s[..|p|][i] == p[i];
        assert p[i] in p;
      }
      ContainsSkip(s, w, |p|);
      ReplaceKeeps(s[|p|..], p, q, w);
      ContainsPrepend(q, Replace(s[|p|..], p, q), w);
    } else if StartsWith(s, w) {
      forall j | 0 <= j < |w|
        ensures s[j] != p[0]
      {
        assert s[j] == s[..|w|][j] == w[j];
        assert w[j] in w;
      }
      ReplaceFreePrefix(s, |w|, p, q);
      assert (w + Replace(s[|w|..], p, q))[..|w|] == w;
    } else {
      ReplaceKeeps(s[1..], p, q, w);
      ContainsPrepend([s[0]], Replace(s[1..], p, q), w);
    }
  }

  /** A pattern that occurs is replaced, so the replacement occurs. */
  lemma {:induction false} ReplaceIntroduces(s: string, p: string, q: string)
    requires p != [] && Contains(s, p)
    ensures Contains(Replace(s, p, q), q)
    decreases |s|
  {
    if StartsWith(s, p) {
      var x := Replace(s[|p|..], p, q);
      assert (q + x)[..|q|] == q;
    } else {
      ReplaceIntroduces(s[1..], p, q);
      ContainsPrepend([s[0]], Replace(s[1..], p, q), q);
    }
  }

  /** A chain of patterns none of which can overlap `w` keeps `w`. */
  lemma {:induction false} ReplaceAllKeeps(s: string, subs: seq<(string, string)>, w: string)
    requires w != [] && Contains(s, w)
    requires forall k :: 0 <= k < |subs| ==> subs[k].0 != [] && w[0] !in subs[k].0 && subs[k].0[0] !in w
    ensures Contains(ReplaceAll(s, subs), w)
    decreases |subs|
  {
    if subs != [] {
      ReplaceKeeps(s, subs[0].0, subs[0].1, w);
      assert forall k :: 0 <= k < |subs[1..]| ==> subs[1..][k] == subs[k + 1];
      ReplaceAllKeeps(Replace(s, subs[0].0, subs[0].1), subs[1..], w);
    }
  }

  /** Replacing one character by another rewrites exactly the positions that held
      it and keeps the length. */
  lemma {:induction false} ReplaceChar(s: string, c: char, d: char)
    ensures |Replace(s, [c], [d])| == |s|
    ensures forall k :: 0 <= k < |s| ==> Replace(s, [c], [d])[k] == (if s[k] == c then d else s[k])
  {
    if s != [] {
      ReplaceChar(s[1..], c, d);
    }
  }

  /** A text contains every text placed inside it. */
  lemma {:induction false} ContainsInfix(a: string, p: string, b: string)
    ensures Contains(a + p + b, p)
  {
    if a == [] {
      assert a + p + b == p + b;
      assert (p + b)[..|p|] == p;
    } else {
      ContainsInfix(a[1..], p, b);
      assert (a + p + b)[1..] == a[1..] + p + b;
    }
  }

  /** `ends_with` holds exactly when the text is something followed by the suffix. */
  lemma EndsWithIff(s: string, t: string)
    ensures EndsWith(s, t) <==> exists u :: s == u + t
  {
    if EndsWith(s, t) {
      assert s == s[..|s| - |t|] + t;
    }
    forall u | s == u + t
      ensures EndsWith(s, t)
    {
      assert s[|s| - |t|..] == t;
    }
  }

  // ---------------------------------------------------------------------------
  // Trimming

  /** `s.trim_start_matches(p)`: strips every leading repetition of `p`. */
  function TrimStartMatches(s: string, p: string): (r: string)
    decreases |s|
  {
    if p != [] && StartsWith(s, p) then TrimStartMatches(s[|p|..], p) else s
  }

  /** After `trim_start_matches` the text no longer starts with the pattern. */
  lemma {:induction false} TrimStartMatchesClean(s: string, p: string)
    requires p != []
    ensures !StartsWith(TrimStartMatches(s, p), p)
    decreases |s|
  {
    if StartsWith(s, p) {
      TrimStartMatchesClean(s[|p|..], p);
    }
  }

  /** `s.trim_end_matches(c)` for a character pattern. */
  function TrimEndMatches(s: string, c: char): (r: string) {
    if s != [] && s[|s| - 1] == c then TrimEndMatches(s[..|s| - 1], c) else s
  }

  /** `char::is_whitespace`: the Unicode White_Space property. */
  predicate IsWhitespace(c: char) {
    ('\t' <= c <= '\r') || c == ' ' || c == '\U{0085}' || c == '\U{00A0}' || c == '\U{1680}'
    || ('\U{2000}' <= c <= '\U{200A}') || c == '\U{2028}' || c == '\U{2029}'
    || c == '\U{202F}' || c == '\U{205F}' || c == '\U{3000}'
  }

  function TrimStart(s: string): (r: string)
    ensures |r| <= |s|
  {
    if s != [] && IsWhitespace(s[0]) then TrimStart(s[1..]) else s
  }

  function TrimEnd(s: string): (r: string) {
    if s != [] && IsWhitespace(s[|s| - 1]) then TrimEnd(s[..|s| - 1]) else s
  }

  /** `s.trim()`. */
  function Trim(s: string): string {
    TrimEnd(TrimStart(s))
  }

  // ---------------------------------------------------------------------------
  // Splitting and joining

  /** `s.split(c)`: the pieces between occurrences of `c`; never empty. */
  function Split(s: string, c: char): (r: seq<string>)
    ensures |r| >= 1
  {
    if s == [] then [[]]
    else
      var rest := Split(s[1..], c);
      if s[0] == c then [[]] + rest else [[s[0]] + rest[0]] + rest[1..]
  }

  /** `pieces.join(sep)`. */
  function Join(pieces: seq<string>, sep: string): string {
    if |pieces| == 0 then []
    else if |pieces| == 1 then pieces[0]
    else pieces[0] + sep + Join(pieces[1..], sep)
  }

  /** `split` yields one more piece than there are separators. */
  lemma {:induction false} SplitCount(s: string, c: char)
    ensures |Split(s, c)| == Count(s, c) + 1
  {
    if s != [] {
      SplitCount(s[1..], c);
    }
  }

  /** No piece of a split contains the separator. */
  lemma {:induction false} SplitPiecesFree(s: string, c: char)
    ensures forall k :: 0 <= k < |Split(s, c)| ==> c !in Split(s, c)[k]
  {
    if s != [] {
      SplitPiecesFree(s[1..], c);
    }
  }

  lemma {:induction false} CountConcat(a: string, b: string, c: char)
    ensures Count(a + b, c) == Count(a, c) + Count(b, c)
  {
    if a == [] {
      assert a + b == b;
    } else {
      CountConcat(a[1..], b, c);
      assert (a + b)[0] == a[0];
      assert (a + b)[1..] == a[1..] + b;
    }
  }

  lemma {:induction false} CountAbsent(s: string, c: char)
    requires c !in s
    ensures Count(s, c) == 0
  {
    if s != [] {
      CountAbsent(s[1..], c);
    }
  }

  /** Joining two non-empty lists of pieces is joining their joins. */
  lemma {:induction false} JoinAppend(a: seq<string>, b: seq<string>, sep: string)
    requires |a| >= 1 && |b| >= 1
    ensures Join(a + b, sep) == Join(a, sep) + sep + Join(b, sep)
  {
    if |a| == 1 {
      assert (a + b)[1..] == b;
    } else {
      JoinAppend(a[1..], b, sep);
      assert (a + b)[1..] == a[1..] + b;
    }
  }

  /** Joining the pieces of a split with the separator gives back the text. */
  lemma {:induction false} JoinSplit(s: string, c: char)
    ensures Join(Split(s, c), [c]) == s
  {
    if s != [] {
      var rest := Split(s[1..], c);
      JoinSplit(s[1..], c);
      if s[0] != c {
        JoinConsHead(s[0], rest, [c]);
      }
    }
  }

  lemma JoinConsHead(x: char, ps: seq<string>, sep: string)
    requires |ps| >= 1
    ensures Join([[x] + ps[0]] + ps[1..], sep) == [x] + Join(ps, sep)
  {
    var qs := [[x] + ps[0]] + ps[1..];
    assert qs[1..] == ps[1..];
  }

  lemma {:induction false} SplitNoSeparator(a: string, c: char)
    requires c !in a
    ensures Split(a, c) == [a]
  {
    if a != [] {
      SplitNoSeparator(a[1..], c);
      assert a == [a[0]] + a[1..];
    }
  }

  lemma {:induction false} SplitAfterPiece(a: string, b: string, c: char)
    requires c !in a
    ensures Split(a + [c] + b, c) == [a] + Split(b, c)
  {
    if a == [] {
      assert a + [c] + b == [c] + b;
      assert ([c] + b)[1..] == b;
    } else {
      var t := a + [c] + b;
      assert t[1..] == a[1..] + [c] + b;
      SplitAfterPiece(a[1..], b, c);
      assert a == [a[0]] + a[1..];
    }
  }

  /** Splitting a join whose pieces do not contain the separator gives back the
      pieces. */
  lemma {:induction false} SplitJoin(ps: seq<string>, c: char)
    requires |ps| >= 1
    requires forall k :: 0 <= k < |ps| ==> c !in ps[k]
    ensures Split(Join(ps, [c]), c) == ps
  {
    if |ps| == 1 {
      SplitNoSeparator(ps[0], c);
    } else {
      SplitJoin(ps[1..], c);
      SplitAfterPiece(ps[0], Join(ps[1..], [c]), c);
      assert [ps[0]] + ps[1..] == ps;
    }
  }

  /** Length of the maximal prefix of non-whitespace characters. */
  function WordLength(s: string): (n: nat)
    ensures n <= |s|
    ensures s != [] && !IsWhitespace(s[0]) ==> n >= 1
  {
    if s == [] || IsWhitespace(s[0]) then 0 else 1 + WordLength(s[1..])
  }

  /** `s.split_whitespace()`: the maximal runs of non-whitespace characters. */
  function SplitWhitespace(s: string): seq<string>
    decreases |s|
  {
    var t := TrimStart(s);
    if t == [] then []
    else
      var n := WordLength(t);
      [t[..n]] + SplitWhitespace(t[n..])
  }

  /** A non-empty run of non-whitespace characters. */
  predicate IsWord(w: string) {
    w != [] && forall k :: 0 <= k < |w| ==> !IsWhitespace(w[k])
  }

  lemma {:induction false} WordLengthOfWord(w: string, rest: string)
    requires forall k :: 0 <= k < |w| ==> !IsWhitespace(w[k])
    requires rest == [] || IsWhitespace(rest[0])
    ensures WordLength(w + rest) == |w|
  {
    if w == [] {
      assert w + rest == rest;
    } else {
      assert (w + rest)[1..] == w[1..] + rest;
      WordLengthOfWord(w[1..], rest);
    }
  }

  /** Leading whitespace does not change the words. */
  lemma SplitWhitespaceSkip(c: char, s: string)
    requires IsWhitespace(c)
    ensures SplitWhitespace([c] + s) == SplitWhitespace(s)
  {
    assert ([c] + s)[1..] == s;
    assert TrimStart([c] + s) == TrimStart(s);
  }

  /** Words joined by single spaces split back into the same words. */
  lemma {:induction false} SplitWhitespaceJoin(ws: seq<string>)
    requires forall k :: 0 <= k < |ws| ==> IsWord(ws[k])
    ensures SplitWhitespace(Join(ws, " ")) == ws
  {
    if |ws| == 1 {
      var w := ws[0];
      assert w + [] == w;
      WordLengthOfWord(w, []);
      assert TrimStart(w) == w;
      assert w[|w|..] == [];
    } else if |ws| >= 2 {
      var w := ws[0];
      var j := Join(ws[1..], " ");
      var rest := " " + j;
      assert Join(ws, " ") == w + rest;
      WordLengthOfWord(w, rest);
      assert TrimStart(w + rest) == w + rest;
      assert (w + rest)[..|w|] == w;
      assert (w + rest)[|w|..] == rest;
      SplitWhitespaceSkip(' ', j);
      SplitWhitespaceJoin(ws[1..]);
      assert ws == [w] + ws[1..];
    }
  }

  /** Removes one trailing carriage return. */
  function StripCR(line: string): string {
    if line != [] && line[|line| - 1] == '\r' then line[..|line| - 1] else line
  }

  /** `s.lines()`: pieces between line feeds; a carriage return right before a
      line feed is dropped; a final empty piece (text ending in a line feed, or
      the empty text) is not a line. */
  function Lines(s: string): seq<string> {
    if s == [] then []
    else
      var parts := Split(s, '\n');
      var last := parts[|parts| - 1];
      var init := parts[..|parts| - 1];
      seq(|init|, k requires 0 <= k < |init| => StripCR(init[k]))
        + (if last == [] then [] else [last])
  }

  /** Prefixes every element: `xs.iter().map(|r| format!("{p}{r}"))`. */
  function Prefixed(p: string, xs: seq<string>): (r: seq<string>)
    ensures |r| == |xs|
    ensures forall k :: 0 <= k < |xs| ==> r[k] == p + xs[k]
  {
    if xs == [] then [] else [p + xs[0]] + Prefixed(p, xs[1..])
  }

  // ---------------------------------------------------------------------------
  // Case

  function LowerChar(c: char): char {
    if 'A' <= c <= 'Z' then (c as int + 32) as char else c
  }

  /** `to_lowercase`, on ASCII letters. */
  function ToLower(s: string): (r: string)
    ensures |r| == |s|
    ensures forall k :: 0 <= k < |s| ==> r[k] == LowerChar(s[k])
  {
    if s == [] then [] else [LowerChar(s[0])] + ToLower(s[1..])
  }

  // ---------------------------------------------------------------------------
  // Integers as text

  predicate IsDecimalDigit(c: char) {
    '0' <= c <= '9'
  }

  function DigitChar(d: nat): (c: char)
    requires d < 10
    ensures IsDecimalDigit(c) && c as int - '0' as int == d
  {
    ('0' as int + d) as char
  }

  /** `format!("{}", n)` for a non-negative integer. */
  function NatToString(n: nat): (r: string)
    ensures |r| >= 1
    ensures forall k :: 0 <= k < |r| ==> IsDecimalDigit(r[k])
  {
    if n < 10 then [DigitChar(n)] else NatToString(n / 10) + [DigitChar(n % 10)]
  }

  /** `format!("{}", i)` for any integer. */
  function IntToString(i: int): (r: string)
    ensures i < 0 ==> r == "-" + NatToString(-i)
    ensures i >= 0 ==> r == NatToString(i)
  {
    if i < 0 then "-" + NatToString(-i) else NatToString(i)
  }

  /** The value of a character as a digit of the radix, if it is one. */
  function DigitValue(c: char, radix: nat): Option<nat>
    requires radix == 10 || radix == 16
  {
    if '0' <= c <= '9' then Some(c as int - '0' as int)
    else if radix == 16 && 'a' <= c <= 'f' then Some(c as int - 'a' as int + 10)
    else if radix == 16 && 'A' <= c <= 'F' then Some(c as int - 'A' as int + 10)
    else None
  }

  predicate AllDigits(s: string, radix: nat)
    requires radix == 10 || radix == 16
  {
    forall k :: 0 <= k < |s| ==> DigitValue(s[k], radix).Some?
  }

  function DigitsValue(s: string, radix: nat): nat
    requires radix == 10 || radix == 16
    requires AllDigits(s, radix)
  {
    if s == [] then 0
    else DigitsValue(s[..|s| - 1], radix) * radix + DigitValue(s[|s| - 1], radix).value
  }

  const U64Limit: nat := 0x1_0000_0000_0000_0000

  /** `u64::from_str_radix(s, radix)` (and `s.parse::<u64>()` for radix 10): one
      optional leading '+', then at least one digit, and a value below 2^64. */
  function ParseU64(s: string, radix: nat): (r: Option<nat>)
    requires radix == 10 || radix == 16
    ensures r.Some? ==> r.value < U64Limit
  {
    if s == [] then None
    else
      var digits := if s[0] == '+' && |s| > 1 then s[1..] else s;
      if AllDigits(digits, radix) && DigitsValue(digits, radix) < U64Limit
      then Some(DigitsValue(digits, radix))
      else None
  }

  lemma {:induction false} NatToStringValue(n: nat)
    ensures AllDigits(NatToString(n), 10)
    ensures DigitsValue(NatToString(n), 10) == n
  {
    var r := NatToString(n);
    if n >= 10 {
      NatToStringValue(n / 10);
      assert r[..|r| - 1] == NatToString(n / 10);
    }
  }

  /** Parsing the decimal rendering of a 64-bit value gives the value back. */
  lemma ParseNatToString(n: nat)
    requires n < U64Limit
    ensures ParseU64(NatToString(n), 10) == Some(n)
  {
    NatToStringValue(n);
  }

  // ---------------------------------------------------------------------------
  // Ordering

  /** `a < b` for Rust's `str` ordering: byte-wise lexicographic on UTF-8, which
      is lexicographic on code points. */
  predicate LexLess(a: string, b: string)
    decreases |a|
  {
    if a == [] then b != []
    else b != [] && (a[0] < b[0] || (a[0] == b[0] && LexLess(a[1..], b[1..])))
  }

  lemma {:induction false} LexIrreflexive(a: string)
    ensures !LexLess(a, a)
  {
    if a != [] {
      LexIrreflexive(a[1..]);
    }
  }

  lemma {:induction false} LexTransitive(a: string, b: string, c: string)
    requires LexLess(a, b) && LexLess(b, c)
    ensures LexLess(a, c)
    decreases |a|
  {
    if a != [] && a[0] == b[0] && b[0] == c[0] {
      LexTransitive(a[1..], b[1..], c[1..]);
    }
  }

  lemma {:induction false} LexTotal(a: string, b: string)
    ensures a == b || LexLess(a, b) || LexLess(b, a)
    decreases |a|
  {
    if a != [] && b != [] && a[0] == b[0] {
      LexTotal(a[1..], b[1..]);
      if a[1..] == b[1..] {
        assert a == [a[0]] + a[1..] && b == [b[0]] + b[1..];
      }
    }
  }
}
