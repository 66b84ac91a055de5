/** The string built-ins the source relies on, written out over `seq<char>`:
    Python's `str.lower`, `str.strip`, `str.split`, `str.replace`, the `in`
    substring test and `str(int)`, and JavaScript's `String.prototype.trim`. */
module Text {

  /** Which language's notion of whitespace is meant. */
  datatype SpaceRule = Python | JavaScript

  /** Python's `str.isspace` (used by `strip()` and `split()`) and the
      whitespace and line terminators that JavaScript's `trim()` removes. */
  predicate IsSpace(c: char, rule: SpaceRule) {
    || c == ' ' || c == '\t' || c == '\n' || c == '\r' || c == '\U{000B}' || c == '\U{000C}'
    || c == '\U{00A0}' || c == '\U{1680}' || ('\U{2000}' <= c <= '\U{200A}')
    || c == '\U{2028}' || c == '\U{2029}' || c == '\U{202F}' || c == '\U{205F}' || c == '\U{3000}'
    || (rule == Python && (('\U{001C}' <= c <= '\U{001F}') || c == '\U{0085}'))
    || (rule == JavaScript && c == '\U{FEFF}')
  }

  ghost predicate AllSpace(s: string, rule: SpaceRule) {
    forall k :: 0 <= k < |s| ==> IsSpace(s[k], rule)
  }

  ghost predicate NoSpace(s: string, rule: SpaceRule) {
    forall k :: 0 <= k < |s| ==> !IsSpace(s[k], rule)
  }

  // ---------------------------------------------------------------------------
  // lower()

  /** Lower-cases an ASCII capital; every other character is left alone. */
  function LowerChar(c: char): (d: char)
    ensures !('A' <= d <= 'Z')
    ensures 'A' <= c <= 'Z' ==> 'a' <= d <= 'z' && d as int - c as int == 32
    ensures !('A' <= c <= 'Z') ==> d == c
  {
    if 'A' <= c <= 'Z' then (c as int + 32) as char else c
  }

  /** `s.lower()`, character by character. */
  function Lower(s: string): (r: string)
    ensures |r| == |s|
    ensures forall k :: 0 <= k < |s| ==> r[k] == LowerChar(s[k])
  {
    if s == [] then [] else [LowerChar(s[0])] + Lower(s[1..])
  }

  /** A string without capitals is its own lower-case form. */
  lemma LowerNoCapitals(s: string)
    requires forall k :: 0 <= k < |s| ==> !('A' <= s[k] <= 'Z')
    ensures Lower(s) == s
  {
    var r := Lower(s);
    forall k | 0 <= k < |s|
      ensures r[k] == s[k]
    {
    }
  }

  // ---------------------------------------------------------------------------
  // strip() / trim()

  /** How many whitespace characters `s` starts with. */
  function LeadingSpaces(s: string, rule: SpaceRule): (n: nat)
    ensures n <= |s|
    ensures AllSpace(s[..n], rule)
    ensures n < |s| ==> !IsSpace(s[n], rule)
  {
    if s == [] || !IsSpace(s[0], rule) then 0 else 1 + LeadingSpaces(s[1..], rule)
  }

  /** How many whitespace characters `s` ends with. */
  function TrailingSpaces(s: string, rule: SpaceRule): (n: nat)
    ensures n <= |s|
    ensures AllSpace(s[|s| - n..], rule)
    ensures n < |s| ==> !IsSpace(s[|s| - n - 1], rule)
  {
    if s == [] || !IsSpace(s[|s| - 1], rule) then 0 else 1 + TrailingSpaces(s[..|s| - 1], rule)
  }

  /** `r` is `s` with the whitespace `s[..i]` in front and `s[i + |r|..]` behind it removed. */
  ghost predicate PaddedAt(s: string, r: string, i: int, rule: SpaceRule) {
    0 <= i && i + |r| <= |s| && s[i..i + |r|] == r
    && AllSpace(s[..i], rule) && AllSpace(s[i + |r|..], rule)
  }

  /** Python's `s.strip()` (rule Python) or JavaScript's `s.trim()` (rule JavaScript). */
  function Strip(s: string, rule: SpaceRule): (r: string)
    ensures exists i :: PaddedAt(s, r, i, rule)
    ensures r != [] ==> !IsSpace(r[0], rule) && !IsSpace(r[|r| - 1], rule)
    ensures r == [] <==> AllSpace(s, rule)
  {
    var a := LeadingSpaces(s, rule);
    var t := s[a..];
    var b := TrailingSpaces(t, rule);
    var r := t[..|t| - b];
    assert s[a..a + |r|] == r;
    assert s[a + |r|..] == t[|t| - b..];
    assert PaddedAt(s, r, a, rule);
    assert r == [] ==> s == s[..a] + t[|t| - b..];
    r
  }

  /** A string that neither starts nor ends with whitespace is its own stripped form. */
  lemma StripUnpadded(s: string, rule: SpaceRule)
    requires s != [] && !IsSpace(s[0], rule) && !IsSpace(s[|s| - 1], rule)
    ensures Strip(s, rule) == s
  {
    assert LeadingSpaces(s, rule) == 0;
    assert s[0..] == s;
    assert TrailingSpaces(s, rule) == 0;
    assert s[..|s| - 0] == s;
  }

  // ---------------------------------------------------------------------------
  // the `in` operator on strings

  /** `p` occurs in `s` at position `i`. */
  ghost predicate OccursAt(p: string, s: string, i: int) {
    0 <= i && i + |p| <= |s| && s[i..i + |p|] == p
  }

  /** `p` is a substring of `s`: the meaning of Python's `p in s`. */
  ghost predicate Occurs(p: string, s: string) {
    exists i :: OccursAt(p, s, i)
  }

  /** Python's `p in s`, computed by trying each start position in turn. */
  function Contains(s: string, p: string): bool
    decreases |s|
  {
    if |p| > |s| then false
    else if p == s[..|p|] then true
    else Contains(s[1..], p)
  }

  lemma {:induction false} ContainsIsOccurs(s: string, p: string)
    ensures Contains(s, p) <==> Occurs(p, s)
    decreases |s|
  {
    if |p| > |s| {
    } else if p == s[..|p|] {
      assert OccursAt(p, s, 0);
    } else {
      ContainsIsOccurs(s[1..], p);
      if Occurs(p, s[1..]) {
        var i :| OccursAt(p, s[1..], i);
        assert s[1..][i..i + |p|] == s[i + 1..i + 1 + |p|];
        assert OccursAt(p, s, i + 1);
      }
      if Occurs(p, s) {
        var i :| OccursAt(p, s, i);
        assert i != 0;
        assert s[1..][i - 1..i - 1 + |p|] == s[i..i + |p|];
        assert OccursAt(p, s[1..], i - 1);
      }
    }
  }

  /** A substring of a substring of `s` is a substring of `s`. */
  lemma OccursTransitive(p: string, q: string, s: string)
    requires Occurs(p, q) && Occurs(q, s)
    ensures Occurs(p, s)
  {
    var i :| OccursAt(p, q, i);
    var j :| OccursAt(q, s, j);
    forall k | 0 <= k < |p| ensures s[j + i + k] == p[k] {
      assert p[k] == q[i + k];
    }
    assert s[j + i..j + i + |p|] == p;
    assert OccursAt(p, s, j + i);
  }

  // ---------------------------------------------------------------------------
  // split()

  /** Scans `s` with `cur` the part of a word read so far: a whitespace
      character ends the current word, any other character extends it. */
  function SplitFrom(s: string, cur: string): (words: seq<string>)
    requires NoSpace(cur, Python)
    ensures forall w :: w in words ==> w != [] && NoSpace(w, Python)
  {
    if s == [] then (if cur == [] then [] else [cur])
    else if IsSpace(s[0], Python) then (if cur == [] then [] else [cur]) + SplitFrom(s[1..], [])
    else SplitFrom(s[1..], cur + [s[0]])
  }

  /** Python's `s.split()` with no separator: the maximal runs of
      non-whitespace characters, in order. */
  function Split(s: string): (words: seq<string>)
    ensures forall w :: w in words ==> w != [] && NoSpace(w, Python)
  {
    SplitFrom(s, [])
  }

  /** Reading a word without whitespace just extends the current word. */
  lemma {:induction false} SplitFromWord(w: string, rest: string, cur: string)
    requires NoSpace(cur, Python) && NoSpace(w, Python)
    ensures NoSpace(cur + w, Python)
    ensures SplitFrom(w + rest, cur) == SplitFrom(rest, cur + w)
  {
    if w == [] {
      assert w + rest == rest && cur + w == cur;
    } else {
      assert (w + rest)[0] == w[0] && (w + rest)[1..] == w[1..] + rest;
      assert (cur + [w[0]]) + w[1..] == cur + w;
      SplitFromWord(w[1..], rest, cur + [w[0]]);
    }
  }

  /** A leading word is split off whole. */
  lemma SplitFirstWord(w: string, rest: string)
    requires w != [] && NoSpace(w, Python) && (rest == [] || IsSpace(rest[0], Python))
    ensures Split(w + rest) == [w] + Split(rest)
  {
    SplitFromWord(w, rest, []);
    assert [] + w == w;
  }

  /** Leading whitespace does not change the split. */
  lemma SplitSkipsSpace(c: char, rest: string)
    requires IsSpace(c, Python)
    ensures Split([c] + rest) == Split(rest)
  {
    assert ([c] + rest)[1..] == rest;
  }

  /** A single word splits to itself. */
  lemma SplitOneWord(w: string)
    requires w != [] && NoSpace(w, Python)
    ensures Split(w) == [w]
  {
    assert w + [] == w;
    SplitFirstWord(w, []);
  }

  /** A word, one space, and the rest: the word comes off first. */
  lemma SplitWordSpace(w: string, rest: string)
    requires w != [] && NoSpace(w, Python)
    ensures Split(w + [' '] + rest) == [w] + Split(rest)
  {
    assert w + [' '] + rest == w + ([' '] + rest);
    SplitFirstWord(w, [' '] + rest);
    SplitSkipsSpace(' ', rest);
  }

  /** Every word the scan yields occurs in the text it has read. */
  lemma {:induction false} SplitFromWordsOccur(s: string, cur: string)
    requires NoSpace(cur, Python)
    ensures forall w :: w in SplitFrom(s, cur) ==> Occurs(w, cur + s)
    decreases |s|
  {
    if cur != [] {
      assert OccursAt(cur, cur + s, 0);
    }
    if s != [] {
      if IsSpace(s[0], Python) {
        SplitFromWordsOccur(s[1..], []);
        forall w | w in SplitFrom(s[1..], [])
          ensures Occurs(w, cur + s)
        {
          assert [] + s[1..] == (cur + s)[|cur| + 1..];
          OccursInSuffix(w, cur + s, |cur| + 1);
        }
      } else {
        assert (cur + [s[0]]) + s[1..] == cur + s;
        SplitFromWordsOccur(s[1..], cur + [s[0]]);
      }
    }
  }

  lemma SplitWordsOccur(s: string)
    ensures forall w :: w in Split(s) ==> Occurs(w, s)
  {
    SplitFromWordsOccur(s, []);
    assert [] + s == s;
  }

  lemma OccursInSuffix(p: string, s: string, k: nat)
    requires k <= |s| && Occurs(p, s[k..])
    ensures Occurs(p, s)
  {
    var i :| OccursAt(p, s[k..], i);
    assert s[k + i..k + i + |p|] == s[k..][i..i + |p|];
    assert OccursAt(p, s, k + i);
  }

  // ---------------------------------------------------------------------------
  // replace() with a one-character pattern

  /** Python's `s.replace(c, t)` for a one-character `c`: every occurrence of
      `c` is replaced by `t`, left to right. */
  function ReplaceChar(s: string, c: char, t: string): (r: string)
    ensures c !in t ==> c !in r
    ensures forall d :: d in r ==> d in s || d in t
    ensures forall d :: d != c && d in s ==> d in r
  {
    if s == [] then []
    else (if s[0] == c then t else [s[0]]) + ReplaceChar(s[1..], c, t)
  }

  lemma {:induction false} ReplaceCharAppend(a: string, b: string, c: char, t: string)
    ensures ReplaceChar(a + b, c, t) == ReplaceChar(a, c, t) + ReplaceChar(b, c, t)
  {
    if a != [] {
      assert (a + b)[1..] == a[1..] + b;
      ReplaceCharAppend(a[1..], b, c, t);
    } else {
      assert a + b == b;
    }
  }

  // ---------------------------------------------------------------------------
  // str(int) / Number#toString for integers

  function DigitChar(d: nat): (c: char)
    requires d < 10
    ensures '0' <= c <= '9'
  {
    ('0' as int + d) as char
  }

  ghost predicate AllDigits(s: string) {
    forall k :: 0 <= k < |s| ==> '0' <= s[k] <= '9'
  }

  /** The decimal numeral of `n`, without leading zeros. */
  function NatToString(n: nat): (r: string)
    ensures r != [] && AllDigits(r)
    ensures |r| > 1 ==> r[0] != '0'
  {
    if n < 10 then [DigitChar(n)] else NatToString(n / 10) + [DigitChar(n % 10)]
  }

  /** 10 to the power `k`. */
  function Pow10(k: nat): (r: nat)
    ensures r >= 1
  {
    if k == 0 then 1 else 10 * Pow10(k - 1)
  }

  /** A number with `k` digits renders as `k` characters. */
  lemma {:induction false} NatToStringLength(n: nat, k: nat)
    requires 1 <= k && Pow10(k - 1) <= n < Pow10(k)
    ensures |NatToString(n)| == k
  {
    if k > 1 {
      assert Pow10(k - 1) == 10 * Pow10(k - 2);
      assert Pow10(k - 2) <= n / 10 < Pow10(k - 1);
      NatToStringLength(n / 10, k - 1);
    }
  }

  /** The value of a decimal numeral: the inverse of `NatToString`. */
  function ParseDecimal(s: string): nat
    requires AllDigits(s)
  {
    if s == [] then 0 else ParseDecimal(s[..|s| - 1]) * 10 + (s[|s| - 1] as int - '0' as int)
  }

  lemma {:induction false} ParseNatToString(n: nat)
    ensures ParseDecimal(NatToString(n)) == n
  {
    if n >= 10 {
      var r := NatToString(n);
      assert r[..|r| - 1] == NatToString(n / 10);
      ParseNatToString(n / 10);
    }
  }

  /** `str(i)` in Python for an integer `i`, and `${i}` in JavaScript for an
      integer below 10^21 in magnitude: a minus sign for a negative number,
      then the decimal numeral of its magnitude. */
  function IntToString(i: int): (r: string)
    ensures i < 0 <==> (r != [] && r[0] == '-')
    ensures i >= 0 ==> AllDigits(r) && ParseDecimal(r) == i
    ensures i < 0 ==> |r| > 1 && AllDigits(r[1..]) && ParseDecimal(r[1..]) == -i
  {
    if i < 0 then
      ParseNatToString(-i);
      assert ("-" + NatToString(-i))[1..] == NatToString(-i);
      "-" + NatToString(-i)
    else
      ParseNatToString(i);
      NatToString(i)
  }
}
