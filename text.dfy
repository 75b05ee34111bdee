/**
 * The handful of Python string operations the agents rely on, over ASCII:
 * `lower`, `upper`, `capitalize`, the `in` substring test, `split()` on
 * whitespace, `split(sep)[1]`, `strip()`, slicing and `join`.
 */
module Text {
  import opened Common

  /** The ASCII characters Python's `split()` and `strip()` treat as
      whitespace: space, tab, line feed, carriage return, vertical tab, form
      feed, and the four separators 0x1C to 0x1F. */
  predicate IsSpace(c: char)
  {
    c == ' ' || '\t' <= c <= '\r' || '\U{001C}' <= c <= '\U{001F}'
  }

  predicate NoSpace(s: string)
  {
    forall i :: 0 <= i < |s| ==> !IsSpace(s[i])
  }

  function LowerChar(c: char): char
  {
    if 'A' <= c <= 'Z' then (c as int + 32) as char else c
  }

  function UpperChar(c: char): char
  {
    if 'a' <= c <= 'z' then (c as int - 32) as char else c
  }

  /** `s.lower()` */
  function Lower(s: string): (r: string)
    ensures |r| == |s|
  {
    if s == [] then [] else [LowerChar(s[0])] + Lower(s[1..])
  }

  /** `s.upper()` */
  function Upper(s: string): (r: string)
    ensures |r| == |s|
  {
    if s == [] then [] else [UpperChar(s[0])] + Upper(s[1..])
  }

  lemma {:induction false} LowerAt(s: string, i: nat)
    requires i < |s|
    ensures Lower(s)[i] == LowerChar(s[i])
  {
    if i > 0 {
      LowerAt(s[1..], i - 1);
    }
  }

  lemma {:induction false} UpperAt(s: string, i: nat)
    requires i < |s|
    ensures Upper(s)[i] == UpperChar(s[i])
  {
    if i > 0 {
      UpperAt(s[1..], i - 1);
    }
  }

  /** `s.lower()` is the string whose every character is lowered. */
  lemma LowerIs(s: string, t: string)
    requires |s| == |t| && forall i :: 0 <= i < |s| ==> LowerChar(s[i]) == t[i]
    ensures Lower(s) == t
  {
    forall i | 0 <= i < |s|
      ensures Lower(s)[i] == t[i]
    {
      LowerAt(s, i);
    }
  }

  /** `s.upper()` is the string whose every character is raised. */
  lemma UpperIs(s: string, t: string)
    requires |s| == |t| && forall i :: 0 <= i < |s| ==> UpperChar(s[i]) == t[i]
    ensures Upper(s) == t
  {
    forall i | 0 <= i < |s|
      ensures Upper(s)[i] == t[i]
    {
      UpperAt(s, i);
    }
  }

  /** Lowering twice is lowering once. */
  lemma {:induction false} LowerIdempotent(s: string)
    ensures Lower(Lower(s)) == Lower(s)
  {
    if s != [] {
      LowerIdempotent(s[1..]);
      assert Lower(s)[1..] == Lower(s[1..]);
    }
  }

  /** `s.upper()` leaves no lower-case ASCII letter behind. */
  lemma UpperHasNoLower(s: string)
    ensures forall i :: 0 <= i < |Upper(s)| ==> !('a' <= Upper(s)[i] <= 'z')
  {
    forall i | 0 <= i < |Upper(s)|
      ensures !('a' <= Upper(s)[i] <= 'z')
    {
      UpperAt(s, i);
    }
  }

  /** `w.capitalize()`: the first character upper-cased, the rest lower-cased. */
  function Capitalize(w: string): (r: string)
    ensures |r| == |w|
    ensures |w| > 0 ==> r[0] == UpperChar(w[0]) && r[1..] == Lower(w[1..])
  {
    if w == [] then [] else [UpperChar(w[0])] + Lower(w[1..])
  }

  /** `s[:n]` */
  function Take(s: string, n: nat): (r: string)
    ensures |r| == if |s| <= n then |s| else n
    ensures r <= s
  {
    if |s| <= n then s else s[..n]
  }

  /** `sep.join(xs)` */
  function Join(sep: string, xs: seq<string>): string
  {
    if xs == [] then ""
    else if |xs| == 1 then xs[0]
    else xs[0] + sep + Join(sep, xs[1..])
  }

  // ---------------------------------------------------------------------------
  // Substring search: Python's `p in s`

  predicate OccursAt(s: string, p: string, i: int)
  {
    0 <= i && i + |p| <= |s| && s[i..i + |p|] == p
  }

  /** `p in s` */
  predicate Contains(s: string, p: string)
  {
    exists i :: 0 <= i <= |s| - |p| && OccursAt(s, p, i)
  }

  /** The first position at or after `k` where `p` occurs in `s`. */
  function FindFrom(s: string, p: string, k: nat): (r: Option<nat>)
    decreases |s| - k
    ensures r.Some? ==> k <= r.value && OccursAt(s, p, r.value)
    ensures r.Some? ==> forall j :: k <= j < r.value ==> !OccursAt(s, p, j)
    ensures r.None? ==> forall j :: k <= j ==> !OccursAt(s, p, j)
  {
    if k + |p| > |s| then None
    else if s[k..k + |p|] == p then Some(k)
    else FindFrom(s, p, k + 1)
  }

  /** `s.find(p)`, with `None` for -1: the first occurrence of `p`. */
  function Find(s: string, p: string): (r: Option<nat>)
    ensures r.Some? <==> Contains(s, p)
    ensures r.Some? ==> OccursAt(s, p, r.value) && forall j :: 0 <= j < r.value ==> !OccursAt(s, p, j)
  {
    FindFrom(s, p, 0)
  }

  // ---------------------------------------------------------------------------
  // `split(sep)[1]`: the text between the first and the second separator

  /** Python's `s.split(sep)[1]`, defined when `sep` occurs in `s`: the text
      after the first occurrence of `sep`, up to the next one (or the end). */
  function SecondPart(s: string, sep: string): (r: string)
    requires |sep| > 0 && Contains(s, sep)
    ensures !Contains(r, sep)
    ensures var i := Find(s, sep).value;
            i + |sep| + |r| <= |s| && s[i + |sep|..i + |sep| + |r|] == r &&
            (i + |sep| + |r| == |s| || OccursAt(s, sep, i + |sep| + |r|))
  {
    var rest := s[Find(s, sep).value + |sep|..];
    if Find(rest, sep).None? then rest
    else
      var j := Find(rest, sep).value;
      PrefixBeforeFirst(rest, sep, j);
      assert rest[j..j + |sep|] == sep;
      rest[..j]
  }

  /** `split(sep)[1]` ends at the NEXT separator: no separator starts
      anywhere inside it. */
  lemma SecondPartStopsAtNext(s: string, sep: string)
    requires |sep| > 0 && Contains(s, sep)
    ensures var i, r := Find(s, sep).value, SecondPart(s, sep);
            forall j :: i + |sep| <= j < i + |sep| + |r| ==> !OccursAt(s, sep, j)
  {
    var k := Find(s, sep).value + |sep|;
    var rest := s[k..];
    if Find(rest, sep).None? {
      assert SecondPart(s, sep) == rest;
      NoneBefore(s, sep, k, |rest|);
    } else {
      var j := Find(rest, sep).value;
      assert SecondPart(s, sep) == rest[..j];
      NoneBefore(s, sep, k, j);
    }
  }

  /** No occurrence in the first `n` positions of `s[k..]` is no occurrence
      at positions `k` to `k + n` of `s`. */
  lemma NoneBefore(s: string, p: string, k: nat, n: nat)
    requires k <= |s| && forall m :: 0 <= m < n ==> !OccursAt(s[k..], p, m)
    ensures forall j :: k <= j < k + n ==> !OccursAt(s, p, j)
  {
    forall j | k <= j < k + n
      ensures !OccursAt(s, p, j)
    {
      assert !OccursAt(s[k..], p, j - k);
      if j + |p| <= |s| {
        assert s[k..][j - k..j - k + |p|] == s[j..j + |p|];
      }
    }
  }

  /** A piece of a text without `p` is without `p`. */
  lemma NotContainedInSlice(x: string, p: string, a: nat, b: nat)
    requires a <= b <= |x| && !Contains(x, p)
    ensures !Contains(x[a..b], p)
  {
    forall m | 0 <= m <= b - a - |p|
      ensures !OccursAt(x[a..b], p, m)
    {
      SliceOfSlice(x, a, b, m, |p|);
      assert !OccursAt(x, p, a + m);
    }
  }

  lemma SliceOfSlice(x: string, a: nat, b: nat, m: nat, n: nat)
    requires a <= b <= |x| && m + n <= b - a
    ensures x[a..b][m..m + n] == x[a + m..a + m + n]
  {
    var u, v := x[a..b][m..m + n], x[a + m..a + m + n];
    forall i | 0 <= i < n
      ensures u[i] == v[i]
    {
      assert u[i] == x[a..b][m + i];
    }
  }

  /** With one character `c` as separator, `split(c)[1]` of `pre + c + post`
      is `post` when neither side holds `c`. */
  lemma SecondPartOfChar(pre: string, c: char, post: string)
    requires c !in pre && c !in post
    ensures Contains(pre + [c] + post, [c]) && SecondPart(pre + [c] + post, [c]) == post
  {
    var s := pre + [c] + post;
    assert s[|pre|..|pre| + 1] == [c];
    assert OccursAt(s, [c], |pre|);
    forall j | 0 <= j < |pre|
      ensures !OccursAt(s, [c], j)
    {
      assert s[j..j + 1][0] == pre[j];
    }
    var i := Find(s, [c]).value;
    assert i == |pre|;
    assert s[i + 1..] == post;
    forall m | 0 <= m <= |post| - 1
      ensures !OccursAt(post, [c], m)
    {
      assert post[m..m + 1][0] == post[m];
    }
  }

  /** The text before the first occurrence of `p` does not contain `p`. */
  lemma PrefixBeforeFirst(s: string, p: string, j: nat)
    requires |p| > 0 && OccursAt(s, p, j) && forall m :: 0 <= m < j ==> !OccursAt(s, p, m)
    ensures !Contains(s[..j], p)
  {
    if Contains(s[..j], p) {
      var m :| 0 <= m <= j - |p| && OccursAt(s[..j], p, m);
      assert s[..j][m..m + |p|] == s[m..m + |p|];
      assert OccursAt(s, p, m);
    }
  }

  // ---------------------------------------------------------------------------
  // Whitespace: `split()` and `strip()`

  /** `s` with its leading whitespace removed. */
  function TrimStart(s: string): (r: string)
    ensures |r| <= |s| && r == s[|s| - |r|..]
    ensures r == [] || !IsSpace(r[0])
    ensures forall i :: 0 <= i < |s| - |r| ==> IsSpace(s[i])
  {
    if s != [] && IsSpace(s[0]) then TrimStart(s[1..]) else s
  }

  /** `s` with its trailing whitespace removed. */
  function TrimEnd(s: string): (r: string)
    ensures |r| <= |s| && r == s[..|r|]
    ensures r == [] || !IsSpace(r[|r| - 1])
    ensures forall i :: |r| <= i < |s| ==> IsSpace(s[i])
  {
    if s != [] && IsSpace(s[|s| - 1]) then TrimEnd(s[..|s| - 1]) else s
  }

  /** `s.strip()` */
  function Strip(s: string): (r: string)
    ensures r == [] || (!IsSpace(r[0]) && !IsSpace(r[|r| - 1]))
  {
    TrimEnd(TrimStart(s))
  }

  /** Stripping removes whitespace only, and only at the two ends: the result
      is a contiguous piece of `s` with nothing but whitespace before and
      after it. */
  lemma StripRemovesOuterSpace(s: string)
    ensures exists a, b :: 0 <= a <= b <= |s| && Strip(s) == s[a..b] &&
              (forall i :: 0 <= i < a ==> IsSpace(s[i])) && (forall i :: b <= i < |s| ==> IsSpace(s[i]))
  {
    var t := TrimStart(s);
    var a := |s| - |t|;
    var r := TrimEnd(t);
    var b := a + |r|;
    forall k | 0 <= k < |r|
      ensures r[k] == s[a + k]
    {
      assert r[k] == t[k] && t[k] == s[a + k];
    }
    assert r == s[a..b];
    forall i | b <= i < |s|
      ensures IsSpace(s[i])
    {
      assert s[i] == t[i - a];
    }
    assert 0 <= a <= b <= |s| && Strip(s) == s[a..b];
  }

  /** The length of the run of non-whitespace characters that `s` starts with. */
  function WordLength(s: string): (n: nat)
    ensures n <= |s|
    ensures NoSpace(s[..n])
    ensures n == |s| || IsSpace(s[n])
  {
    if s == [] || IsSpace(s[0]) then 0
    else
      var m := WordLength(s[1..]);
      assert s[..m + 1] == [s[0]] + s[1..][..m];
      m + 1
  }

  /** `s.split()`: the maximal runs of non-whitespace characters, in order. */
  function Words(s: string): (r: seq<string>)
    decreases |s|
    ensures forall k :: 0 <= k < |r| ==> |r[k]| > 0 && NoSpace(r[k])
  {
    var t := TrimStart(s);
    if t == [] then []
    else
      var n := WordLength(t);
      [t[..n]] + Words(t[n..])
  }

  /** A string made of whitespace only splits into no words. */
  lemma WordsOfBlank(s: string)
    requires forall i :: 0 <= i < |s| ==> IsSpace(s[i])
    ensures Words(s) == []
  {
  }

  /** Leading whitespace does not change the split. */
  lemma WordsAfterBlank(rest: string)
    ensures Words(" " + rest) == Words(rest)
  {
    assert (" " + rest)[1..] == rest;
    assert TrimStart(" " + rest) == TrimStart(rest);
  }

  /** Splitting a word followed by a blank and more text. */
  lemma WordsCons(w: string, rest: string)
    requires |w| > 0 && NoSpace(w)
    ensures Words(w + " " + rest) == [w] + Words(rest)
  {
    var s := w + " " + rest;
    assert s[0] == w[0];
    assert TrimStart(s) == s;
    assert s[..|w|] == w;
    WordLengthExact(s, |w|);
    assert s[|w|..] == " " + rest;
    WordsAfterBlank(rest);
  }

  /** Splitting a single word. */
  lemma WordsSingle(w: string)
    requires |w| > 0 && NoSpace(w)
    ensures Words(w) == [w]
  {
    assert TrimStart(w) == w;
    WordLengthExact(w, |w|);
    assert w[..|w|] == w;
    assert w[|w|..] == [];
    assert Words([]) == [];
  }

  lemma {:induction false} WordLengthExact(s: string, n: nat)
    requires n <= |s| && NoSpace(s[..n]) && (n == |s| || IsSpace(s[n]))
    ensures WordLength(s) == n
  {
    if n > 0 {
      assert s[0] == s[..n][0];
      assert s[1..][..n - 1] == s[..n][1..];
      WordLengthExact(s[1..], n - 1);
    } else if s != [] {
      assert IsSpace(s[0]);
    }
  }

  // ---------------------------------------------------------------------------
  // Python's `repr` of strings and lists of strings (no escaping)

  /** `repr(s)` for a string without quotes or backslashes in it. */
  function Quote(s: string): (r: string)
    ensures |r| == |s| + 2 && r[0] == '\'' && r[|r| - 1] == '\'' && r[1..|r| - 1] == s
  {
    "'" + s + "'"
  }

  /** Every element quoted, in order. */
  function QuoteAll(xs: seq<string>): (r: seq<string>)
    ensures |r| == |xs|
    ensures forall i :: 0 <= i < |xs| ==> r[i] == Quote(xs[i])
  {
    if xs == [] then [] else [Quote(xs[0])] + QuoteAll(xs[1..])
  }

  /** `repr(xs)` for a list of strings. */
  function ShowList(xs: seq<string>): string
  {
    "[" + Join(", ", QuoteAll(xs)) + "]"
  }

  // ---------------------------------------------------------------------------
  // Decimal numerals: `str(n)` for a natural number

  function DigitChar(d: nat): (c: char)
    requires d < 10
    ensures '0' <= c <= '9'
  {
    ('0' as int + d) as char
  }

  /** `str(n)`: the decimal digits of `n`, most significant first. */
  function ShowNat(n: nat): (r: string)
    ensures |r| > 0 && forall i :: 0 <= i < |r| ==> '0' <= r[i] <= '9'
  {
    if n < 10 then [DigitChar(n)] else ShowNat(n / 10) + [DigitChar(n % 10)]
  }

  // ---------------------------------------------------------------------------
  // Summaries

  /** `s[:n] + "..." if len(s) > n else s` */
  function Truncate(s: string, n: nat): (r: string)
    ensures |r| <= n + 3
    ensures |s| <= n ==> r == s
    ensures |s| > n ==> r == s[..n] + "..." && s[..n] <= s
  {
    if |s| > n then s[..n] + "..." else s
  }

  // ---------------------------------------------------------------------------
  // Error classification

  /** The agents' content-moderation test on an exception's text: its
      lower-cased form contains "403" and either "moderation" or "flagged". */
  predicate ModerationRejected(error: string)
  {
    var e := Lower(error);
    Contains(e, "403") && (Contains(e, "moderation") || Contains(e, "flagged"))
  }
}
