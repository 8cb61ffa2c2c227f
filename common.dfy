/**
 * Shared vocabulary of the audit backend: optional values and HTTP errors,
 * the four risk tiers, score maps (a Python dict of metric name to score,
 * kept in insertion order), exact arithmetic helpers and the ASCII string
 * operations the services use (`lower`, `strip`, `title`, `replace`).
 */
module Common {

  datatype Option<T> = None | Some(value: T)

  /** An HTTPException raised by a router: status code and detail text. */
  datatype HttpError = HttpError(status: int, detail: string)

  datatype Result<T> = Ok(value: T) | Err(error: HttpError)

  // ---------------------------------------------------------------------
  // Risk tiers
  // ---------------------------------------------------------------------

  datatype Level = LOW | MEDIUM | HIGH | CRITICAL

  /** The order LOW < MEDIUM < HIGH < CRITICAL. */
  function Rank(l: Level): nat
  {
    match l
    case LOW => 0
    case MEDIUM => 1
    case HIGH => 2
    case CRITICAL => 3
  }

  /** The string the backend stores and returns for a tier. */
  function LevelName(l: Level): string
  {
    match l
    case LOW => "LOW"
    case MEDIUM => "MEDIUM"
    case HIGH => "HIGH"
    case CRITICAL => "CRITICAL"
  }

  // ---------------------------------------------------------------------
  // Score maps
  // ---------------------------------------------------------------------

  datatype Metric = Metric(key: string, score: real)

  /** A dict `metric -> score`; iteration order is insertion order. */
  type ScoreMap = seq<Metric>

  function Keys(s: ScoreMap): (ks: seq<string>)
    ensures |ks| == |s| && forall i :: 0 <= i < |s| ==> ks[i] == s[i].key
  {
    seq(|s|, i requires 0 <= i < |s| => s[i].key)
  }

  function Values(s: ScoreMap): (vs: seq<real>)
    ensures |vs| == |s| && forall i :: 0 <= i < |s| ==> vs[i] == s[i].score
  {
    seq(|s|, i requires 0 <= i < |s| => s[i].score)
  }

  predicate InUnit(x: real)
  {
    0.0 <= x <= 1.0
  }

  predicate AllInUnit(xs: seq<real>)
  {
    forall i :: 0 <= i < |xs| ==> InUnit(xs[i])
  }

  // ---------------------------------------------------------------------
  // Exact arithmetic
  // ---------------------------------------------------------------------

  function SumOf(xs: seq<real>): real
  {
    if xs == [] then 0.0 else SumOf(xs[..|xs| - 1]) + xs[|xs| - 1]
  }

  /** `sum(xs) / len(xs)`; Python raises ZeroDivisionError on an empty list. */
  function MeanOf(xs: seq<real>): real
    requires |xs| > 0
  {
    SumOf(xs) / (|xs| as real)
  }

  lemma {:induction false} SumBounds(xs: seq<real>)
    requires AllInUnit(xs)
    ensures 0.0 <= SumOf(xs) <= |xs| as real
  {
    if xs != [] {
      SumBounds(xs[..|xs| - 1]);
    }
  }

  /** The mean of scores in [0, 1] lies in [0, 1]. */
  lemma MeanInUnit(xs: seq<real>)
    requires |xs| > 0 && AllInUnit(xs)
    ensures InUnit(MeanOf(xs))
  {
    SumBounds(xs);
    var n := |xs| as real;
    assert SumOf(xs) / n <= n / n;
  }

  /** Python `min(a, b)`: the first argument unless the second is smaller. */
  function MinReal(a: real, b: real): (r: real)
    ensures r <= a && r <= b && (r == a || r == b)
  {
    if b < a then b else a
  }

  function Abs(x: real): (r: real)
    ensures r >= 0.0 && (r == x || r == -x)
  {
    if x < 0.0 then -x else x
  }

  /**
   * The mean of a 0/1 series of length `n` with `k` ones. pandas yields NaN
   * for an empty series; the model yields 0.0 there.
   */
  function Fraction(k: nat, n: nat): (r: real)
    requires k <= n
    ensures InUnit(r)
    ensures n > 0 ==> r * (n as real) == k as real
  {
    if n == 0 then 0.0 else (k as real) / (n as real)
  }

  /**
   * Python's built-in `round(x)` on a number: the nearest integer, ties to
   * the even neighbour.
   */
  function RoundHalfEven(x: real): (r: int)
    ensures x - 0.5 <= r as real <= x + 0.5
    ensures (r as real == x - 0.5 || r as real == x + 0.5) ==> r % 2 == 0
  {
    var f := x.Floor;
    var d := x - f as real;
    if d < 0.5 then f
    else if d > 0.5 then f + 1
    else if f % 2 == 0 then f
    else f + 1
  }

  // ---------------------------------------------------------------------
  // List comprehensions with a condition
  // ---------------------------------------------------------------------

  /** `[x for x in xs if keep(x)]`. */
  function Filter<T>(keep: T -> bool, xs: seq<T>): (ys: seq<T>)
    ensures |ys| <= |xs|
  {
    if xs == [] then [] else Filter(keep, xs[..|xs| - 1]) + (if keep(xs[|xs| - 1]) then [xs[|xs| - 1]] else [])
  }

  /** An element that passes the test is kept exactly as often as it occurs. */
  lemma {:induction false} FilterKeeps<T>(keep: T -> bool, xs: seq<T>, x: T)
    requires keep(x)
    ensures multiset(Filter(keep, xs))[x] == multiset(xs)[x]
  {
    if xs != [] {
      var init, last := xs[..|xs| - 1], xs[|xs| - 1];
      assert xs == init + [last];
      FilterKeeps(keep, init, x);
    }
  }

  /** An element that fails the test is never kept. */
  lemma {:induction false} FilterDrops<T>(keep: T -> bool, xs: seq<T>, x: T)
    requires !keep(x)
    ensures multiset(Filter(keep, xs))[x] == 0
  {
    if xs != [] {
      FilterDrops(keep, xs[..|xs| - 1], x);
    }
  }

  /** Filtering keeps order: the filter of two parts is the first part's filter, then the second's. */
  lemma {:induction false} FilterConcat<T>(keep: T -> bool, a: seq<T>, b: seq<T>)
    ensures Filter(keep, a + b) == Filter(keep, a) + Filter(keep, b)
    decreases |b|
  {
    if b == [] {
      assert a + b == a;
    } else {
      var b' := b[..|b| - 1];
      assert (a + b)[..|a + b| - 1] == a + b';
      FilterConcat(keep, a, b');
    }
  }

  /** The present values of `f(x)` for `x` in `xs`, in order: a loop that appends only when there is a value. */
  function Collect<S, T>(f: S -> Option<T>, xs: seq<S>): (ys: seq<T>)
    ensures |ys| <= |xs|
  {
    if xs == [] then [] else Collect(f, xs[..|xs| - 1]) + (if f(xs[|xs| - 1]).Some? then [f(xs[|xs| - 1]).value] else [])
  }

  /** Collecting over two concatenated lists appends the two collections. */
  lemma {:induction false} CollectConcat<S, T>(f: S -> Option<T>, a: seq<S>, b: seq<S>)
    ensures Collect(f, a + b) == Collect(f, a) + Collect(f, b)
    decreases |b|
  {
    if b == [] {
      assert a + b == a;
    } else {
      var b' := b[..|b| - 1];
      assert (a + b)[..|a + b| - 1] == a + b';
      CollectConcat(f, a, b');
    }
  }

  /** The lists `f(x)` for `x` in `xs`, concatenated in order: a loop that extends by each one. */
  function FlatMap<S, T>(f: S -> seq<T>, xs: seq<S>): (ys: seq<T>)
    ensures xs == [] ==> ys == []
  {
    if xs == [] then [] else FlatMap(f, xs[..|xs| - 1]) + f(xs[|xs| - 1])
  }

  /** Over two concatenated lists, the concatenation of the two results. */
  lemma {:induction false} FlatMapConcat<S, T>(f: S -> seq<T>, a: seq<S>, b: seq<S>)
    ensures FlatMap(f, a + b) == FlatMap(f, a) + FlatMap(f, b)
    decreases |b|
  {
    if b == [] {
      assert a + b == a;
    } else {
      var b' := b[..|b| - 1];
      assert (a + b)[..|a + b| - 1] == a + b';
      FlatMapConcat(f, a, b');
    }
  }

  /** When each `f(x)` has at most `k` elements, the result has at most `k` per element. */
  lemma {:induction false} FlatMapBound<S, T>(f: S -> seq<T>, xs: seq<S>, k: nat)
    requires forall x :: |f(x)| <= k
    ensures |FlatMap(f, xs)| <= k * |xs|
  {
    if xs != [] {
      FlatMapBound(f, xs[..|xs| - 1], k);
    }
  }

  /** Every collected value satisfies what every present value of `f` satisfies. */
  lemma {:induction false} CollectAll<S, T>(f: S -> Option<T>, xs: seq<S>, p: T -> bool)
    requires forall x :: f(x).Some? ==> p(f(x).value)
    ensures forall i :: 0 <= i < |Collect(f, xs)| ==> p(Collect(f, xs)[i])
  {
    if xs != [] {
      CollectAll(f, xs[..|xs| - 1], p);
    }
  }

  // ---------------------------------------------------------------------
  // ASCII strings
  // ---------------------------------------------------------------------

  predicate IsUpper(c: char) { 'A' <= c <= 'Z' }

  predicate IsLower(c: char) { 'a' <= c <= 'z' }

  predicate IsCased(c: char) { IsUpper(c) || IsLower(c) }

  function LowerChar(c: char): char
  {
    if IsUpper(c) then (c as int + 32) as char else c
  }

  function UpperChar(c: char): char
  {
    if IsLower(c) then (c as int - 32) as char else c
  }

  /** `str.lower()` on ASCII letters. */
  function Lower(s: string): (r: string)
    ensures |r| == |s| && forall i :: 0 <= i < |s| ==> r[i] == LowerChar(s[i])
  {
    seq(|s|, i requires 0 <= i < |s| => LowerChar(s[i]))
  }

  lemma LowerIdempotent(s: string)
    ensures Lower(Lower(s)) == Lower(s)
  {
  }

  /** The characters `str.strip()` removes that are below U+0100. */
  predicate IsSpace(c: char)
  {
    var n := c as int;
    n == 32 || 9 <= n <= 13 || 28 <= n <= 31 || n == 0x85 || n == 0xA0
  }

  function StripLeft(s: string): (r: string)
    ensures |r| <= |s| && r == s[|s| - |r|..]
    ensures forall i :: 0 <= i < |s| - |r| ==> IsSpace(s[i])
    ensures r != [] ==> !IsSpace(r[0])
  {
    if s != [] && IsSpace(s[0]) then
      var r := StripLeft(s[1..]);
      assert s[1..][|s| - 1 - |r|..] == s[|s| - |r|..];
      assert forall i :: 1 <= i < |s| - |r| ==> s[i] == s[1..][i - 1];
      r
    else s
  }

  function StripRight(s: string): (r: string)
    ensures |r| <= |s| && r == s[..|r|]
    ensures forall i :: |r| <= i < |s| ==> IsSpace(s[i])
    ensures r != [] ==> !IsSpace(r[|r| - 1])
  {
    if s != [] && IsSpace(s[|s| - 1]) then StripRight(s[..|s| - 1]) else s
  }

  /** `r` is `s[a..b]`, and everything of `s` outside that slice is whitespace. */
  predicate StripSplit(s: string, r: string, a: int, b: int)
  {
    && 0 <= a <= b <= |s| && r == s[a..b]
    && (forall i :: 0 <= i < a ==> IsSpace(s[i]))
    && (forall i :: b <= i < |s| ==> IsSpace(s[i]))
  }

  /** Dropping whitespace from the left and then from the right leaves one slice with whitespace around it. */
  lemma StripParts(s: string, l: string, r: string)
    requires |l| <= |s| && l == s[|s| - |l|..] && forall i :: 0 <= i < |s| - |l| ==> IsSpace(s[i])
    requires |r| <= |l| && r == l[..|r|] && forall i :: |r| <= i < |l| ==> IsSpace(l[i])
    ensures StripSplit(s, r, |s| - |l|, |s| - |l| + |r|)
  {
    var a := |s| - |l|;
    forall i | a + |r| <= i < |s| ensures IsSpace(s[i]) {
      assert s[i] == l[i - a];
    }
  }

  /**
   * `str.strip()`: the slice left after dropping leading and trailing
   * whitespace; it neither starts nor ends with whitespace.
   */
  function Strip(s: string): (r: string)
    ensures exists a, b :: StripSplit(s, r, a, b)
    ensures r != [] ==> !IsSpace(r[0]) && !IsSpace(r[|r| - 1])
  {
    var l := StripLeft(s);
    var r := StripRight(l);
    StripParts(s, l, r);
    r
  }

  /** `s.replace(a, b)` for single characters. */
  function ReplaceChar(s: string, a: char, b: char): (r: string)
    ensures |r| == |s|
    ensures forall i :: 0 <= i < |s| ==> r[i] == (if s[i] == a then b else s[i])
  {
    seq(|s|, i requires 0 <= i < |s| => if s[i] == a then b else s[i])
  }

  /**
   * `str.title()` on ASCII: a letter is upper-cased when the character before
   * it is not a letter, lower-cased otherwise; other characters are kept.
   */
  function TitleChar(c: char, prevCased: bool): char
  {
    if !IsCased(c) then c else if prevCased then LowerChar(c) else UpperChar(c)
  }

  function TitleFrom(s: string, prevCased: bool): (r: string)
    ensures |r| == |s|
    ensures |s| > 0 ==> r[0] == TitleChar(s[0], prevCased)
    ensures forall i :: 0 < i < |s| ==> r[i] == TitleChar(s[i], IsCased(s[i - 1]))
  {
    if s == [] then []
    else
      var rest := TitleFrom(s[1..], IsCased(s[0]));
      assert forall i :: 0 < i < |s| ==> rest[i - 1] == TitleChar(s[i], IsCased(s[i - 1])) by {
        forall i | 0 < i < |s| ensures rest[i - 1] == TitleChar(s[i], IsCased(s[i - 1])) {
          if i > 1 {
            assert s[1..][i - 1] == s[i] && s[1..][i - 2] == s[i - 1];
          }
        }
      }
      [TitleChar(s[0], prevCased)] + rest
  }

  function Title(s: string): string
  {
    TitleFrom(s, false)
  }

  /** Whether `pat` occurs in `s` starting at position `i`. */
  predicate OccursAt(s: string, pat: string, i: nat)
  {
    i + |pat| <= |s| && s[i..i + |pat|] == pat
  }

  /** `pat in s`: an occurrence at the start, or one further on. */
  predicate Contains(s: string, pat: string)
    decreases |s|
  {
    OccursAt(s, pat, 0) || (s != [] && Contains(s[1..], pat))
  }

  /**
   * `s.replace(pat, rep)`: every non-overlapping occurrence of `pat`, found
   * from left to right, is replaced by `rep`.
   */
  function ReplaceAll(s: string, pat: string, rep: string): (r: string)
    requires |pat| > 0
    ensures !Contains(s, pat) ==> r == s
    ensures rep == [] ==> |r| <= |s|
    decreases |s|
  {
    if |s| < |pat| then
      s
    else if s[..|pat|] == pat then
      assert OccursAt(s, pat, 0);
      rep + ReplaceAll(s[|pat|..], pat, rep)
    else
      var rest := ReplaceAll(s[1..], pat, rep);
      [s[0]] + rest
  }

  /** An occurrence at the start is replaced, and the scan resumes after it. */
  lemma ReplaceAllLeading(pat: string, u: string, rep: string)
    requires |pat| > 0
    ensures ReplaceAll(pat + u, pat, rep) == rep + ReplaceAll(u, pat, rep)
  {
    var v := pat + u;
    assert v[..|pat|] == pat;
    assert v[|pat|..] == u;
  }

  /** A text that does not start with the pattern's first character keeps its first character. */
  lemma ReplaceAllCopiesFirst(v: string, pat: string, rep: string)
    requires |pat| > 0 && v != [] && v[0] != pat[0]
    ensures ReplaceAll(v, pat, rep) == [v[0]] + ReplaceAll(v[1..], pat, rep)
  {
    if |v| >= |pat| {
      assert v[..|pat|][0] == v[0];
    }
  }

  /**
   * A prefix in which the pattern's first character never appears holds no
   * occurrence, so the scan copies it unchanged.
   */
  lemma {:induction false} ReplaceAllSkips(t: string, u: string, pat: string, rep: string)
    requires |pat| > 0
    requires pat[0] !in t
    ensures ReplaceAll(t + u, pat, rep) == t + ReplaceAll(u, pat, rep)
    decreases |t|
  {
    if t == [] {
      assert t + u == u;
    } else {
      var rest := ReplaceAll(u, pat, rep);
      assert ReplaceAll(t + u, pat, rep) == [t[0]] + ReplaceAll(t[1..] + u, pat, rep) by {
        assert t[0] in t;
        ReplaceAllCopiesFirst(t + u, pat, rep);
        assert (t + u)[1..] == t[1..] + u;
      }
      assert ReplaceAll(t[1..] + u, pat, rep) == t[1..] + rest by {
        assert t == [t[0]] + t[1..];
        ReplaceAllSkips(t[1..], u, pat, rep);
      }
      assert [t[0]] + (t[1..] + rest) == t + rest by { assert t == [t[0]] + t[1..]; }
    }
  }

  predicate IsDigits(s: string)
  {
    forall i :: 0 <= i < |s| ==> '0' <= s[i] <= '9'
  }

  /** The number a string of decimal digits denotes, most significant digit first. */
  function DigitsValue(s: string): nat
    requires IsDigits(s)
  {
    if s == [] then 0 else DigitsValue(s[..|s| - 1]) * 10 + (s[|s| - 1] as int - 48)
  }

  /** Decimal digits of a natural number, as `str(n)` prints it: they spell n, with no leading zero. */
  function NatToString(n: nat): (r: string)
    ensures |r| > 0 && IsDigits(r)
    ensures DigitsValue(r) == n
    ensures r[0] == '0' <==> n == 0
  {
    var d := [(48 + n % 10) as char];
    if n < 10 then d
    else
      var high := NatToString(n / 10);
      assert (high + d)[..|high|] == high;
      high + d
  }
}
