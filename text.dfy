// The JavaScript string operations the dashboard relies on: case
// conversion, `includes`, `startsWith`, `indexOf`, `replace` with a string
// pattern, `split` and `join` on one separator, and integer `toString`.
// Case conversion covers ASCII letters only.
module Text {
  import opened Outcomes

  function LowerChar(c: char): char {
    if 'A' <= c <= 'Z' then (c as int + 32) as char else c
  }

  function UpperChar(c: char): char {
    if 'a' <= c <= 'z' then (c as int - 32) as char else c
  }

  /** `String.prototype.toLowerCase`, on ASCII letters. */
  function ToLower(s: string): (r: string)
    ensures |r| == |s|
    ensures forall i :: 0 <= i < |s| ==> r[i] == LowerChar(s[i])
  {
    seq(|s|, i requires 0 <= i < |s| => LowerChar(s[i]))
  }

  /** `String.prototype.toUpperCase`, on ASCII letters. */
  function ToUpper(s: string): (r: string)
    ensures |r| == |s|
    ensures forall i :: 0 <= i < |s| ==> r[i] == UpperChar(s[i])
  {
    seq(|s|, i requires 0 <= i < |s| => UpperChar(s[i]))
  }

  /** `pat` occurs in `s` starting at index `i`. */
  predicate OccursAt(s: string, pat: string, i: nat) {
    i + |pat| <= |s| && s[i..i + |pat|] == pat
  }

  /** `s.includes(pat)`. */
  predicate Contains(s: string, pat: string) {
    exists i: nat | i <= |s| :: OccursAt(s, pat, i)
  }

  /** `s.startsWith(pat)`. */
  predicate StartsWith(s: string, pat: string) {
    |pat| <= |s| && s[..|pat|] == pat
  }

  lemma OccursAtTail(s: string, pat: string, k: nat)
    requires |s| > 0
    ensures OccursAt(s, pat, k + 1) <==> OccursAt(s[1..], pat, k)
  {
    if k + 1 + |pat| <= |s| {
      assert s[1..][k..k + |pat|] == s[k + 1..k + 1 + |pat|];
    }
  }

  /** `s.indexOf(pat)`: the first index at which `pat` occurs, if any. */
  function IndexOf(s: string, pat: string): (r: Option<nat>)
    ensures r.Some? ==> r.value + |pat| <= |s|
    decreases |s|
  {
    if |s| < |pat| then None
    else if s[..|pat|] == pat then Some(0)
    else Shift(IndexOf(s[1..], pat), 1)
  }

  function Shift(o: Option<nat>, n: nat): Option<nat> {
    match o
    case None => None
    case Some(k) => Some(n + k)
  }

  /** `IndexOf` finds an occurrence, the first one, and finds none only
      when there is none. */
  lemma {:induction false} IndexOfSpec(s: string, pat: string)
    ensures IndexOf(s, pat).Some? ==> OccursAt(s, pat, IndexOf(s, pat).value)
    ensures IndexOf(s, pat).Some? ==>
              forall j: nat :: j < IndexOf(s, pat).value ==> !OccursAt(s, pat, j)
    ensures IndexOf(s, pat).None? <==> !Contains(s, pat)
    decreases |s|
  {
    if |s| < |pat| {
    } else if s[..|pat|] == pat {
      assert OccursAt(s, pat, 0);
    } else {
      IndexOfSpec(s[1..], pat);
      forall j: nat ensures OccursAt(s, pat, j) <==> j > 0 && OccursAt(s[1..], pat, j - 1) {
        if j > 0 { OccursAtTail(s, pat, j - 1); }
      }
      if IndexOf(s[1..], pat).Some? {
        var k := IndexOf(s[1..], pat).value;
        assert OccursAt(s, pat, k + 1);
      } else {
        assert !Contains(s, pat);
      }
    }
  }

  /** `s.replace(pat, rep)` with a string pattern: only the first occurrence
      is replaced, and `s` comes back unchanged when `pat` does not occur. */
  function ReplaceFirst(s: string, pat: string, rep: string): (r: string)
  {
    match IndexOf(s, pat)
    case None => s
    case Some(i) => s[..i] + rep + s[i + |pat|..]
  }

  lemma ReplaceFirstAbsent(s: string, pat: string, rep: string)
    requires !Contains(s, pat)
    ensures ReplaceFirst(s, pat, rep) == s
  {
    IndexOfSpec(s, pat);
  }

  /** When the first character of `pat` never appears in `a`, searching
      `a + t` finds exactly what searching `t` finds, shifted by `|a|`. */
  lemma {:induction false} IndexOfAfter(a: string, t: string, pat: string)
    requires pat != [] && pat[0] !in a
    ensures IndexOf(a + t, pat) == Shift(IndexOf(t, pat), |a|)
    decreases |a|
  {
    if a == [] {
      assert a + t == t;
    } else {
      var s := a + t;
      if |s| < |pat| {
        assert IndexOf(t, pat) == None;
      } else {
        assert s[..|pat|][0] == a[0];
        assert s[..|pat|] != pat;
        assert s[1..] == a[1..] + t;
        IndexOfAfter(a[1..], t, pat);
        assert IndexOf(s, pat) == Shift(IndexOf(s[1..], pat), 1);
      }
    }
  }

  /** `ReplaceFirst` leaves a prefix untouched when the pattern cannot start in it. */
  lemma ReplaceFirstAfter(a: string, t: string, pat: string, rep: string)
    requires pat != [] && pat[0] !in a
    ensures ReplaceFirst(a + t, pat, rep) == a + ReplaceFirst(t, pat, rep)
  {
    IndexOfAfter(a, t, pat);
    var found := IndexOf(t, pat);
    if found.Some? {
      var k := found.value;
      var s := a + t;
      assert IndexOf(s, pat) == Some(|a| + k);
      ConcatAround(a, t, k, |pat|);
      calc {
        ReplaceFirst(s, pat, rep);
        s[..|a| + k] + rep + s[|a| + k + |pat|..];
        (a + t[..k]) + rep + t[k + |pat|..];
        a + (t[..k] + rep + t[k + |pat|..]);
        a + ReplaceFirst(t, pat, rep);
      }
    }
  }

  /** `replace` with a string pattern rewrites exactly the first occurrence:
      if `pat` occurs at `i` and nowhere before, the result is `s` with that
      window replaced by `rep`. */
  lemma ReplaceFirstFound(s: string, pat: string, rep: string, i: nat)
    requires OccursAt(s, pat, i)
    requires forall j: nat :: j < i ==> !OccursAt(s, pat, j)
    ensures ReplaceFirst(s, pat, rep) == s[..i] + rep + s[i + |pat|..]
  {
    FirstOccurrenceIsIndexOf(s, pat, i);
  }

  lemma FirstOccurrenceIsIndexOf(s: string, pat: string, i: nat)
    requires OccursAt(s, pat, i)
    requires forall j: nat :: j < i ==> !OccursAt(s, pat, j)
    ensures IndexOf(s, pat) == Some(i)
  {
    IndexOfSpec(s, pat);
    assert Contains(s, pat);
  }

  /** Cutting `a + t` around a window of `t` cuts `t` there. */
  lemma ConcatAround(a: string, t: string, k: nat, m: nat)
    requires k + m <= |t|
    ensures (a + t)[..|a| + k] == a + t[..k]
    ensures (a + t)[|a| + k + m..] == t[k + m..]
  {
  }

  /** `xs.join(sep)`. */
  function Join(xs: seq<string>, sep: string): string
  {
    if |xs| == 0 then []
    else if |xs| == 1 then xs[0]
    else xs[0] + sep + Join(xs[1..], sep)
  }

  /** `s.split(sep)` with a one-character separator: never empty, and the
      empty string splits into one empty field. */
  function Split(s: string, sep: char): (r: seq<string>)
    ensures |r| >= 1
    ensures forall k :: 0 <= k < |r| ==> sep !in r[k]
    decreases |s|
  {
    if s == [] then [[]]
    else if s[0] == sep then [[]] + Split(s[1..], sep)
    else
      var rest := Split(s[1..], sep);
      [[s[0]] + rest[0]] + rest[1..]
  }

  lemma {:induction false} SplitNoSep(x: string, sep: char)
    requires sep !in x
    ensures Split(x, sep) == [x]
    decreases |x|
  {
    if x != [] {
      SplitNoSep(x[1..], sep);
      assert [x[0]] + x[1..] == x;
    }
  }

  lemma {:induction false} SplitField(x: string, sep: char, rest: string)
    requires sep !in x
    ensures Split(x + [sep] + rest, sep) == [x] + Split(rest, sep)
    decreases |x|
  {
    var s := x + [sep] + rest;
    if x == [] {
      assert s[0] == sep && s[1..] == rest;
    } else {
      assert s[0] == x[0] && s[1..] == x[1..] + [sep] + rest;
      SplitField(x[1..], sep, rest);
      assert [x[0]] + x[1..] == x;
    }
  }

  /** Splitting undoes joining, provided no field holds the separator. */
  lemma {:induction false} SplitJoin(xs: seq<string>, sep: char)
    requires |xs| >= 1
    requires forall k :: 0 <= k < |xs| ==> sep !in xs[k]
    ensures Split(Join(xs, [sep]), sep) == xs
    decreases |xs|
  {
    if |xs| == 1 {
      SplitNoSep(xs[0], sep);
    } else {
      SplitJoin(xs[1..], sep);
      SplitField(xs[0], sep, Join(xs[1..], [sep]));
      assert [xs[0]] + xs[1..] == xs;
    }
  }

  function DigitChar(d: nat): (c: char)
    requires d < 10
    ensures '0' <= c <= '9'
  {
    ('0' as int + d) as char
  }

  /** `n.toString()` for a non-negative integer: its decimal digits. */
  function NatToString(n: nat): (r: string)
    ensures |r| >= 1
    ensures forall k :: 0 <= k < |r| ==> '0' <= r[k] <= '9'
  {
    if n < 10 then [DigitChar(n)] else NatToString(n / 10) + [DigitChar(n % 10)]
  }

  /** `n.toString()` for an integer: a minus sign before negative numbers. */
  function IntToString(n: int): (r: string)
    ensures forall k :: 0 <= k < |r| ==> r[k] == '-' || '0' <= r[k] <= '9'
  {
    if n < 0 then "-" + NatToString(-n) else NatToString(n)
  }

  predicate AllDigits(s: string) {
    forall k :: 0 <= k < |s| ==> '0' <= s[k] <= '9'
  }

  /** The number a string of decimal digits denotes, as `parseInt` reads it. */
  function DigitsValue(s: string): nat
    requires AllDigits(s)
    decreases |s|
  {
    if s == [] then 0 else DigitsValue(s[..|s| - 1]) * 10 + (s[|s| - 1] as int - '0' as int)
  }

  /** Reading back the digits of `n.toString()` gives `n`. */
  lemma {:induction false} NatToStringRoundTrip(n: nat)
    ensures DigitsValue(NatToString(n)) == n
  {
    var s := NatToString(n);
    if n >= 10 {
      NatToStringRoundTrip(n / 10);
      assert s[..|s| - 1] == NatToString(n / 10);
    }
  }
}
