/**
 The few pieces of JavaScript semantics the job handler relies on: optional
 values, the truthiness of strings behind `&&` and `||`, `String.prototype.slice`
 with one argument, `Array.prototype.join`, the decimal rendering of a count in
 a template literal, and substring occurrence (used to state what a log line
 does or does not reveal).
 */
module Js {

  /** A value that may be absent (`undefined` in the source). */
  datatype Option<+T> = None | Some(value: T)

  function Min(a: int, b: int): int { if a <= b then a else b }

  /** Property access on a string-valued object: `m[k]`, absent when `k` is not a key. */
  function Lookup(m: map<string, string>, k: string): (r: Option<string>)
    ensures r.Some? <==> k in m
    ensures r.Some? ==> r.value == m[k]
  {
    if k in m then Some(m[k]) else None
  }

  /** A string, or its absence, is truthy exactly when it is present and not empty. */
  predicate Truthy(a: Option<string>) {
    a.Some? && a.value != ""
  }

  /** `a || fallback` for an optional string `a`. */
  function Or(a: Option<string>, fallback: string): (r: string)
    ensures Truthy(a) ==> r == a.value
    ensures !Truthy(a) ==> r == fallback
    ensures fallback != "" ==> r != ""
  {
    if Truthy(a) then a.value else fallback
  }

  /**
   `s.slice(start)`: a negative `start` counts back from the end and is clamped
   at 0, a non-negative one is clamped at `|s|`. The result is always a suffix.
   */
  function SliceFrom(s: string, start: int): (r: string)
    ensures |r| <= |s| && r == s[|s| - |r|..]
    ensures start < 0 ==> |r| == Min(-start, |s|)
    ensures start >= 0 ==> |r| == |s| - Min(start, |s|)
  {
    var from := if start < 0 then (if |s| + start < 0 then 0 else |s| + start)
                else (if start < |s| then start else |s|);
    s[from..]
  }

  /** `xs.join(sep)`. */
  function Join(xs: seq<string>, sep: string): string
  {
    if |xs| == 0 then ""
    else if |xs| == 1 then xs[0]
    else xs[0] + sep + Join(xs[1..], sep)
  }

  /** Where element `i` of `xs` starts inside `Join(xs, sep)`. */
  function Offset(xs: seq<string>, sep: string, i: nat): nat
    requires i < |xs|
  {
    if i == 0 then 0 else |xs[0]| + |sep| + Offset(xs[1..], sep, i - 1)
  }

  /** Element `i` of `xs` sits at `Offset(xs, sep, i)` inside `Join(xs, sep)`; the last one ends it. */
  lemma {:induction false} JoinElementAt(xs: seq<string>, sep: string, i: nat)
    requires i < |xs|
    ensures Offset(xs, sep, i) + |xs[i]| <= |Join(xs, sep)|
    ensures Join(xs, sep)[Offset(xs, sep, i)..Offset(xs, sep, i) + |xs[i]|] == xs[i]
    ensures i + 1 == |xs| ==> Offset(xs, sep, i) + |xs[i]| == |Join(xs, sep)|
  {
    if |xs| == 1 {
      assert Join(xs, sep) == xs[0];
    } else {
      var head, rest := xs[0] + sep, Join(xs[1..], sep);
      assert Join(xs, sep) == head + rest;
      if i == 0 {
        assert (head + rest)[..|xs[0]|] == xs[0];
      } else {
        JoinElementAt(xs[1..], sep, i - 1);
        assert xs[1..][i - 1] == xs[i];
        var k, o := |head|, Offset(xs[1..], sep, i - 1);
        assert Offset(xs, sep, i) == k + o;
        assert |Join(xs, sep)| == k + |rest|;
        SliceOfAppend(head, rest, k + o, k + o + |xs[i]|);
      }
    }
  }

  /** Between element `i` and element `i + 1` of `xs`, `Join(xs, sep)` holds exactly `sep`. */
  lemma {:induction false} JoinSeparatorAfter(xs: seq<string>, sep: string, i: nat)
    requires i + 1 < |xs|
    ensures Offset(xs, sep, i + 1) == Offset(xs, sep, i) + |xs[i]| + |sep|
    ensures Offset(xs, sep, i + 1) <= |Join(xs, sep)|
    ensures Join(xs, sep)[Offset(xs, sep, i) + |xs[i]|..Offset(xs, sep, i + 1)] == sep
  {
    var head, rest := xs[0] + sep, Join(xs[1..], sep);
    assert Join(xs, sep) == head + rest;
    var k := |head|;
    if i == 0 {
      assert Offset(xs, sep, 1) == k;
      assert head[|xs[0]|..k] == sep;
    } else {
      JoinSeparatorAfter(xs[1..], sep, i - 1);
      assert xs[1..][i - 1] == xs[i];
      var o, o' := Offset(xs[1..], sep, i - 1), Offset(xs[1..], sep, i);
      assert Offset(xs, sep, i) == k + o && Offset(xs, sep, i + 1) == k + o';
      SliceOfAppend(head, rest, k + o + |xs[i]|, k + o');
    }
  }

  /** A slice of `a + b` that lies beyond `a` is a slice of `b`. */
  lemma SliceOfAppend(a: string, b: string, lo: int, hi: int)
    requires |a| <= lo <= hi <= |a| + |b|
    ensures (a + b)[lo..hi] == b[lo - |a|..hi - |a|]
  {
    assert forall n :: lo <= n < hi ==> (a + b)[n] == b[n - |a|];
  }

  predicate IsDigit(c: char) { '0' <= c <= '9' }

  /** Every character of `s` is a decimal digit. */
  predicate AllDigits(s: string) { forall i :: 0 <= i < |s| ==> IsDigit(s[i]) }

  /** The decimal digits of a non-negative integer, as `${n}` renders a count. */
  function DecimalString(n: nat): (r: string)
    ensures |r| >= 1
    ensures AllDigits(r)
    ensures r[0] == '0' ==> n == 0
  {
    if n < 10 then ["0123456789"[n]] else DecimalString(n / 10) + ["0123456789"[n % 10]]
  }

  /** The number a string of decimal digits denotes. */
  function ParseDecimal(s: string): nat
    requires AllDigits(s)
  {
    if |s| == 0 then 0
    else
      var c := s[|s| - 1];
      assert IsDigit(c);
      10 * ParseDecimal(s[..|s| - 1]) + ((c as int) - ('0' as int))
  }

  /** The rendering of a count is read back as the same count. */
  lemma {:induction false} DecimalRoundTrip(n: nat)
    ensures ParseDecimal(DecimalString(n)) == n
  {
    var s := DecimalString(n);
    if n >= 10 {
      DecimalRoundTrip(n / 10);
      assert s == DecimalString(n / 10) + ["0123456789"[n % 10]];
      assert s[..|s| - 1] == DecimalString(n / 10);
    }
  }

  /** `t` occurs in `s` as a contiguous substring (`s.includes(t)`). */
  ghost predicate Contains(s: string, t: string) {
    exists i :: OccursAt(s, t, i)
  }

  /** `t` occurs in `s` starting at index `i`. */
  predicate OccursAt(s: string, t: string, i: int) {
    0 <= i <= |s| - |t| && s[i..i + |t|] == t
  }
}
