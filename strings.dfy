/**
 * The Python string and list primitives the metrics store and the answer
 * assembly rely on: prefix truncation `s[:n]`, the tail slice `s[start:]`,
 * reversal `s[::-1]`, `sep.join(xs)`, `str.strip()`, a one-character
 * `str.replace` and `str(n)` for a non-negative integer.
 */
module Strings {

  function Min(a: int, b: int): int {
    if a <= b then a else b
  }

  /** Python `s[:n]` for n >= 0: the longest prefix of `s` of length at most `n`. */
  function Truncate<T>(s: seq<T>, n: nat): (r: seq<T>)
    ensures r <= s
    ensures |r| == Min(|s|, n)
  {
    if |s| <= n then s else s[..n]
  }

  /**
   * Python `s[start:]` for any integer `start`: a negative start counts from
   * the end and is clipped at the front; a start past the end gives `[]`.
   */
  function SliceFrom<T>(s: seq<T>, start: int): (r: seq<T>)
    ensures |r| <= |s| && r == s[|s| - |r|..]
    ensures start >= 0 ==> |r| == if start <= |s| then |s| - start else 0
    ensures start < 0 ==> |r| == Min(-start, |s|)
  {
    var from :=
      if start < 0 then (if start + |s| < 0 then 0 else start + |s|)
      else if start > |s| then |s| else start;
    s[from..]
  }

  /** Python `s[::-1]`. */
  function Reverse<T>(s: seq<T>): (r: seq<T>)
    ensures |r| == |s|
    ensures forall i :: 0 <= i < |s| ==> r[i] == s[|s| - 1 - i]
  {
    if s == [] then [] else Reverse(s[1..]) + [s[0]]
  }

  /** Python `s[-k:][::-1]`. */
  function NewestFirst<T>(s: seq<T>, k: int): seq<T> {
    Reverse(SliceFrom(s, -k))
  }

  /** For k >= 1, `s[-k:][::-1]` is the last min(k, |s|) elements of `s`, newest first. */
  lemma NewestFirstWindow<T>(s: seq<T>, k: int)
    requires k >= 1
    ensures var w := NewestFirst(s, k);
      |w| == Min(k, |s|) && forall i :: 0 <= i < |w| ==> w[i] == s[|s| - 1 - i]
  {
    var w := SliceFrom(s, -k);
    assert w == s[|s| - |w|..];
    forall i | 0 <= i < Min(k, |s|)
      ensures Reverse(w)[i] == s[|s| - 1 - i]
    {
      assert Reverse(w)[i] == w[|w| - 1 - i];
    }
  }

  /** Every element of `s[-k:][::-1]` is an element of `s`. */
  lemma NewestFirstFromSource<T>(s: seq<T>, k: int)
    ensures forall i :: 0 <= i < |NewestFirst(s, k)| ==> NewestFirst(s, k)[i] in s
  {
    var w := SliceFrom(s, -k);
    forall i | 0 <= i < |NewestFirst(s, k)| ensures NewestFirst(s, k)[i] in s {
      var j := |w| - 1 - i;
      assert NewestFirst(s, k)[i] == w[j];
      assert w[j] == s[|s| - |w| + j];
    }
  }

  // ---------------------------------------------------------------------
  // sep.join(xs)

  /** `sep.join(xs)`: the items in order, `sep` between consecutive ones. */
  function Join(xs: seq<string>, sep: string): string {
    if |xs| == 0 then ""
    else if |xs| == 1 then xs[0]
    else xs[0] + sep + Join(xs[1..], sep)
  }

  /** Sum of the lengths of the items. */
  function TotalLength(xs: seq<string>): nat {
    if xs == [] then 0 else |xs[0]| + TotalLength(xs[1..])
  }

  /** Where item `i` starts in `Join(xs, sep)`: the items before it and one separator after each. */
  function ItemOffset(xs: seq<string>, sep: string, i: nat): nat
    requires i <= |xs|
  {
    if i == 0 then 0 else ItemOffset(xs, sep, i - 1) + |xs[i - 1]| + |sep|
  }

  lemma {:induction false} JoinLength(xs: seq<string>, sep: string)
    ensures |Join(xs, sep)| == if xs == [] then 0 else TotalLength(xs) + (|xs| - 1) * |sep|
  {
    if |xs| > 1 {
      JoinLength(xs[1..], sep);
    }
  }

  lemma {:induction false} ItemOffsetShift(xs: seq<string>, sep: string, i: nat)
    requires 1 <= i <= |xs|
    ensures ItemOffset(xs, sep, i) == |xs[0]| + |sep| + ItemOffset(xs[1..], sep, i - 1)
  {
    if i > 1 {
      ItemOffsetShift(xs, sep, i - 1);
    }
  }

  lemma SliceAfterPrefix(j: string, p: string, t: string, a: nat, b: nat)
    requires j == p + t && a <= b <= |t|
    ensures j[|p| + a..|p| + b] == t[a..b]
  {
  }

  /** A join of two or more items is the first item, a separator and the join of the rest. */
  lemma JoinCons(xs: seq<string>, sep: string)
    requires |xs| >= 2
    ensures Join(xs, sep) == (xs[0] + sep) + Join(xs[1..], sep)
  {
  }

  /** Item `i` of `Join(xs, sep)` sits at its offset; the last item ends the text. */
  lemma {:induction false} JoinItemAt(xs: seq<string>, sep: string, i: nat)
    requires i < |xs|
    ensures ItemOffset(xs, sep, i) + |xs[i]| <= |Join(xs, sep)|
    ensures Join(xs, sep)[ItemOffset(xs, sep, i)..ItemOffset(xs, sep, i) + |xs[i]|] == xs[i]
    ensures i + 1 == |xs| ==> ItemOffset(xs, sep, i) + |xs[i]| == |Join(xs, sep)|
  {
    var j := Join(xs, sep);
    if i == 0 {
      if |xs| > 1 {
        JoinCons(xs, sep);
        assert j[..|xs[0]|] == xs[0];
      }
    } else {
      var rest := xs[1..];
      var head := xs[0] + sep;
      var jr := Join(rest, sep);
      JoinCons(xs, sep);
      JoinItemAt(rest, sep, i - 1);
      ItemOffsetShift(xs, sep, i);
      var o := ItemOffset(rest, sep, i - 1);
      assert rest[i - 1] == xs[i];
      SliceAfterPrefix(j, head, jr, o, o + |xs[i]|);
    }
  }

  /** Between item `i` and item `i + 1` of `Join(xs, sep)` there is exactly one separator. */
  lemma {:induction false} JoinSeparatorAfter(xs: seq<string>, sep: string, i: nat)
    requires i + 1 < |xs|
    ensures ItemOffset(xs, sep, i) + |xs[i]| <= ItemOffset(xs, sep, i + 1) <= |Join(xs, sep)|
    ensures Join(xs, sep)[ItemOffset(xs, sep, i) + |xs[i]|..ItemOffset(xs, sep, i + 1)] == sep
  {
    var j := Join(xs, sep);
    var rest := xs[1..];
    var head := xs[0] + sep;
    var jr := Join(rest, sep);
    JoinCons(xs, sep);
    if i == 0 {
      assert ItemOffset(xs, sep, 1) == |xs[0]| + |sep|;
      assert j[|xs[0]|..|xs[0]| + |sep|] == sep;
    } else {
      JoinSeparatorAfter(rest, sep, i - 1);
      ItemOffsetShift(xs, sep, i);
      ItemOffsetShift(xs, sep, i + 1);
      assert rest[i - 1] == xs[i];
      var from := ItemOffset(rest, sep, i - 1) + |xs[i]|;
      var to := ItemOffset(rest, sep, i);
      SliceAfterPrefix(j, head, jr, from, to);
    }
  }

  /**
   * `Join(xs, sep)` holds each item at its offset, followed (except for the
   * last one) by exactly one separator: no separator at either end.
   */
  lemma JoinPlacesItems(xs: seq<string>, sep: string, i: nat)
    requires i < |xs|
    ensures ItemOffset(xs, sep, i) + |xs[i]| <= |Join(xs, sep)|
    ensures Join(xs, sep)[ItemOffset(xs, sep, i)..ItemOffset(xs, sep, i) + |xs[i]|] == xs[i]
    ensures i + 1 < |xs| ==> ItemOffset(xs, sep, i + 1) <= |Join(xs, sep)|
    ensures i + 1 < |xs| ==>
      Join(xs, sep)[ItemOffset(xs, sep, i) + |xs[i]|..ItemOffset(xs, sep, i + 1)] == sep
    ensures i + 1 == |xs| ==> ItemOffset(xs, sep, i) + |xs[i]| == |Join(xs, sep)|
  {
    JoinItemAt(xs, sep, i);
    if i + 1 < |xs| {
      JoinSeparatorAfter(xs, sep, i);
    }
  }

  // ---------------------------------------------------------------------
  // str.strip()

  /** Python `str.isspace()` for one character (Unicode whitespace). */
  predicate IsSpace(c: char) {
    || c == ' '
    || ('\t' <= c <= '\r')
    || ('\U{1c}' <= c <= '\U{1f}')
    || c == '\U{85}' || c == '\U{a0}' || c == '\U{1680}'
    || ('\U{2000}' <= c <= '\U{200a}')
    || c == '\U{2028}' || c == '\U{2029}' || c == '\U{202f}' || c == '\U{205f}'
    || c == '\U{3000}'
  }

  predicate AllSpace(s: string) {
    forall i :: 0 <= i < |s| ==> IsSpace(s[i])
  }

  function StripStart(s: string): string {
    if s != [] && IsSpace(s[0]) then StripStart(s[1..]) else s
  }

  function StripEnd(s: string): string {
    if s != [] && IsSpace(s[|s| - 1]) then StripEnd(s[..|s| - 1]) else s
  }

  /** Python `s.strip()`. */
  function Strip(s: string): string {
    StripEnd(StripStart(s))
  }

  lemma {:induction false} StripStartEmpty(s: string)
    ensures StripStart(s) == [] <==> AllSpace(s)
    ensures StripStart(s) != [] ==> !IsSpace(StripStart(s)[0])
  {
    if s != [] && IsSpace(s[0]) {
      StripStartEmpty(s[1..]);
      assert AllSpace(s) <==> AllSpace(s[1..]) by {
        if AllSpace(s[1..]) {
          forall i | 0 <= i < |s| ensures IsSpace(s[i]) {
            if i > 0 { assert s[i] == s[1..][i - 1]; }
          }
        }
      }
    }
  }

  lemma {:induction false} StripEndKeepsHead(s: string)
    requires s != [] && !IsSpace(s[0])
    ensures StripEnd(s) != [] && StripEnd(s)[0] == s[0]
  {
    if IsSpace(s[|s| - 1]) {
      assert |s| > 1;
      StripEndKeepsHead(s[..|s| - 1]);
    }
  }

  /** `s.strip()` is empty exactly when every character of `s` is whitespace. */
  lemma StripEmptyIffBlank(s: string)
    ensures Strip(s) == [] <==> AllSpace(s)
  {
    StripStartEmpty(s);
    if StripStart(s) != [] {
      StripEndKeepsHead(StripStart(s));
    }
  }

  // ---------------------------------------------------------------------
  // s.replace(c, d) for single characters

  /** Python `s.replace(from, to)` where both are one character long. */
  function ReplaceChar(s: string, from: char, to: char): (r: string)
    ensures |r| == |s|
    ensures forall i :: 0 <= i < |s| ==> r[i] == if s[i] == from then to else s[i]
  {
    if s == [] then []
    else [if s[0] == from then to else s[0]] + ReplaceChar(s[1..], from, to)
  }

  // ---------------------------------------------------------------------
  // str(n) for n >= 0

  predicate IsDigit(c: char) {
    '0' <= c <= '9'
  }

  function DigitChar(d: nat): (c: char)
    requires d < 10
    ensures IsDigit(c)
  {
    ('0' as int + d) as char
  }

  function DigitValue(c: char): nat
    requires IsDigit(c)
  {
    c as int - '0' as int
  }

  /** Python `str(n)` for a non-negative integer: decimal digits, no leading zero. */
  function NatToDecimal(n: nat): (r: string)
    ensures |r| >= 1
    ensures forall i :: 0 <= i < |r| ==> IsDigit(r[i])
    ensures r[0] == '0' ==> n == 0
    ensures |r| > 1 ==> r[0] != '0'
  {
    if n < 10 then [DigitChar(n)] else NatToDecimal(n / 10) + [DigitChar(n % 10)]
  }

  /** The number a string of decimal digits denotes. */
  function DecimalValue(s: string): nat
    requires forall i :: 0 <= i < |s| ==> IsDigit(s[i])
  {
    if s == [] then 0 else DecimalValue(s[..|s| - 1]) * 10 + DigitValue(s[|s| - 1])
  }

  /** Reading back the decimal rendering of `n` gives `n`. */
  lemma {:induction false} DecimalRoundTrip(n: nat)
    ensures DecimalValue(NatToDecimal(n)) == n
  {
    var r := NatToDecimal(n);
    if n >= 10 {
      DecimalRoundTrip(n / 10);
      assert r[..|r| - 1] == NatToDecimal(n / 10);
    }
  }
}
