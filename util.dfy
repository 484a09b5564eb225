/** Small shared vocabulary: optional values, results of operations that can
    raise, and the sequence operations the drivers use on Python lists. */
module Util {

  datatype Option<T> = None | Some(value: T)

  /** The outcome of a Python call that either returns a value or raises. */
  datatype Result<T, E> = Success(value: T) | Failure(error: E)

  /** No element occurs twice. */
  predicate Distinct<T(==)>(s: seq<T>) {
    forall i, j :: 0 <= i < j < |s| ==> s[i] != s[j]
  }

  /** `list(s) * n` for a non-negative n: n copies of s, one after another. */
  function RepeatSeq<T>(s: seq<T>, n: nat): (r: seq<T>)
    ensures |r| == n * |s|
    decreases n
  {
    if n == 0 then [] else RepeatSeq(s, n - 1) + s
  }

  /** Copy k of `RepeatSeq(s, n)` holds s unchanged. */
  lemma {:induction false} RepeatSeqAt<T>(s: seq<T>, n: nat, k: nat, j: nat)
    requires k < n && j < |s|
    ensures k * |s| + j < |RepeatSeq(s, n)| && RepeatSeq(s, n)[k * |s| + j] == s[j]
    decreases n
  {
    assert (n - 1) * |s| + |s| == n * |s|;
    if k < n - 1 {
      RepeatSeqAt(s, n - 1, k, j);
      assert k * |s| + j < (n - 1) * |s| by {
        assert k * |s| + j < k * |s| + |s| == (k + 1) * |s|;
        assert (k + 1) * |s| <= (n - 1) * |s|;
      }
    } else {
      assert k * |s| == (n - 1) * |s|;
    }
  }

  /** The elements of s in the opposite order (Python's `list.reverse`). */
  function Reversed<T>(s: seq<T>): (r: seq<T>)
    ensures |r| == |s|
    ensures forall i :: 0 <= i < |s| ==> r[i] == s[|s| - 1 - i]
  {
    seq(|s|, i requires 0 <= i < |s| => s[|s| - 1 - i])
  }

  /** Reversing twice gives back the original sequence. */
  lemma ReversedTwice<T>(s: seq<T>)
    ensures Reversed(Reversed(s)) == s
  {
    var r := Reversed(Reversed(s));
    assert |r| == |s|;
    forall i | 0 <= i < |s|
      ensures r[i] == s[i]
    {
      assert r[i] == Reversed(s)[|s| - 1 - i];
    }
  }

  /** Every element of `[x for x in s if x != bad]` kept in order. */
  function Without<T(==)>(s: seq<T>, bad: T): (r: seq<T>)
    ensures |r| <= |s|
    ensures forall i :: 0 <= i < |r| ==> r[i] in s && r[i] != bad
    ensures forall i :: 0 <= i < |s| && s[i] != bad ==> s[i] in r
    decreases |s|
  {
    if s == [] then []
    else (if s[0] == bad then [] else [s[0]]) + Without(s[1..], bad)
  }

  /** The comprehension keeps every other element as often as it occurs
      and drops every occurrence of the excluded one. */
  lemma {:induction false} WithoutCounts<T>(s: seq<T>, bad: T)
    ensures multiset(Without(s, bad)) == multiset(s)[bad := 0]
    decreases |s|
  {
    if s != [] {
      WithoutCounts(s[1..], bad);
      assert s == [s[0]] + s[1..];
      var head := if s[0] == bad then [] else [s[0]];
      assert Without(s, bad) == head + Without(s[1..], bad);
      assert multiset(s) == multiset([s[0]]) + multiset(s[1..]);
      assert multiset(Without(s, bad)) == multiset(head) + multiset(Without(s[1..], bad));
    }
  }

  /** Filtering a concatenation filters each part and keeps their order. */
  lemma {:induction false} WithoutConcat<T>(a: seq<T>, b: seq<T>, bad: T)
    ensures Without(a + b, bad) == Without(a, bad) + Without(b, bad)
    decreases |a|
  {
    if a != [] {
      assert (a + b)[0] == a[0] && (a + b)[1..] == a[1..] + b;
      WithoutConcat(a[1..], b, bad);
    } else {
      assert a + b == b;
    }
  }

  /** The decimal digit character for d. */
  function DigitChar(d: nat): (c: char)
    requires d < 10
    ensures '0' <= c <= '9' && c as int - '0' as int == d
  {
    (48 + d) as char
  }

  predicate AllDigits(s: string) {
    forall i :: 0 <= i < |s| ==> '0' <= s[i] <= '9'
  }

  /** `str(n)` for a non-negative integer: its decimal digits without sign. */
  function NatToString(n: nat): (r: string)
    ensures |r| >= 1 && AllDigits(r)
    ensures r[0] == '0' ==> |r| == 1
    decreases n
  {
    if n < 10 then [DigitChar(n)] else NatToString(n / 10) + [DigitChar(n % 10)]
  }

  /** The number a string of decimal digits denotes (`int(s)`). */
  function DigitsValue(s: string): nat
    requires AllDigits(s)
    decreases |s|
  {
    if s == [] then 0
    else DigitsValue(s[..|s| - 1]) * 10 + (s[|s| - 1] as int - '0' as int)
  }

  /** Reading back what `str` wrote gives the number again. */
  lemma {:induction false} NatToStringRoundTrip(n: nat)
    ensures DigitsValue(NatToString(n)) == n
    decreases n
  {
    if n >= 10 {
      var s := NatToString(n);
      assert s[..|s| - 1] == NatToString(n / 10);
      NatToStringRoundTrip(n / 10);
    }
  }

  /** Different numbers are written differently. */
  lemma NatToStringInjective(a: nat, b: nat)
    requires a != b
    ensures NatToString(a) != NatToString(b)
  {
    NatToStringRoundTrip(a);
    NatToStringRoundTrip(b);
  }

  /** `s.index(c)`: the first position of c in s, or None where Python
      raises ValueError. */
  function IndexOf<T(==)>(s: seq<T>, c: T): (r: Option<nat>)
    ensures r.Some? ==> r.value < |s| && s[r.value] == c &&
                        forall j :: 0 <= j < r.value ==> s[j] != c
    ensures r.None? <==> c !in s
    decreases |s|
  {
    if s == [] then None
    else if s[0] == c then Some(0)
    else match IndexOf(s[1..], c)
      case None => None
      case Some(k) => Some(k + 1)
  }

  /** The first position holding c is what `index` finds. */
  lemma IndexOfFirst<T>(s: seq<T>, c: T, i: nat)
    requires i < |s| && s[i] == c && forall j :: 0 <= j < i ==> s[j] != c
    ensures IndexOf(s, c) == Some(i)
  {
    assert c in s;
  }
}
