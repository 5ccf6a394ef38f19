/**
  Arithmetic over sequences of reals as Python, NumPy and pandas compute it on exact
  values: sum, mean, max, min, and the list slices `s[-n:]` and `s[:-1]`.
 */
module Stats {

  function Abs(x: real): (r: real)
    ensures r >= 0.0 && (r == x || r == -x)
  {
    if x < 0.0 then -x else x
  }

  /** Start index of Python's `s[-n:]` on a list of length len (a negative n counts from the front). */
  function TailStart(len: nat, n: int): (k: nat)
    ensures k <= len
    ensures n > 0 ==> len - k == if n < len then n else len
    ensures n <= 0 ==> k == if -n < len then -n else len
  {
    if n > 0 then (if n < len then len - n else 0)
    else if -n < len then -n
    else len
  }

  /** Python's `s[-n:]`. */
  function TailSlice<T>(s: seq<T>, n: int): (r: seq<T>)
    ensures r == s[TailStart(|s|, n)..]
    ensures 0 < n <= |s| ==> |r| == n
    ensures n > |s| || n == 0 ==> r == s
  {
    s[TailStart(|s|, n)..]
  }

  /** Python's `s[:-1]`: every element but the last (empty for an empty list). */
  function AllButLast<T>(s: seq<T>): (r: seq<T>)
    ensures |s| > 0 ==> r + [s[|s| - 1]] == s
    ensures |s| == 0 ==> r == []
  {
    if |s| == 0 then [] else s[..|s| - 1]
  }

  function Sum(s: seq<real>): real
  {
    if |s| == 0 then 0.0 else Sum(s[..|s| - 1]) + s[|s| - 1]
  }

  /** `np.mean` of a non-empty list. */
  function Mean(s: seq<real>): (r: real)
    requires |s| > 0
    ensures r * (|s| as real) == Sum(s)
  {
    Sum(s) / (|s| as real)
  }

  /** Python's `max` of a non-empty list. */
  function Max(s: seq<real>): (r: real)
    requires |s| > 0
    ensures r in s
    ensures forall i :: 0 <= i < |s| ==> s[i] <= r
  {
    if |s| == 1 then s[0]
    else
      var m := Max(s[1..]);
      assert forall i :: 1 <= i < |s| ==> s[i] == s[1..][i - 1];
      if s[0] >= m then s[0] else m
  }

  /** Python's `min` of a non-empty list. */
  function Min(s: seq<real>): (r: real)
    requires |s| > 0
    ensures r in s
    ensures forall i :: 0 <= i < |s| ==> r <= s[i]
  {
    if |s| == 1 then s[0]
    else
      var m := Min(s[1..]);
      assert forall i :: 1 <= i < |s| ==> s[i] == s[1..][i - 1];
      if s[0] <= m then s[0] else m
  }

  lemma {:induction false} SumAppend(a: seq<real>, x: real)
    ensures Sum(a + [x]) == Sum(a) + x
  {
    assert (a + [x])[..|a|] == a;
  }

  lemma {:induction false} SumConcat(a: seq<real>, b: seq<real>)
    ensures Sum(a + b) == Sum(a) + Sum(b)
    decreases |b|
  {
    if |b| == 0 {
      assert a + b == a;
    } else {
      var b' := b[..|b| - 1];
      var x := b[|b| - 1];
      assert b == b' + [x];
      assert a + b == (a + b') + [x];
      SumConcat(a, b');
      SumAppend(a + b', x);
      SumAppend(b', x);
    }
  }

  lemma {:induction false} SumNonNegative(s: seq<real>)
    requires forall i :: 0 <= i < |s| ==> s[i] >= 0.0
    ensures Sum(s) >= 0.0
    decreases |s|
  {
    if |s| > 0 {
      SumNonNegative(s[..|s| - 1]);
    }
  }

  /** With no negative element, every element is at most the sum. */
  lemma {:induction false} ElementAtMostSum(s: seq<real>, k: nat)
    requires k < |s|
    requires forall i :: 0 <= i < |s| ==> s[i] >= 0.0
    ensures s[k] <= Sum(s)
    decreases |s|
  {
    var init := s[..|s| - 1];
    if k == |s| - 1 {
      SumNonNegative(init);
    } else {
      ElementAtMostSum(init, k);
    }
  }

  /** A list holding one value throughout sums to its length times that value. */
  lemma {:induction false} SumOfConstant(s: seq<real>, c: real)
    requires forall i :: 0 <= i < |s| ==> s[i] == c
    ensures Sum(s) == (|s| as real) * c
    decreases |s|
  {
    if |s| > 0 {
      SumOfConstant(s[..|s| - 1], c);
    }
  }

  lemma MinAtMostMax(s: seq<real>)
    requires |s| > 0
    ensures Min(s) <= Max(s)
  {
    assert Min(s) <= s[0] <= Max(s);
  }

  /** The last element of a list lies in every non-empty tail slice of it. */
  lemma LastInTail<T>(s: seq<T>, n: int)
    requires |s| > 0 && |TailSlice(s, n)| > 0
    ensures TailSlice(s, n)[|TailSlice(s, n)| - 1] == s[|s| - 1]
  {
  }
}
