/** Shared value types and sequence arithmetic used by every analytics service. */
module Common {

  /** A value that may be absent: Python's `None`, or an IEEE NaN produced by pandas. */
  datatype Option<+T> = None | Some(value: T)

  /** A well-formed result, or the `{"error": message}` payload a service returns instead. */
  datatype Result<+T> = Ok(value: T) | Err(message: string)

  /** Python truthiness of an optional number: `None` and `0` are falsy. */
  predicate Truthy(x: Option<real>) {
    x.Some? && x.value != 0.0
  }

  /** `a > b` where a missing (NaN) operand makes the comparison false, as under IEEE 754. */
  predicate Gt(a: Option<real>, b: Option<real>) {
    a.Some? && b.Some? && a.value > b.value
  }

  /** `a < b` where a missing (NaN) operand makes the comparison false. */
  predicate Lt(a: Option<real>, b: Option<real>) {
    a.Some? && b.Some? && a.value < b.value
  }

  /** `a <= b` where a missing (NaN) operand makes the comparison false. */
  predicate Le(a: Option<real>, b: Option<real>) {
    a.Some? && b.Some? && a.value <= b.value
  }

  /** One daily OHLCV bar; `date` is a day number, the opening price is never read. */
  datatype Bar = Bar(date: int, high: real, low: real, close: real, volume: real)

  /** What the price provider guarantees: one bar per trading day, ascending, positive closes. */
  ghost predicate ValidBars(bars: seq<Bar>) {
    && (forall i, j :: 0 <= i < j < |bars| ==> bars[i].date < bars[j].date)
    && (forall i :: 0 <= i < |bars| ==> bars[i].close > 0.0)
  }

  function Closes(bars: seq<Bar>): (r: seq<real>)
    ensures |r| == |bars|
    ensures forall i :: 0 <= i < |bars| ==> r[i] == bars[i].close
  {
    seq(|bars|, i requires 0 <= i < |bars| => bars[i].close)
  }

  function Abs(x: real): (r: real)
    ensures r >= 0.0 && (r == x || r == -x)
  {
    if x < 0.0 then -x else x
  }

  /** Percentage change from `a` to `b`; the services write it `(b / a - 1) * 100` or `(b - a) / a * 100`. */
  function PctChange(a: real, b: real): (r: real)
    requires a != 0.0
    ensures r * a == (b - a) * 100.0
  {
    (b - a) / a * 100.0
  }

  lemma PctChangeSign(a: real, b: real)
    requires a > 0.0
    ensures PctChange(a, b) > 0.0 <==> b > a
    ensures PctChange(a, b) < 0.0 <==> b < a
    ensures PctChange(a, b) == 0.0 <==> b == a
  {
  }

  /** `x / a`, characterised by multiplication. */
  function Quotient(x: real, a: real): (r: real)
    requires a != 0.0
    ensures r * a == x
  {
    x / a
  }

  lemma CancelFactor(a: real, b: real, w: real)
    requires w != 0.0 && a * w == b * w
    ensures a == b
  {
    assert (a - b) * w == 0.0;
  }

  lemma PositiveFactor(a: real, w: real)
    requires w > 0.0
    ensures a * w <= 0.0 <==> a <= 0.0
    ensures a * w >= 0.0 <==> a >= 0.0
  {
  }

  function Sum(xs: seq<real>): real
  {
    if xs == [] then 0.0 else xs[0] + Sum(xs[1..])
  }

  lemma {:induction false} SumAppend(a: seq<real>, b: seq<real>)
    ensures Sum(a + b) == Sum(a) + Sum(b)
  {
    if a == [] {
      assert a + b == b;
    } else {
      assert (a + b)[1..] == a[1..] + b;
      SumAppend(a[1..], b);
    }
  }

  /** Replacing one element changes the sum by the difference. */
  lemma SumUpdate(xs: seq<real>, i: nat, v: real)
    requires i < |xs|
    ensures Sum(xs[i := v]) == Sum(xs) - xs[i] + v
  {
    assert xs == xs[..i] + ([xs[i]] + xs[i + 1..]);
    assert xs[i := v] == xs[..i] + ([v] + xs[i + 1..]);
    SumAppend(xs[..i], [xs[i]] + xs[i + 1..]);
    SumAppend(xs[..i], [v] + xs[i + 1..]);
  }

  /** Deleting one element lowers the sum by that element. */
  lemma SumDelete(xs: seq<real>, i: nat)
    requires i < |xs|
    ensures Sum(xs[..i] + xs[i + 1..]) == Sum(xs) - xs[i]
  {
    assert xs == xs[..i] + ([xs[i]] + xs[i + 1..]);
    SumAppend(xs[..i], [xs[i]] + xs[i + 1..]);
    SumAppend(xs[..i], xs[i + 1..]);
  }

  /** Every element between `lo` and `hi` bounds the sum by `n * lo` and `n * hi`. */
  lemma {:induction false} SumBounds(xs: seq<real>, lo: real, hi: real)
    requires forall i :: 0 <= i < |xs| ==> lo <= xs[i] <= hi
    ensures |xs| as real * lo <= Sum(xs) <= |xs| as real * hi
  {
    if xs != [] {
      SumBounds(xs[1..], lo, hi);
    }
  }

  function Mean(xs: seq<real>): real
    requires |xs| > 0
  {
    Sum(xs) / |xs| as real
  }

  lemma {:induction false} SumNonNegative(xs: seq<real>)
    requires forall i :: 0 <= i < |xs| ==> xs[i] >= 0.0
    ensures Sum(xs) >= 0.0
  {
    if xs != [] {
      SumNonNegative(xs[1..]);
    }
  }

  lemma MeanNonNegative(xs: seq<real>)
    requires |xs| > 0
    requires forall i :: 0 <= i < |xs| ==> xs[i] >= 0.0
    ensures Mean(xs) >= 0.0
  {
    SumNonNegative(xs);
  }

  function MaxOf(xs: seq<real>): (r: real)
    requires |xs| > 0
    ensures r in xs
    ensures forall i :: 0 <= i < |xs| ==> xs[i] <= r
  {
    if |xs| == 1 then xs[0]
    else
      var m := MaxOf(xs[1..]);
      if xs[0] >= m then xs[0] else m
  }

  function MinOf(xs: seq<real>): (r: real)
    requires |xs| > 0
    ensures r in xs
    ensures forall i :: 0 <= i < |xs| ==> r <= xs[i]
  {
    if |xs| == 1 then xs[0]
    else
      var m := MinOf(xs[1..]);
      if xs[0] <= m then xs[0] else m
  }

  /** The mean of a non-empty sequence lies between its smallest and its largest element. */
  lemma MeanBetween(xs: seq<real>, lo: real, hi: real)
    requires |xs| > 0
    requires forall i :: 0 <= i < |xs| ==> lo <= xs[i] <= hi
    ensures lo <= Mean(xs) <= hi
  {
    SumBounds(xs, lo, hi);
    var n := |xs| as real;
    assert n * lo <= Sum(xs) <= n * hi;
    assert Sum(xs) / n <= hi by {
      assert Sum(xs) / n * n == Sum(xs);
    }
    assert lo <= Sum(xs) / n by {
      assert Sum(xs) / n * n == Sum(xs);
    }
  }

  lemma MeanWithinMinMax(xs: seq<real>)
    requires |xs| > 0
    ensures MinOf(xs) <= Mean(xs) <= MaxOf(xs)
  {
    MeanBetween(xs, MinOf(xs), MaxOf(xs));
  }

  /** The elements of `xs` that satisfy `p`, in order (a Python list comprehension with a filter). */
  function Filter<T>(xs: seq<T>, p: T -> bool): (r: seq<T>)
    ensures |r| <= |xs|
    ensures forall i :: 0 <= i < |r| ==> p(r[i]) && r[i] in xs
  {
    if xs == [] then []
    else if p(xs[0]) then [xs[0]] + Filter(xs[1..], p)
    else Filter(xs[1..], p)
  }

  lemma {:induction false} FilterAppend<T>(a: seq<T>, b: seq<T>, p: T -> bool)
    ensures Filter(a + b, p) == Filter(a, p) + Filter(b, p)
  {
    if a == [] {
      assert a + b == b;
    } else {
      assert (a + b)[1..] == a[1..] + b;
      FilterAppend(a[1..], b, p);
    }
  }

  /** Splitting by `p` and by its negation loses and duplicates nothing. */
  lemma {:induction false} FilterPartition<T>(xs: seq<T>, p: T -> bool)
    ensures multiset(Filter(xs, p)) + multiset(Filter(xs, x => !p(x))) == multiset(xs)
  {
    if xs != [] {
      FilterPartition(xs[1..], p);
      assert xs == [xs[0]] + xs[1..];
    }
  }

  lemma {:induction false} FilterKeepsAll<T>(xs: seq<T>, p: T -> bool)
    requires forall i :: 0 <= i < |xs| ==> p(xs[i])
    ensures Filter(xs, p) == xs
  {
    if xs != [] {
      FilterKeepsAll(xs[1..], p);
    }
  }

  lemma {:induction false} FilterMembers<T>(xs: seq<T>, p: T -> bool)
    ensures forall x :: x in Filter(xs, p) <==> x in xs && p(x)
  {
    if xs != [] {
      FilterMembers(xs[1..], p);
      assert xs == [xs[0]] + xs[1..];
    }
  }

  lemma FilterEmpty<T>(xs: seq<T>, p: T -> bool)
    ensures |Filter(xs, p)| == 0 <==> forall i :: 0 <= i < |xs| ==> !p(xs[i])
  {
    FilterMembers(xs, p);
    if |Filter(xs, p)| != 0 {
      assert Filter(xs, p)[0] in Filter(xs, p);
    } else {
      forall i | 0 <= i < |xs|
        ensures !p(xs[i])
      {
        assert xs[i] in xs;
      }
    }
  }

  /** Absolute values of a sequence, element by element. */
  function AbsAll(xs: seq<real>): (r: seq<real>)
    ensures |r| == |xs|
    ensures forall i :: 0 <= i < |xs| ==> r[i] == Abs(xs[i])
  {
    seq(|xs|, i requires 0 <= i < |xs| => Abs(xs[i]))
  }

  /** The last `n` elements (Python's `xs[-n:]`, which gives all of `xs` when it is shorter). */
  function LastN<T>(xs: seq<T>, n: nat): (r: seq<T>)
    ensures |r| == if |xs| < n then |xs| else n
    ensures forall i :: 0 <= i < |r| ==> r[i] == xs[|xs| - |r| + i]
  {
    if |xs| <= n then xs else xs[|xs| - n..]
  }

  /** The elements in reverse order (Python's `xs[::-1]`). */
  function Reverse<T>(xs: seq<T>): (r: seq<T>)
    ensures |r| == |xs|
    ensures forall i :: 0 <= i < |xs| ==> r[i] == xs[|xs| - 1 - i]
  {
    seq(|xs|, i requires 0 <= i < |xs| => xs[|xs| - 1 - i])
  }

  function Min(a: int, b: int): (r: int)
    ensures r <= a && r <= b && (r == a || r == b)
  {
    if a <= b then a else b
  }

  /** ASCII upper-casing of one character (Python's `str.upper` restricted to ASCII). */
  function UpperChar(c: char): (r: char)
    ensures !('a' <= r <= 'z')
    ensures 'a' <= c <= 'z' ==> r as int == c as int - 32
    ensures !('a' <= c <= 'z') ==> r == c
  {
    if 'a' <= c <= 'z' then (c as int - 32) as char else c
  }

  function Upper(s: string): (r: string)
    ensures |r| == |s|
    ensures forall i :: 0 <= i < |s| ==> r[i] == UpperChar(s[i])
  {
    seq(|s|, i requires 0 <= i < |s| => UpperChar(s[i]))
  }

  lemma UpperIdempotent(s: string)
    ensures Upper(Upper(s)) == Upper(s)
  {
  }
}
