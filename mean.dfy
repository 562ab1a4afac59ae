/**
 * Averaging of optional readings: the mean of the values that are present,
 * or `None` when no value is present.
 */
module Mean {
  import opened Schema

  /** The present entries of `values`, in order. */
  function Present(values: seq<Option<real>>): (p: seq<real>)
    ensures |p| <= |values|
    ensures forall x :: x in p <==> Some(x) in values
  {
    if values == [] then []
    else
      var rest := Present(values[1..]);
      assert forall x :: Some(x) in values[1..] ==> Some(x) in values;
      match values[0]
      case Some(v) => [v] + rest
      case None => rest
  }

  /** Every present value is kept as often as it occurs, so the mean's sum and count are right. */
  lemma {:induction false} PresentCounts(values: seq<Option<real>>)
    ensures forall x :: multiset(Present(values))[x] == multiset(values)[Some(x)]
  {
    if values != [] {
      PresentCounts(values[1..]);
      assert values == [values[0]] + values[1..];
    }
  }

  function Sum(s: seq<real>): real
  {
    if s == [] then 0.0 else s[0] + Sum(s[1..])
  }

  /** The smallest element of a non-empty sequence. */
  function Least(s: seq<real>): (lo: real)
    requires s != []
    ensures lo in s
    ensures forall x :: x in s ==> lo <= x
  {
    if |s| == 1 then s[0]
    else
      var rest := Least(s[1..]);
      assert forall x :: x in s ==> x == s[0] || x in s[1..];
      if s[0] <= rest then s[0] else rest
  }

  /** The largest element of a non-empty sequence. */
  function Greatest(s: seq<real>): (hi: real)
    requires s != []
    ensures hi in s
    ensures forall x :: x in s ==> x <= hi
  {
    if |s| == 1 then s[0]
    else
      var rest := Greatest(s[1..]);
      assert forall x :: x in s ==> x == s[0] || x in s[1..];
      if rest <= s[0] then s[0] else rest
  }

  /** Mean of the present values; `None` exactly when every entry is absent. */
  function SafeMean(values: seq<Option<real>>): (m: Option<real>)
    ensures m.None? <==> forall i :: 0 <= i < |values| ==> values[i].None?
  {
    var present := Present(values);
    if present == [] then
      assert forall i :: 0 <= i < |values| ==> values[i].Some? ==> values[i].value in present;
      None
    else
      assert Some(present[0]) in values;
      Some(Sum(present) / |present| as real)
  }

  lemma {:induction false} SumAtLeast(s: seq<real>, lo: real)
    requires forall x :: x in s ==> lo <= x
    ensures |s| as real * lo <= Sum(s)
  {
    if s != [] {
      assert forall x :: x in s[1..] ==> x in s;
      SumAtLeast(s[1..], lo);
      assert s[0] in s;
      var n := |s[1..]| as real;
      assert |s| as real == n + 1.0;
      assert (n + 1.0) * lo == n * lo + lo;
    }
  }

  lemma {:induction false} SumAtMost(s: seq<real>, hi: real)
    requires forall x :: x in s ==> x <= hi
    ensures Sum(s) <= |s| as real * hi
  {
    if s != [] {
      assert forall x :: x in s[1..] ==> x in s;
      SumAtMost(s[1..], hi);
      assert s[0] in s;
      var n := |s[1..]| as real;
      assert |s| as real == n + 1.0;
      assert (n + 1.0) * hi == n * hi + hi;
    }
  }

  lemma NonNegativeFactor(a: real, n: real)
    requires n > 0.0 && a * n >= 0.0
    ensures a >= 0.0
  {
  }

  lemma LowerQuotient(total: real, n: real, lo: real)
    requires n > 0.0 && n * lo <= total
    ensures lo <= total / n
  {
    var q := total / n;
    assert (q - lo) * n == total - n * lo;
    NonNegativeFactor(q - lo, n);
  }

  lemma UpperQuotient(total: real, n: real, hi: real)
    requires n > 0.0 && total <= n * hi
    ensures total / n <= hi
  {
    var q := total / n;
    assert (hi - q) * n == n * hi - total;
    NonNegativeFactor(hi - q, n);
  }

  lemma QuotientMonotone(s: real, t: real, n: real)
    requires n > 0.0 && s <= t
    ensures s / n <= t / n
  {
    assert (t / n - s / n) * n == t - s;
    NonNegativeFactor(t / n - s / n, n);
  }

  lemma SafeMeanValue(values: seq<Option<real>>)
    requires SafeMean(values).Some?
    ensures Present(values) != []
    ensures SafeMean(values).value == Sum(Present(values)) / |Present(values)| as real
  {
  }

  lemma AverageAtLeast(s: seq<real>, lo: real)
    requires s != []
    requires forall x :: x in s ==> lo <= x
    ensures lo <= Sum(s) / |s| as real
  {
    SumAtLeast(s, lo);
    LowerQuotient(Sum(s), |s| as real, lo);
  }

  lemma AverageAtMost(s: seq<real>, hi: real)
    requires s != []
    requires forall x :: x in s ==> x <= hi
    ensures Sum(s) / |s| as real <= hi
  {
    SumAtMost(s, hi);
    UpperQuotient(Sum(s), |s| as real, hi);
  }

  /** A present mean lies between the least and the greatest present reading. */
  lemma SafeMeanBetween(values: seq<Option<real>>)
    requires SafeMean(values).Some?
    ensures Present(values) != []
    ensures Least(Present(values)) <= SafeMean(values).value <= Greatest(Present(values))
  {
    SafeMeanValue(values);
    AverageAtLeast(Present(values), Least(Present(values)));
    AverageAtMost(Present(values), Greatest(Present(values)));
  }

  /** `b` has a reading exactly where `a` has one, and it is never lower. */
  predicate NoLowerPointwise(a: seq<Option<real>>, b: seq<Option<real>>)
  {
    && |a| == |b|
    && (forall i :: 0 <= i < |a| ==> a[i].Some? == b[i].Some?)
    && (forall i :: 0 <= i < |a| && a[i].Some? && b[i].Some? ==> a[i].value <= b[i].value)
  }

  lemma {:induction false} PresentNoLower(a: seq<Option<real>>, b: seq<Option<real>>)
    requires NoLowerPointwise(a, b)
    ensures |Present(a)| == |Present(b)|
    ensures Sum(Present(a)) <= Sum(Present(b))
  {
    if a != [] {
      assert NoLowerPointwise(a[1..], b[1..]);
      PresentNoLower(a[1..], b[1..]);
    }
  }

  /** Raising present readings, without changing which are present, never lowers the mean. */
  lemma SafeMeanMonotone(a: seq<Option<real>>, b: seq<Option<real>>)
    requires NoLowerPointwise(a, b)
    ensures SafeMean(a).Some? == SafeMean(b).Some?
    ensures SafeMean(a).Some? ==> SafeMean(a).value <= SafeMean(b).value
  {
    PresentNoLower(a, b);
    if SafeMean(a).Some? {
      SafeMeanValue(a);
      SafeMeanValue(b);
      QuotientMonotone(Sum(Present(a)), Sum(Present(b)), |Present(a)| as real);
    }
  }

  /** The mean of a single reading is that reading. */
  lemma SafeMeanSingle(x: real)
    ensures SafeMean([Some(x)]) == Some(x)
  {
    assert [Some(x)][1..] == [];
    assert Present([Some(x)]) == [x];
    assert Sum([x]) == x + Sum([]);
  }
}
