/**
 * Sums and means of real sequences: the reductions `torch.sum` and
 * `torch.mean` that every loss ends with.
 */
module Stats {

  function Sum(s: seq<real>): real
  {
    if s == [] then 0.0 else s[0] + Sum(s[1..])
  }

  /** `torch.mean`; the mean of no values is undefined (NaN in the source). */
  function Mean(s: seq<real>): real
    requires |s| > 0
  {
    Sum(s) / (|s| as real)
  }

  lemma {:induction false} SumAtLeast(s: seq<real>, lo: real)
    requires forall i :: 0 <= i < |s| ==> lo <= s[i]
    ensures (|s| as real) * lo <= Sum(s)
  {
    if s != [] {
      SumAtLeast(s[1..], lo);
    }
  }

  lemma {:induction false} SumAtMost(s: seq<real>, hi: real)
    requires forall i :: 0 <= i < |s| ==> s[i] <= hi
    ensures Sum(s) <= (|s| as real) * hi
  {
    if s != [] {
      SumAtMost(s[1..], hi);
    }
  }

  /** A mean is at least any lower bound of every element. */
  lemma MeanAtLeast(s: seq<real>, lo: real)
    requires |s| > 0
    requires forall i :: 0 <= i < |s| ==> lo <= s[i]
    ensures lo <= Mean(s)
  {
    SumAtLeast(s, lo);
    var n := |s| as real;
    assert Sum(s) / n >= lo by { assert Sum(s) >= n * lo; }
  }

  /** A mean is at most any upper bound of every element. */
  lemma MeanAtMost(s: seq<real>, hi: real)
    requires |s| > 0
    requires forall i :: 0 <= i < |s| ==> s[i] <= hi
    ensures Mean(s) <= hi
  {
    SumAtMost(s, hi);
    var n := |s| as real;
    assert Sum(s) / n <= hi by { assert Sum(s) <= n * hi; }
  }

  /** A mean lies within any bounds that hold of every element. */
  lemma MeanBounds(s: seq<real>, lo: real, hi: real)
    requires |s| > 0
    requires forall i :: 0 <= i < |s| ==> lo <= s[i] <= hi
    ensures lo <= Mean(s) <= hi
  {
    MeanAtLeast(s, lo);
    MeanAtMost(s, hi);
  }

  /** Position of a smallest element. */
  function MinIndex(s: seq<real>): (k: nat)
    requires |s| > 0
    ensures k < |s|
    ensures forall i :: 0 <= i < |s| ==> s[k] <= s[i]
  {
    if |s| == 1 then 0
    else
      var k := MinIndex(s[..|s| - 1]);
      if s[|s| - 1] < s[k] then |s| - 1 else k
  }

  /** Position of a largest element. */
  function MaxIndex(s: seq<real>): (k: nat)
    requires |s| > 0
    ensures k < |s|
    ensures forall i :: 0 <= i < |s| ==> s[i] <= s[k]
  {
    if |s| == 1 then 0
    else
      var k := MaxIndex(s[..|s| - 1]);
      if s[k] < s[|s| - 1] then |s| - 1 else k
  }

  /** A mean lies between its smallest and its largest element: some element
      is at most the mean and some element is at least it. */
  lemma MeanBetweenElements(s: seq<real>)
    requires |s| > 0
    ensures exists i :: 0 <= i < |s| && s[i] <= Mean(s)
    ensures exists j :: 0 <= j < |s| && Mean(s) <= s[j]
  {
    MeanAtLeast(s, s[MinIndex(s)]);
    MeanAtMost(s, s[MaxIndex(s)]);
  }

  lemma {:induction false} SumConstant(s: seq<real>, c: real)
    requires forall i :: 0 <= i < |s| ==> s[i] == c
    ensures Sum(s) == (|s| as real) * c
  {
    if s != [] {
      SumConstant(s[1..], c);
    }
  }

  /** The mean of values that are all equal to `c` is `c`. */
  lemma MeanConstant(s: seq<real>, c: real)
    requires |s| > 0
    requires forall i :: 0 <= i < |s| ==> s[i] == c
    ensures Mean(s) == c
  {
    SumConstant(s, c);
  }

  lemma {:induction false} SumMonotone(s: seq<real>, t: seq<real>)
    requires |s| == |t|
    requires forall i :: 0 <= i < |s| ==> s[i] <= t[i]
    ensures Sum(s) <= Sum(t)
  {
    if s != [] {
      SumMonotone(s[1..], t[1..]);
    }
  }

  /** Pointwise larger values have a larger mean. */
  lemma MeanMonotone(s: seq<real>, t: seq<real>)
    requires |s| == |t| > 0
    requires forall i :: 0 <= i < |s| ==> s[i] <= t[i]
    ensures Mean(s) <= Mean(t)
  {
    SumMonotone(s, t);
    var n := |s| as real;
    assert Sum(s) / n <= Sum(t) / n;
  }

  lemma SumSingleton(x: real)
    ensures Sum([x]) == x
  {
    assert [x][1..] == [];
  }

  /** The mean of one value is that value. */
  lemma MeanSingleton(x: real)
    ensures Mean([x]) == x
  {
    SumSingleton(x);
  }

  lemma {:induction false} SumAppend(s: seq<real>, t: seq<real>)
    ensures Sum(s + t) == Sum(s) + Sum(t)
  {
    if s == [] {
      assert s + t == t;
    } else {
      assert (s + t)[1..] == s[1..] + t;
      SumAppend(s[1..], t);
    }
  }

  /** Taking the element at `j` out of `t`. */
  function RemoveAt<T>(t: seq<T>, j: nat): (r: seq<T>)
    requires j < |t|
    ensures |r| == |t| - 1
    ensures multiset(r) == multiset(t) - multiset{t[j]}
  {
    assert t == t[..j] + [t[j]] + t[j + 1..];
    t[..j] + t[j + 1..]
  }

  lemma SumCons(x: real, b: seq<real>)
    ensures Sum([x] + b) == x + Sum(b)
  {
    assert ([x] + b)[1..] == b;
  }

  lemma SumRemoveAt(t: seq<real>, j: nat)
    requires j < |t|
    ensures Sum(t) == t[j] + Sum(t[..j] + t[j + 1..])
  {
    var a, b := t[..j], t[j + 1..];
    assert t == a + ([t[j]] + b);
    SumAppend(a, [t[j]] + b);
    SumCons(t[j], b);
    SumAppend(a, b);
  }

  /** Reordering the values does not change their sum. */
  lemma {:induction false} SumPermutation(s: seq<real>, t: seq<real>)
    requires multiset(s) == multiset(t)
    ensures Sum(s) == Sum(t)
    decreases |s|
  {
    if s != [] {
      assert s[0] in multiset(t);
      var j :| 0 <= j < |t| && t[j] == s[0];
      assert s == [s[0]] + s[1..];
      assert multiset(s[1..]) == multiset(s) - multiset{s[0]};
      SumPermutation(s[1..], RemoveAt(t, j));
      SumRemoveAt(t, j);
    }
  }

  /** Reordering the values does not change their mean. */
  lemma MeanPermutation(s: seq<real>, t: seq<real>)
    requires |s| > 0
    requires multiset(s) == multiset(t)
    ensures |t| == |s| && Mean(s) == Mean(t)
  {
    assert |multiset(s)| == |s| && |multiset(t)| == |t|;
    SumPermutation(s, t);
  }
}
