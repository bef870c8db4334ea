/**
 * The array reductions the source applies to fetched rows: `reduce` sums,
 * `filter(...).length` counts, `filter`, and `find`.
 */
module Lists {
  import opened Wrappers

  /** `xs.reduce((sum, x) => sum + f(x), 0)`, folded left to right. */
  function Sum<T>(s: seq<T>, f: T -> real): real
    decreases |s|
  {
    if |s| == 0 then 0.0 else Sum(s[..|s| - 1], f) + f(s[|s| - 1])
  }

  /** `xs.filter(p).reduce((sum, x) => sum + f(x), 0)`. */
  function SumWhere<T>(s: seq<T>, p: T -> bool, f: T -> real): real
    decreases |s|
  {
    if |s| == 0 then 0.0 else SumWhere(s[..|s| - 1], p, f) + (if p(s[|s| - 1]) then f(s[|s| - 1]) else 0.0)
  }

  /** `xs.filter(p).length`. */
  function Count<T>(s: seq<T>, p: T -> bool): nat
    decreases |s|
  {
    if |s| == 0 then 0 else Count(s[..|s| - 1], p) + (if p(s[|s| - 1]) then 1 else 0)
  }

  /** `xs.filter(p)`. */
  function Filter<T>(s: seq<T>, p: T -> bool): seq<T>
    decreases |s|
  {
    if |s| == 0 then [] else Filter(s[..|s| - 1], p) + (if p(s[|s| - 1]) then [s[|s| - 1]] else [])
  }

  lemma {:induction false} SumAppend<T>(a: seq<T>, b: seq<T>, f: T -> real)
    ensures Sum(a + b, f) == Sum(a, f) + Sum(b, f)
    decreases |b|
  {
    if |b| == 0 {
      assert a + b == a;
    } else {
      assert (a + b)[..|a + b| - 1] == a + b[..|b| - 1];
      SumAppend(a, b[..|b| - 1], f);
    }
  }

  lemma {:induction false} SumNonNegative<T>(s: seq<T>, f: T -> real)
    requires forall i :: 0 <= i < |s| ==> f(s[i]) >= 0.0
    ensures Sum(s, f) >= 0.0
    decreases |s|
  {
    if |s| > 0 {
      SumNonNegative(s[..|s| - 1], f);
    }
  }

  lemma {:induction false} CountAppend<T>(a: seq<T>, b: seq<T>, p: T -> bool)
    ensures Count(a + b, p) == Count(a, p) + Count(b, p)
    decreases |b|
  {
    if |b| == 0 {
      assert a + b == a;
    } else {
      assert (a + b)[..|a + b| - 1] == a + b[..|b| - 1];
      CountAppend(a, b[..|b| - 1], p);
    }
  }

  /** Two tests no element passes together count at most the whole list. */
  lemma {:induction false} CountDisjoint<T>(s: seq<T>, p: T -> bool, q: T -> bool)
    requires forall i :: 0 <= i < |s| ==> !(p(s[i]) && q(s[i]))
    ensures Count(s, p) + Count(s, q) <= |s|
    decreases |s|
  {
    if |s| > 0 {
      CountDisjoint(s[..|s| - 1], p, q);
    }
  }

  /** The filtered list has `Count` elements, each satisfying `p`, and keeps exactly the members of `s` that satisfy `p`. */
  lemma {:induction false} FilterSpec<T>(s: seq<T>, p: T -> bool)
    ensures |Filter(s, p)| == Count(s, p)
    ensures forall i :: 0 <= i < |Filter(s, p)| ==> p(Filter(s, p)[i])
    ensures forall x :: x in Filter(s, p) <==> x in s && p(x)
    decreases |s|
  {
    if |s| > 0 {
      var init := s[..|s| - 1];
      FilterSpec(init, p);
      assert s == init + [s[|s| - 1]];
    }
  }

  /** `idx` picks, in increasing positions, the elements of `b` that make up `a`. */
  ghost predicate IsEmbedding<T>(idx: seq<int>, a: seq<T>, b: seq<T>) {
    && |idx| == |a|
    && (forall k :: 0 <= k < |idx| ==> 0 <= idx[k] < |b| && a[k] == b[idx[k]])
    && (forall k, l :: 0 <= k < l < |idx| ==> idx[k] < idx[l])
  }

  /** `a` is an order-preserving sub-list of `b`. */
  ghost predicate SubsequenceOf<T>(a: seq<T>, b: seq<T>) {
    exists idx: seq<int> :: IsEmbedding(idx, a, b)
  }

  lemma {:induction false} FilterIsSubsequence<T>(s: seq<T>, p: T -> bool)
    ensures SubsequenceOf(Filter(s, p), s)
    decreases |s|
  {
    if |s| == 0 {
      assert IsEmbedding([], Filter(s, p), s);
    } else {
      var init := s[..|s| - 1];
      FilterIsSubsequence(init, p);
      var idx :| IsEmbedding(idx, Filter(init, p), init);
      if p(s[|s| - 1]) {
        var idx' := idx + [|s| - 1];
        assert IsEmbedding(idx', Filter(s, p), s);
      } else {
        assert IsEmbedding(idx, Filter(s, p), s);
      }
    }
  }

  /** `xs.find(p)`: the first element satisfying `p`, if any. */
  function Find<T>(s: seq<T>, p: T -> bool): (r: Option<T>)
    ensures r.Some? ==> r.value in s && p(r.value)
    ensures r.None? <==> forall i :: 0 <= i < |s| ==> !p(s[i])
    decreases |s|
  {
    if |s| == 0 then None
    else if p(s[0]) then Some(s[0])
    else Find(s[1..], p)
  }

  /** The row whose `key` is `id`, as a `.eq('id', id).single()` lookup finds it. */
  function FindById<T>(rows: seq<T>, id: string, key: T -> string): (r: Option<T>)
    ensures r.Some? ==> r.value in rows && key(r.value) == id
    ensures r.None? <==> forall i :: 0 <= i < |rows| ==> key(rows[i]) != id
    decreases |rows|
  {
    if |rows| == 0 then None
    else if key(rows[0]) == id then Some(rows[0])
    else FindById(rows[1..], id, key)
  }

  lemma SubsequenceTransitive<T>(a: seq<T>, b: seq<T>, c: seq<T>)
    requires SubsequenceOf(a, b) && SubsequenceOf(b, c)
    ensures SubsequenceOf(a, c)
  {
    var i1 :| IsEmbedding(i1, a, b);
    var i2 :| IsEmbedding(i2, b, c);
    var i3 := seq(|i1|, k requires 0 <= k < |i1| => i2[i1[k]]);
    assert IsEmbedding(i3, a, c);
  }
}
