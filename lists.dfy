/** The array operations the handlers and reducers use on keyed records:
    `findIndex`, replace-the-first-match, `map` that replaces every match,
    and `filter` that drops every match. A record's key is given as a
    function, so one definition serves carts, products, orders and users. */
module Lists {

  /** `xs.findIndex(x => key(x) === k)`: the first index whose key is `k`, or -1. */
  function IndexOf<T, K(==)>(xs: seq<T>, key: T -> K, k: K): (i: int)
    ensures -1 <= i < |xs|
    ensures i >= 0 ==> key(xs[i]) == k && forall j :: 0 <= j < i ==> key(xs[j]) != k
    ensures i == -1 <==> forall j :: 0 <= j < |xs| ==> key(xs[j]) != k
  {
    if |xs| == 0 then -1
    else if key(xs[0]) == k then 0
    else
      var r := IndexOf(xs[1..], key, k);
      if r == -1 then -1 else r + 1
  }

  /** The loop behind `findIndex`. */
  method FindIndex<T, K(==)>(xs: seq<T>, key: T -> K, k: K) returns (i: int)
    ensures i == IndexOf(xs, key, k)
  {
    i := 0;
    while i < |xs|
      invariant 0 <= i <= |xs|
      invariant forall j :: 0 <= j < i ==> key(xs[j]) != k
    {
      if key(xs[i]) == k {
        return;
      }
      i := i + 1;
    }
    i := -1;
  }

  /** `const i = xs.findIndex(...); if (i !== -1) xs[i] = v;` */
  function ReplaceFirst<T, K(==)>(xs: seq<T>, key: T -> K, k: K, v: T): (r: seq<T>)
    ensures |r| == |xs|
    ensures IndexOf(xs, key, k) == -1 ==> r == xs
    ensures IndexOf(xs, key, k) >= 0 ==> r[IndexOf(xs, key, k)] == v
    ensures forall j :: 0 <= j < |xs| && j != IndexOf(xs, key, k) ==> r[j] == xs[j]
  {
    var i := IndexOf(xs, key, k);
    if i == -1 then xs else xs[i := v]
  }

  /** `xs.map(x => key(x) === k ? v : x)`. */
  function ReplaceEvery<T, K(==)>(xs: seq<T>, key: T -> K, k: K, v: T): (r: seq<T>)
    ensures |r| == |xs|
  {
    seq(|xs|, j requires 0 <= j < |xs| => if key(xs[j]) == k then v else xs[j])
  }

  /** `xs.filter(x => key(x) !== k)`. */
  function RemoveKey<T, K(==)>(xs: seq<T>, key: T -> K, k: K): (r: seq<T>)
    ensures |r| <= |xs|
  {
    if |xs| == 0 then []
    else (if key(xs[0]) == k then [] else [xs[0]]) + RemoveKey(xs[1..], key, k)
  }

  /** What `filter` keeps: exactly the elements whose key differs from `k`. */
  lemma {:induction false} RemoveKeyMembers<T, K>(xs: seq<T>, key: T -> K, k: K)
    ensures forall x :: x in RemoveKey(xs, key, k) <==> x in xs && key(x) != k
  {
    if |xs| > 0 {
      RemoveKeyMembers(xs[1..], key, k);
      assert xs == [xs[0]] + xs[1..];
    }
  }

  /** `filter` keeps the order: it distributes over concatenation, so the
      survivors of `a + b` are the survivors of `a` followed by those of `b`. */
  lemma {:induction false} RemoveKeyAppend<T, K>(a: seq<T>, b: seq<T>, key: T -> K, k: K)
    ensures RemoveKey(a + b, key, k) == RemoveKey(a, key, k) + RemoveKey(b, key, k)
  {
    if |a| > 0 {
      assert (a + b)[1..] == a[1..] + b;
      RemoveKeyAppend(a[1..], b, key, k);
    } else {
      assert a + b == b;
    }
  }

  /** A list without the key is left as it is. */
  lemma {:induction false} RemoveKeyAbsent<T, K>(xs: seq<T>, key: T -> K, k: K)
    requires forall j :: 0 <= j < |xs| ==> key(xs[j]) != k
    ensures RemoveKey(xs, key, k) == xs
  {
    if |xs| > 0 {
      RemoveKeyAbsent(xs[1..], key, k);
      assert xs == [xs[0]] + xs[1..];
    }
  }

  /** A list whose every element has the key is emptied. */
  lemma {:induction false} RemoveKeyEvery<T, K>(xs: seq<T>, key: T -> K, k: K)
    requires forall j :: 0 <= j < |xs| ==> key(xs[j]) == k
    ensures RemoveKey(xs, key, k) == []
  {
    if |xs| > 0 {
      RemoveKeyEvery(xs[1..], key, k);
    }
  }

  /** Dropping the one element with the key takes it out where it stood. */
  lemma RemoveKeyOnce<T, K>(before: seq<T>, x: T, after: seq<T>, key: T -> K, k: K)
    requires forall j :: 0 <= j < |before| ==> key(before[j]) != k
    requires key(x) == k
    requires forall j :: 0 <= j < |after| ==> key(after[j]) != k
    ensures RemoveKey(before + [x] + after, key, k) == before + after
  {
    var front := before + [x];
    calc {
      RemoveKey(front + after, key, k);
      { RemoveKeyAppend(front, after, key, k); }
      RemoveKey(front, key, k) + RemoveKey(after, key, k);
      { RemoveKeyAppend(before, [x], key, k); }
      RemoveKey(before, key, k) + RemoveKey([x], key, k) + RemoveKey(after, key, k);
      { RemoveKeyAbsent(before, key, k); RemoveKeyEvery([x], key, k); RemoveKeyAbsent(after, key, k); }
      before + [] + after;
      { assert before + [] == before; }
      before + after;
    }
  }

  /** Dropping one element: the shape of `splice(i, 1)`. */
  function RemoveAt<T>(xs: seq<T>, i: nat): (r: seq<T>)
    requires i < |xs|
    ensures |r| == |xs| - 1
    ensures forall j :: 0 <= j < i ==> r[j] == xs[j]
    ensures forall j :: i <= j < |r| ==> r[j] == xs[j + 1]
  {
    xs[..i] + xs[i + 1..]
  }

  /** Two lists whose keys agree position by position have the same first
      match for every key. */
  lemma IndexOfSameKeys<T, K>(xs: seq<T>, ys: seq<T>, key: T -> K, k: K)
    requires |xs| == |ys|
    requires forall j :: 0 <= j < |xs| ==> key(xs[j]) == key(ys[j])
    ensures IndexOf(xs, key, k) == IndexOf(ys, key, k)
  {
  }
}
