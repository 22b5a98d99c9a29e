/** `Array.prototype.sort` with a comparator, which ECMAScript requires to be
    stable. It is modelled as a stable insertion sort over a "ranks no lower
    than" relation `le`: `le(a, b)` means the comparator never puts `b`
    before `a`. */
module Sorting {

  ghost predicate Total<T(!new)>(le: (T, T) -> bool) {
    forall a, b :: le(a, b) || le(b, a)
  }

  ghost predicate Transitive<T(!new)>(le: (T, T) -> bool) {
    forall a, b, c :: le(a, b) && le(b, c) ==> le(a, c)
  }

  predicate SortedBy<T>(xs: seq<T>, le: (T, T) -> bool) {
    forall i, j :: 0 <= i < j < |xs| ==> le(xs[i], xs[j])
  }

  /** Inserts `x`, which came before every element of `xs`, ahead of the
      first element it ranks no lower than, so ties keep their order. */
  function Insert<T(!new)>(x: T, xs: seq<T>, le: (T, T) -> bool): (r: seq<T>)
    requires Total(le) && Transitive(le)
    requires SortedBy(xs, le)
    ensures SortedBy(r, le)
    ensures multiset(r) == multiset(xs) + multiset{x}
    ensures |r| == |xs| + 1
    decreases |xs|
  {
    if |xs| == 0 || le(x, xs[0]) then
      InsertFirst(x, xs, le);
      [x] + xs
    else
      var rest := Insert(x, xs[1..], le);
      InsertAfterHead(x, xs, le, rest);
      [xs[0]] + rest
  }

  /** `x` ranks no lower than the head, so it goes in front. */
  lemma InsertFirst<T(!new)>(x: T, xs: seq<T>, le: (T, T) -> bool)
    requires Transitive(le) && SortedBy(xs, le)
    requires |xs| == 0 || le(x, xs[0])
    ensures SortedBy([x] + xs, le)
    ensures multiset([x] + xs) == multiset(xs) + multiset{x}
  {
    forall j | 0 <= j < |xs| ensures le(x, xs[j]) {
      if j > 0 {
        assert le(xs[0], xs[j]);
      }
    }
  }

  /** The head ranks no lower than `x` or anything after it, so it stays in
      front of the rest with `x` inserted. */
  lemma InsertAfterHead<T(!new)>(x: T, xs: seq<T>, le: (T, T) -> bool, rest: seq<T>)
    requires Total(le) && SortedBy(xs, le)
    requires |xs| > 0 && !le(x, xs[0])
    requires SortedBy(rest, le) && multiset(rest) == multiset(xs[1..]) + multiset{x}
    ensures SortedBy([xs[0]] + rest, le)
    ensures multiset([xs[0]] + rest) == multiset(xs) + multiset{x}
  {
    assert xs == [xs[0]] + xs[1..];
    forall j | 0 <= j < |rest| ensures le(xs[0], rest[j]) {
      assert rest[j] in multiset(rest);
      if rest[j] != x {
        assert rest[j] in multiset(xs[1..]);
        var k :| 0 <= k < |xs[1..]| && xs[1..][k] == rest[j];
        assert xs[k + 1] == rest[j];
      }
    }
  }

  /** The sorted arrangement of `xs`: a permutation ordered by `le`. */
  function Sort<T(!new)>(xs: seq<T>, le: (T, T) -> bool): (r: seq<T>)
    requires Total(le) && Transitive(le)
    ensures SortedBy(r, le)
    ensures multiset(r) == multiset(xs)
    ensures |r| == |xs|
    decreases |xs|
  {
    if |xs| == 0 then []
    else
      assert xs == [xs[0]] + xs[1..];
      Insert(xs[0], Sort(xs[1..], le), le)
  }
}
