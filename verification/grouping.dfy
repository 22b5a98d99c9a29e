/** The grouping loop the screens share: walk the expenses in order, look up
    each one's key, and either start a new group (appended to the groups
    created so far) or add the expense to the existing group with that key,
    keeping a running total. The month grouping of the history screen and
    the per-category totals of the home and reports screens are both this
    loop with a different key. Expenses without a key are skipped. */
module Grouping {
  import opened Common
  import opened Records

  /** A group as the loop builds it: its key, its expenses in input order,
      and the running total (`total += amount`, starting from 0). */
  datatype Bucket = Bucket(key: string, items: seq<Expense>, total: real)

  function HasKey(keyOf: Expense -> Option<string>, k: string): Expense -> bool {
    e => keyOf(e) == Some(k)
  }

  function IsKeyed(keyOf: Expense -> Option<string>): Expense -> bool {
    e => keyOf(e).Some?
  }

  /** The expenses whose key is `k`, in input order. */
  function Select(es: seq<Expense>, keyOf: Expense -> Option<string>, k: string): seq<Expense> {
    Filter(es, HasKey(keyOf, k))
  }

  /** The expenses that have a key at all, in input order. */
  function Keyed(es: seq<Expense>, keyOf: Expense -> Option<string>): seq<Expense> {
    Filter(es, IsKeyed(keyOf))
  }

  /** The position of the group with key `k`, if there is one. */
  function KeyIndex(bs: seq<Bucket>, k: string): (r: Option<nat>)
    ensures r.None? <==> forall i :: 0 <= i < |bs| ==> bs[i].key != k
    ensures r.Some? ==> r.value < |bs| && bs[r.value].key == k
    decreases |bs|
  {
    if |bs| == 0 then None
    else if bs[0].key == k then Some(0)
    else
      match KeyIndex(bs[1..], k)
      case None => None
      case Some(i) => Some(i + 1)
  }

  /** One step of the loop: `e` goes to the first group with key `k`, or to
      a new group at the end when there is none. */
  function AddTo(bs: seq<Bucket>, k: string, e: Expense): (r: seq<Bucket>)
    ensures KeyIndex(bs, k).None? ==> r == bs + [Bucket(k, [e], 0.0 + e.amount)]
    ensures KeyIndex(bs, k).Some? ==>
              var i := KeyIndex(bs, k).value;
              r == bs[i := Bucket(k, bs[i].items + [e], bs[i].total + e.amount)]
    decreases |bs|
  {
    if |bs| == 0 then [Bucket(k, [e], 0.0 + e.amount)]
    else if bs[0].key == k then [Bucket(k, bs[0].items + [e], bs[0].total + e.amount)] + bs[1..]
    else [bs[0]] + AddTo(bs[1..], k, e)
  }

  /** The groups after the loop has seen all of `es`, in creation order. */
  function Buckets(es: seq<Expense>, keyOf: Expense -> Option<string>): seq<Bucket>
    decreases |es|
  {
    if |es| == 0 then []
    else
      var bs := Buckets(es[..|es| - 1], keyOf);
      match keyOf(es[|es| - 1])
      case None => bs
      case Some(k) => AddTo(bs, k, es[|es| - 1])
  }

  /** There are no more groups than expenses. */
  lemma {:induction false} BucketsAtMost(es: seq<Expense>, keyOf: Expense -> Option<string>)
    ensures |Buckets(es, keyOf)| <= |es|
    decreases |es|
  {
    if |es| > 0 {
      var bs := Buckets(es[..|es| - 1], keyOf);
      BucketsAtMost(es[..|es| - 1], keyOf);
      match keyOf(es[|es| - 1])
      case None =>
      case Some(k) =>
        assert |AddTo(bs, k, es[|es| - 1])| <= |bs| + 1;
    }
  }

  predicate DistinctKeys(bs: seq<Bucket>) {
    forall i, j :: 0 <= i < j < |bs| ==> bs[i].key != bs[j].key
  }

  /** Each group holds exactly its key's expenses, in input order. */
  predicate ItemsExact(bs: seq<Bucket>, es: seq<Expense>, keyOf: Expense -> Option<string>) {
    forall i :: 0 <= i < |bs| ==> bs[i].items == Select(es, keyOf, bs[i].key)
  }

  predicate NonEmpty(bs: seq<Bucket>) {
    forall i :: 0 <= i < |bs| ==> bs[i].items != []
  }

  /** Each running total is the sum of its group's amounts. */
  predicate TotalsExact(bs: seq<Bucket>) {
    forall i :: 0 <= i < |bs| ==> bs[i].total == SumAmounts(bs[i].items)
  }

  /** Every expense with a key has a group. */
  predicate Covers(bs: seq<Bucket>, es: seq<Expense>, keyOf: Expense -> Option<string>) {
    forall j :: 0 <= j < |es| && keyOf(es[j]).Some? ==> KeyIndex(bs, keyOf(es[j]).value).Some?
  }

  /** `bs` is exactly the grouping of `es` by `keyOf`: one group per key that
      occurs, holding that key's expenses in input order and their sum. */
  predicate Describes(bs: seq<Bucket>, es: seq<Expense>, keyOf: Expense -> Option<string>) {
    DistinctKeys(bs) && ItemsExact(bs, es, keyOf) && NonEmpty(bs) && TotalsExact(bs) && Covers(bs, es, keyOf)
  }

  lemma SumSnoc(items: seq<Expense>, e: Expense)
    ensures SumAmounts(items + [e]) == SumAmounts(items) + e.amount
  {
    assert (items + [e])[..|items|] == items;
  }

  lemma SelectSnoc(es: seq<Expense>, e: Expense, keyOf: Expense -> Option<string>, k: string)
    ensures Select(es + [e], keyOf, k) == Select(es, keyOf, k) + (if keyOf(e) == Some(k) then [e] else [])
  {
    FilterSnoc(es, e, HasKey(keyOf, k));
  }

  /** A key no expense has selects nothing. */
  lemma SelectAbsent(es: seq<Expense>, keyOf: Expense -> Option<string>, k: string)
    requires forall j :: 0 <= j < |es| ==> keyOf(es[j]) != Some(k)
    ensures Select(es, keyOf, k) == []
  {
    FilterNone(es, HasKey(keyOf, k));
  }

  /** A group survives any step that keeps the existing keys in place. */
  lemma KeyIndexKept(bs: seq<Bucket>, r: seq<Bucket>, k: string)
    requires |bs| <= |r| && forall i :: 0 <= i < |bs| ==> r[i].key == bs[i].key
    requires KeyIndex(bs, k).Some?
    ensures KeyIndex(r, k).Some?
  {
    var i := KeyIndex(bs, k).value;
    assert r[i].key == k;
  }

  lemma CoversKept(bs: seq<Bucket>, r: seq<Bucket>, es: seq<Expense>, e: Expense, keyOf: Expense -> Option<string>)
    requires Covers(bs, es, keyOf)
    requires |bs| <= |r| && forall i :: 0 <= i < |bs| ==> r[i].key == bs[i].key
    requires keyOf(e).Some? ==> KeyIndex(r, keyOf(e).value).Some?
    ensures Covers(r, es + [e], keyOf)
  {
    var es' := es + [e];
    forall j | 0 <= j < |es'| && keyOf(es'[j]).Some?
      ensures KeyIndex(r, keyOf(es'[j]).value).Some?
    {
      if j < |es| {
        assert es'[j] == es[j];
        KeyIndexKept(bs, r, keyOf(es[j]).value);
      }
    }
  }

  /** The step that opens a new group keeps the grouping exact. */
  lemma {:induction false} NewGroupDescribes(bs: seq<Bucket>, es: seq<Expense>, keyOf: Expense -> Option<string>, e: Expense)
    requires Describes(bs, es, keyOf) && keyOf(e).Some?
    requires KeyIndex(bs, keyOf(e).value).None?
    ensures Describes(bs + [Bucket(keyOf(e).value, [e], 0.0 + e.amount)], es + [e], keyOf)
  {
    var k := keyOf(e).value;
    var nb := Bucket(k, [e], 0.0 + e.amount);
    var r := bs + [nb];
    assert forall j :: 0 <= j < |es| ==> keyOf(es[j]) != Some(k);
    SelectAbsent(es, keyOf, k);
    forall i | 0 <= i < |r| ensures r[i].items == Select(es + [e], keyOf, r[i].key) {
      SelectSnoc(es, e, keyOf, r[i].key);
    }
    assert SumAmounts([e]) == 0.0 + e.amount by {
      assert [e][..0] == [];
    }
    assert r[|bs|] == nb;
    assert KeyIndex(r, k).Some?;
    CoversKept(bs, r, es, e, keyOf);
  }

  lemma OldGroupItems(bs: seq<Bucket>, es: seq<Expense>, keyOf: Expense -> Option<string>, e: Expense, k: string, i: nat)
    requires DistinctKeys(bs) && ItemsExact(bs, es, keyOf) && keyOf(e) == Some(k)
    requires KeyIndex(bs, k) == Some(i)
    ensures ItemsExact(bs[i := Bucket(k, bs[i].items + [e], bs[i].total + e.amount)], es + [e], keyOf)
  {
    var r := bs[i := Bucket(k, bs[i].items + [e], bs[i].total + e.amount)];
    forall i' | 0 <= i' < |r| ensures r[i'].items == Select(es + [e], keyOf, r[i'].key) {
      SelectSnoc(es, e, keyOf, r[i'].key);
    }
  }

  /** The step that extends an existing group keeps the grouping exact. */
  lemma OldGroupDescribes(bs: seq<Bucket>, es: seq<Expense>, keyOf: Expense -> Option<string>, e: Expense, k: string, i: nat)
    requires Describes(bs, es, keyOf) && keyOf(e) == Some(k)
    requires KeyIndex(bs, k) == Some(i)
    ensures Describes(bs[i := Bucket(k, bs[i].items + [e], bs[i].total + e.amount)], es + [e], keyOf)
  {
    var r := bs[i := Bucket(k, bs[i].items + [e], bs[i].total + e.amount)];
    assert DistinctKeys(r);
    assert NonEmpty(r);
    OldGroupItems(bs, es, keyOf, e, k, i);
    SumSnoc(bs[i].items, e);
    assert TotalsExact(r);
    assert r[i].key == k;
    CoversKept(bs, r, es, e, keyOf);
  }

  /** One loop step keeps the grouping exact. */
  lemma AddToDescribes(bs: seq<Bucket>, es: seq<Expense>, keyOf: Expense -> Option<string>, e: Expense)
    requires Describes(bs, es, keyOf) && keyOf(e).Some?
    ensures Describes(AddTo(bs, keyOf(e).value, e), es + [e], keyOf)
  {
    var k := keyOf(e).value;
    var r := AddTo(bs, k, e);
    match KeyIndex(bs, k)
    case None =>
      assert r == bs + [Bucket(k, [e], 0.0 + e.amount)];
      NewGroupDescribes(bs, es, keyOf, e);
    case Some(i) =>
      assert r == bs[i := Bucket(k, bs[i].items + [e], bs[i].total + e.amount)];
      OldGroupDescribes(bs, es, keyOf, e, k, i);
  }

  /** The loop computes the exact grouping. */
  lemma {:induction false} BucketsDescribe(es: seq<Expense>, keyOf: Expense -> Option<string>)
    ensures Describes(Buckets(es, keyOf), es, keyOf)
    decreases |es|
  {
    if |es| > 0 {
      var front, e := es[..|es| - 1], es[|es| - 1];
      assert es == front + [e];
      BucketsDescribe(front, keyOf);
      var bs := Buckets(front, keyOf);
      if keyOf(e).None? {
        forall i | 0 <= i < |bs| ensures bs[i].items == Select(es, keyOf, bs[i].key) {
          SelectSnoc(front, e, keyOf, bs[i].key);
        }
        CoversKept(bs, bs, front, e, keyOf);
      } else {
        AddToDescribes(bs, front, keyOf, e);
      }
    }
  }

  /** Reordering an exact grouping keeps it exact. */
  lemma PermutedGroups(a: seq<Bucket>, bs: seq<Bucket>, es: seq<Expense>, keyOf: Expense -> Option<string>)
    requires multiset(a) == multiset(bs) && Describes(bs, es, keyOf)
    ensures DistinctKeys(a) && ItemsExact(a, es, keyOf) && NonEmpty(a) && TotalsExact(a)
  {
    forall i | 0 <= i < |a|
      ensures a[i].items == Select(es, keyOf, a[i].key)
      ensures a[i].items != [] && a[i].total == SumAmounts(a[i].items)
    {
      assert a[i] in multiset(bs);
      var x :| 0 <= x < |bs| && bs[x] == a[i];
    }
    assert NoDup(bs);
    NoDupPermutation(a, bs);
    forall i, j | 0 <= i < j < |a| ensures a[i].key != a[j].key {
      assert a[i] in multiset(bs) && a[j] in multiset(bs);
      var x :| 0 <= x < |bs| && bs[x] == a[i];
      var y :| 0 <= y < |bs| && bs[y] == a[j];
      assert x != y;
    }
  }

  // ---------------------------------------------------------------------
  // Sums over groups

  /** The groups' totals added up. */
  function TotalOf(bs: seq<Bucket>): real
    decreases |bs|
  {
    if |bs| == 0 then 0.0 else bs[0].total + TotalOf(bs[1..])
  }

  lemma {:induction false} TotalOfAppend(a: seq<Bucket>, b: seq<Bucket>)
    ensures TotalOf(a + b) == TotalOf(a) + TotalOf(b)
    decreases |a|
  {
    if |a| == 0 {
      assert a + b == b;
    } else {
      assert (a + b)[1..] == a[1..] + b;
      TotalOfAppend(a[1..], b);
    }
  }

  lemma TotalOfSplit(b: seq<Bucket>, j: nat)
    requires j < |b|
    ensures TotalOf(b) == TotalOf(b[..j]) + b[j].total + TotalOf(b[j + 1..])
  {
    assert b == b[..j] + b[j..];
    assert b[j..][1..] == b[j + 1..];
    TotalOfAppend(b[..j], b[j..]);
  }

  /** Rearranging the groups does not change the sum of their totals. */
  lemma {:induction false} TotalOfPermutation(a: seq<Bucket>, b: seq<Bucket>)
    requires multiset(a) == multiset(b)
    ensures TotalOf(a) == TotalOf(b)
    decreases |a|
  {
    if |a| == 0 {
      assert |b| == |multiset(b)| == 0;
    } else {
      assert a[0] in multiset(b);
      var j :| 0 <= j < |b| && b[j] == a[0];
      var b' := b[..j] + b[j + 1..];
      RemoveFirst(a, b, j);
      TotalOfPermutation(a[1..], b');
      TotalOfSplit(b, j);
      TotalOfAppend(b[..j], b[j + 1..]);
    }
  }

  lemma {:induction false} AddToTotal(bs: seq<Bucket>, k: string, e: Expense)
    ensures TotalOf(AddTo(bs, k, e)) == TotalOf(bs) + e.amount
    decreases |bs|
  {
    if |bs| == 0 {
      assert TotalOf([Bucket(k, [e], 0.0 + e.amount)]) == e.amount by {
        assert [Bucket(k, [e], 0.0 + e.amount)][1..] == [];
      }
    } else if bs[0].key == k {
      assert ([Bucket(k, bs[0].items + [e], bs[0].total + e.amount)] + bs[1..])[1..] == bs[1..];
    } else {
      AddToTotal(bs[1..], k, e);
      assert ([bs[0]] + AddTo(bs[1..], k, e))[1..] == AddTo(bs[1..], k, e);
    }
  }

  /** The group totals add up to the sum of the keyed expenses' amounts. */
  lemma {:induction false} BucketsTotal(es: seq<Expense>, keyOf: Expense -> Option<string>)
    ensures TotalOf(Buckets(es, keyOf)) == SumAmounts(Keyed(es, keyOf))
    decreases |es|
  {
    if |es| > 0 {
      var front, e := es[..|es| - 1], es[|es| - 1];
      assert es == front + [e];
      BucketsTotal(front, keyOf);
      BucketsTotalStep(front, e, keyOf);
    }
  }

  /** One more expense keeps the group totals equal to the keyed sum. */
  lemma BucketsTotalStep(front: seq<Expense>, e: Expense, keyOf: Expense -> Option<string>)
    requires TotalOf(Buckets(front, keyOf)) == SumAmounts(Keyed(front, keyOf))
    ensures TotalOf(Buckets(front + [e], keyOf)) == SumAmounts(Keyed(front + [e], keyOf))
  {
    var es := front + [e];
    var bs, ks := Buckets(front, keyOf), Keyed(front, keyOf);
    match keyOf(e)
    case Some(k) =>
      calc {
        TotalOf(Buckets(es, keyOf));
      == { BucketsSnoc(front, e, keyOf); }
        TotalOf(AddTo(bs, k, e));
      == { AddToTotal(bs, k, e); }
        TotalOf(bs) + e.amount;
      ==
        SumAmounts(ks) + e.amount;
      == { SumSnoc(ks, e); }
        SumAmounts(ks + [e]);
      == { FilterSnoc(front, e, IsKeyed(keyOf)); assert IsKeyed(keyOf)(e); }
        SumAmounts(Keyed(es, keyOf));
      }
    case None =>
      calc {
        TotalOf(Buckets(es, keyOf));
      == { BucketsSnoc(front, e, keyOf); }
        TotalOf(bs);
      ==
        SumAmounts(ks);
      == { FilterSnoc(front, e, IsKeyed(keyOf)); assert !IsKeyed(keyOf)(e); assert ks + [] == ks; }
        SumAmounts(Keyed(es, keyOf));
      }
  }

  /** One more expense: its group grows, or nothing changes when it has no key. */
  lemma BucketsSnoc(front: seq<Expense>, e: Expense, keyOf: Expense -> Option<string>)
    ensures keyOf(e).None? ==> Buckets(front + [e], keyOf) == Buckets(front, keyOf)
    ensures keyOf(e).Some? ==> Buckets(front + [e], keyOf) == AddTo(Buckets(front, keyOf), keyOf(e).value, e)
  {
    var es := front + [e];
    assert es[..|es| - 1] == front && es[|es| - 1] == e;
  }
}
