/** The home screen's figures: total spent, the fixed income, the balance,
    the five most recent expenses, the three categories with the largest
    totals, and the progress ring. */
module Home {
  import opened Common
  import opened Records
  import opened Sorting
  import opened Grouping
  import opened Storage
  import opened StorageLaws
  import opened History

  /** `totalExpense`: the sum of the stored amounts, 0 with no list. */
  function TotalExpense(doc: Document): (t: real)
    ensures doc.expenses.Some? && |doc.expenses.value| == 0 ==> t == 0.0
  {
    match doc.expenses
    case None => 0.0
    case Some(es) => SumAmounts(es)
  }

  /** `totalIncome`: a fixed figure. */
  const TotalIncome: real := 65000.0

  /** `currentBalance`: income less spending. */
  function CurrentBalance(doc: Document): (b: real)
    ensures b + TotalExpense(doc) == TotalIncome
  {
    TotalIncome - TotalExpense(doc)
  }

  function Min(a: int, b: int): int {
    if a <= b then a else b
  }

  /** `recentExpenses`: the first five stored expenses (the newest, since
      the store prepends), or none. */
  function RecentExpenses(doc: Document): (r: seq<Expense>)
    ensures doc.expenses.None? ==> r == []
    ensures doc.expenses.Some? ==> |r| == Min(5, |doc.expenses.value|) && r <= doc.expenses.value
  {
    match doc.expenses
    case None => []
    case Some(es) => es[..Min(5, |es|)]
  }

  // ---------------------------------------------------------------------
  // Top categories

  datatype NameTotal = NameTotal(name: string, total: real)

  /** `b.total - a.total` as a "ranks no lower" relation: larger totals first. */
  function ByTotal(a: Bucket, b: Bucket): bool {
    a.total >= b.total
  }

  lemma ByTotalOrders()
    ensures Total(ByTotal) && Transitive(ByTotal)
  {
  }

  /** The per-name groups, largest total first (ties keep creation order). */
  function Ranked(es: seq<Expense>, cats: seq<Category>): (r: seq<Bucket>)
    ensures SortedBy(r, ByTotal)
    ensures multiset(r) == multiset(Buckets(es, CategoryNameOf(cats)))
  {
    ByTotalOrders();
    Sort(Buckets(es, CategoryNameOf(cats)), ByTotal)
  }

  /** `topCategories`: the three largest per-name totals, or none when the
      document lacks its expenses or categories. */
  function TopCategories(doc: Document): (r: seq<NameTotal>)
    ensures |r| <= 3
  {
    if doc.expenses.None? || doc.categories.None? then []
    else
      var ranked := Ranked(doc.expenses.value, doc.categories.value);
      var top := ranked[..Min(3, |ranked|)];
      seq(|top|, i requires 0 <= i < |top| => NameTotal(top[i].key, top[i].total))
  }

  /** The entries shown are the leading entries of the ranking. */
  lemma TopIsRankedPrefix(doc: Document)
    requires doc.expenses.Some? && doc.categories.Some?
    ensures var ranked := Ranked(doc.expenses.value, doc.categories.value);
            var r := TopCategories(doc);
            && |r| == Min(3, |ranked|)
            && forall i :: 0 <= i < |r| ==> r[i] == NameTotal(ranked[i].key, ranked[i].total)
  {
  }

  /** The entries come largest first, under distinct names, each with the
      sum of the amounts of the expenses whose category has that name. */
  lemma TopCategoriesExact(doc: Document)
    requires doc.expenses.Some? && doc.categories.Some?
    ensures var r := TopCategories(doc);
            var nameOf := CategoryNameOf(doc.categories.value);
            && |r| == Min(3, |Buckets(doc.expenses.value, nameOf)|)
            && (forall i, j :: 0 <= i < j < |r| ==> r[i].total >= r[j].total)
            && (forall i, j :: 0 <= i < j < |r| ==> r[i].name != r[j].name)
            && (forall i :: 0 <= i < |r| ==>
                  var items := Select(doc.expenses.value, nameOf, r[i].name);
                  items != [] && r[i].total == SumAmounts(items))
  {
    var es, cats := doc.expenses.value, doc.categories.value;
    var ranked := Ranked(es, cats);
    TopIsRankedPrefix(doc);
    BucketsDescribe(es, CategoryNameOf(cats));
    PermutedGroups(ranked, Buckets(es, CategoryNameOf(cats)), es, CategoryNameOf(cats));
    assert |multiset(ranked)| == |multiset(Buckets(es, CategoryNameOf(cats)))|;
  }

  /** With fewer than three entries on the list, every category name some
      expense carries is on it. */
  lemma TopCategoriesAllWhenFew(doc: Document, name: string)
    requires doc.expenses.Some? && doc.categories.Some?
    requires Select(doc.expenses.value, CategoryNameOf(doc.categories.value), name) != []
    requires |TopCategories(doc)| < 3
    ensures exists i :: 0 <= i < |TopCategories(doc)| && TopCategories(doc)[i].name == name
  {
    var es, cats := doc.expenses.value, doc.categories.value;
    var nameOf := CategoryNameOf(cats);
    var bs := Buckets(es, nameOf);
    var ranked := Ranked(es, cats);
    var r := TopCategories(doc);
    TopCategoriesExact(doc);
    TopIsRankedPrefix(doc);
    BucketsDescribe(es, nameOf);
    var k := SelectedHasGroup(es, nameOf, name);
    assert bs[k] in multiset(ranked);
    var m :| 0 <= m < |ranked| && ranked[m] == bs[k];
    assert |multiset(ranked)| == |multiset(bs)|;
    assert m < |r|;
    assert r[m].name == name;
  }

  /** No name left off the list has a larger total than any name on it. */
  lemma TopCategoriesDominate(doc: Document, name: string)
    requires doc.expenses.Some? && doc.categories.Some?
    requires Select(doc.expenses.value, CategoryNameOf(doc.categories.value), name) != []
    requires forall i :: 0 <= i < |TopCategories(doc)| ==> TopCategories(doc)[i].name != name
    ensures forall i :: 0 <= i < |TopCategories(doc)| ==>
              SumAmounts(Select(doc.expenses.value, CategoryNameOf(doc.categories.value), name)) <= TopCategories(doc)[i].total
  {
    var es, cats := doc.expenses.value, doc.categories.value;
    var nameOf := CategoryNameOf(cats);
    var bs := Buckets(es, nameOf);
    var ranked := Ranked(es, cats);
    var r := TopCategories(doc);
    TopIsRankedPrefix(doc);
    BucketsDescribe(es, nameOf);
    var s := Select(es, nameOf, name);
    var k := SelectedHasGroup(es, nameOf, name);
    assert bs[k] in multiset(ranked);
    var m :| 0 <= m < |ranked| && ranked[m] == bs[k];
    assert forall i :: 0 <= i < |r| ==> ranked[i].key != name;
    assert m >= |r|;
  }

  /** A key some expense carries has a group. */
  lemma SelectedHasGroup(es: seq<Expense>, keyOf: Expense -> Option<string>, k: string) returns (i: nat)
    requires Describes(Buckets(es, keyOf), es, keyOf)
    requires Select(es, keyOf, k) != []
    ensures i < |Buckets(es, keyOf)| && Buckets(es, keyOf)[i].key == k
    ensures Buckets(es, keyOf)[i].items == Select(es, keyOf, k)
  {
    var s := Select(es, keyOf, k);
    FilterMembers(es, HasKey(keyOf, k));
    assert s[0] in s;
    var j :| 0 <= j < |es| && es[j] == s[0];
    i := KeyIndex(Buckets(es, keyOf), k).value;
  }

  // ---------------------------------------------------------------------
  // Progress ring

  function Clamp(x: real): (p: real)
    ensures 0.0 <= p <= 1.0
    ensures 0.0 <= x <= 1.0 ==> p == x
  {
    if x < 0.0 then 0.0 else if x > 1.0 then 1.0 else x
  }

  /** The two half-disc rotations of `RingChart`: the right half fills
      first, up to 180 degrees, and the left half takes the rest. */
  function RingAngles(progress: real): (r: (real, real))
    ensures 0.0 <= r.0 <= 180.0 && 0.0 <= r.1 <= 180.0
    ensures r.0 + r.1 == Clamp(progress) * 360.0
    ensures r.0 < 180.0 ==> r.1 == 0.0
  {
    var deg := Clamp(progress) * 360.0;
    var right := if deg <= 180.0 then deg else 180.0;
    var left := if deg - 180.0 >= 0.0 then deg - 180.0 else 0.0;
    (right, left)
  }

  /** The progress handed to the ring: spending over income, capped at 1. */
  function RingProgress(doc: Document): (p: real)
    ensures p <= 1.0
    ensures p == 1.0 <==> TotalExpense(doc) >= TotalIncome
    ensures TotalExpense(doc) < TotalIncome ==> p == TotalExpense(doc) / TotalIncome
  {
    var x := TotalExpense(doc) / TotalIncome;
    if x <= 1.0 then x else 1.0
  }

  /** The ring is full exactly when spending reaches income, and shows
      nothing when nothing (or a negative sum) has been spent. */
  lemma RingFullWhenIncomeSpent(doc: Document)
    ensures RingAngles(RingProgress(doc)) == (180.0, 180.0) <==> TotalExpense(doc) >= TotalIncome
    ensures TotalExpense(doc) <= 0.0 ==> RingAngles(RingProgress(doc)) == (0.0, 0.0)
  {
  }

  // ---------------------------------------------------------------------
  // Agreement with the other screens

  /** The history screen's month totals add up to the home screen's total. */
  lemma MonthTotalsAddUp(doc: Document, parse: DateParser)
    requires doc.expenses.Some?
    ensures TotalOf(GroupByMonth(doc.expenses.value, parse)) == TotalExpense(doc)
  {
    GroupByMonthTotal(doc.expenses.value, parse);
  }

  /** After an expense is added, the home screen's total grows by its
      amount, the balance drops by it, and it heads the recent list. */
  lemma AddExpenseOnHome(disk: Disk, env: Env, now: Clock, later: Clock, fields: ExpenseFields)
    requires RoundTrips(env.codec) && Writable(disk, env)
    requires LoadData(disk, env, now).value.expenses.Some?
    ensures var before := LoadData(disk, env, now).value;
            var after := LoadData(AddExpense(disk, env, now, fields).disk, env, later).value;
            var e := MintExpense(fields, now);
            && TotalExpense(after) == TotalExpense(before) + e.amount
            && CurrentBalance(after) == CurrentBalance(before) - e.amount
            && RecentExpenses(after)[0] == e
            && RecentExpenses(after)[1..] == RecentExpenses(before)[..Min(4, |RecentExpenses(before)|)]
  {
    var before := LoadData(disk, env, now).value;
    var after := LoadData(AddExpense(disk, env, now, fields).disk, env, later).value;
    AddExpenseThenGet(disk, env, now, later, fields);
    HomeAfterPrepend(before, after, MintExpense(fields, now));
  }

  /** The home figures of a document whose expense list gained `e` at the front. */
  lemma HomeAfterPrepend(before: Document, after: Document, e: Expense)
    requires before.expenses.Some? && after.expenses == Some([e] + before.expenses.value)
    ensures TotalExpense(after) == TotalExpense(before) + e.amount
    ensures CurrentBalance(after) == CurrentBalance(before) - e.amount
    ensures RecentExpenses(after)[0] == e
    ensures RecentExpenses(after)[1..] == RecentExpenses(before)[..Min(4, |RecentExpenses(before)|)]
  {
    SumCons(e, before.expenses.value);
  }
}
