/** The reports screen's per-category totals: one entry per category name
    that some expense's category id leads to, in the order the names first
    occur, with the icon of the category that started the entry. */
module Reports {
  import opened Common
  import opened Records
  import opened Grouping
  import Home

  datatype CategoryTotal = CategoryTotal(name: string, icon: string, total: real)

  /** The icon recorded when a group was started: that of the category its
      first expense finds. */
  function IconOf(cats: seq<Category>, b: Bucket): string {
    if |b.items| == 0 then ""
    else
      match FindCategory(cats, b.items[0].categoryId)
      case None => ""
      case Some(c) => c.icon
  }

  function Entries(cats: seq<Category>, bs: seq<Bucket>): (ts: seq<CategoryTotal>)
    ensures |ts| == |bs|
  {
    seq(|bs|, i requires 0 <= i < |bs| => CategoryTotal(bs[i].key, IconOf(cats, bs[i]), bs[i].total))
  }

  /** `getCategoryTotals`: no entries without an expense list; `None` where
      the function throws, which is when some expense must be looked up but
      the document has no category list. */
  function CategoryTotals(doc: Document): (r: Option<seq<CategoryTotal>>)
    ensures r.None? <==> doc.expenses.Some? && |doc.expenses.value| > 0 && doc.categories.None?
    ensures doc.expenses.None? ==> r == Some([])
    ensures r.Some? ==> |r.value| <= |doc.expenses.GetOr([])|
  {
    match doc.expenses
    case None => Some([])
    case Some(es) =>
      if |es| == 0 then Some([])
      else if doc.categories.None? then None
      else
        var bs := Buckets(es, CategoryNameOf(doc.categories.value));
        BucketsAtMost(es, CategoryNameOf(doc.categories.value));
        Some(Entries(doc.categories.value, bs))
  }

  /** With both lists present, the entries are the category groups: names
      distinct, each total the sum of the amounts of the expenses whose
      category carries that name, each icon that of the category the
      name's first expense finds, and every matched expense counted. */
  lemma CategoryTotalsExact(doc: Document)
    requires doc.expenses.Some? && doc.categories.Some?
    ensures CategoryTotals(doc).Some?
    ensures var ts := CategoryTotals(doc).value;
            var es, cats := doc.expenses.value, doc.categories.value;
            var nameOf := CategoryNameOf(cats);
            && (forall i, j :: 0 <= i < j < |ts| ==> ts[i].name != ts[j].name)
            && (forall i :: 0 <= i < |ts| ==>
                  var items := Select(es, nameOf, ts[i].name);
                  && items != []
                  && ts[i].total == SumAmounts(items)
                  && FindCategory(cats, items[0].categoryId).Some?
                  && FindCategory(cats, items[0].categoryId).value.name == ts[i].name
                  && ts[i].icon == FindCategory(cats, items[0].categoryId).value.icon)
            && (forall j :: 0 <= j < |es| && FindCategory(cats, es[j].categoryId).Some? ==>
                  exists i :: 0 <= i < |ts| && ts[i].name == FindCategory(cats, es[j].categoryId).value.name)
  {
    var es, cats := doc.expenses.value, doc.categories.value;
    var nameOf := CategoryNameOf(cats);
    var bs := Buckets(es, nameOf);
    BucketsDescribe(es, nameOf);
    if |es| == 0 {
      assert bs == [];
    } else {
      var ts := CategoryTotals(doc).value;
      assert ts == Entries(cats, bs);
      forall i | 0 <= i < |ts|
        ensures FindCategory(cats, bs[i].items[0].categoryId).Some?
        ensures FindCategory(cats, bs[i].items[0].categoryId).value.name == bs[i].key
      {
        FilterMembers(es, HasKey(nameOf, bs[i].key));
        assert bs[i].items[0] in bs[i].items;
        assert nameOf(bs[i].items[0]) == Some(bs[i].key);
      }
      forall j | 0 <= j < |es| && FindCategory(cats, es[j].categoryId).Some?
        ensures exists i :: 0 <= i < |ts| && ts[i].name == FindCategory(cats, es[j].categoryId).value.name
      {
        assert nameOf(es[j]).Some?;
        var i := KeyIndex(bs, nameOf(es[j]).value).value;
        assert ts[i].name == bs[i].key;
      }
    }
  }

  /** The entries' totals added up. */
  function SumTotals(ts: seq<CategoryTotal>): real
    decreases |ts|
  {
    if |ts| == 0 then 0.0 else ts[0].total + SumTotals(ts[1..])
  }

  lemma {:induction false} SumTotalsOfEntries(cats: seq<Category>, bs: seq<Bucket>)
    ensures SumTotals(Entries(cats, bs)) == TotalOf(bs)
    decreases |bs|
  {
    if |bs| > 0 {
      assert Entries(cats, bs)[1..] == Entries(cats, bs[1..]);
      SumTotalsOfEntries(cats, bs[1..]);
    }
  }

  /** The report's totals add up to the amounts of the expenses whose
      category id finds a category: the others count nowhere. */
  lemma CategoryTotalsSum(doc: Document)
    requires doc.expenses.Some? && doc.categories.Some?
    ensures SumTotals(CategoryTotals(doc).value)
            == SumAmounts(Keyed(doc.expenses.value, CategoryNameOf(doc.categories.value)))
  {
    var es, cats := doc.expenses.value, doc.categories.value;
    BucketsTotal(es, CategoryNameOf(cats));
    if |es| == 0 {
      FilterNone(es, IsKeyed(CategoryNameOf(cats)));
    } else {
      SumTotalsOfEntries(cats, Buckets(es, CategoryNameOf(cats)));
    }
  }

  /** Adding an expense whose category id finds no category leaves the
      report as it was. */
  lemma UnmatchedExpenseIgnored(doc: Document, e: Expense)
    requires doc.expenses.Some? && doc.categories.Some?
    requires FindCategory(doc.categories.value, e.categoryId).None?
    ensures CategoryTotals(doc.(expenses := Some(doc.expenses.value + [e]))) == CategoryTotals(doc)
  {
    var es, cats := doc.expenses.value, doc.categories.value;
    assert (es + [e])[..|es + [e]| - 1] == es;
    assert CategoryNameOf(cats)(e).None?;
    if es == [] {
      assert Buckets(es + [e], CategoryNameOf(cats)) == [];
    }
  }

  /** The home screen's top categories are entries of the report, with the
      same totals. */
  lemma TopCategoriesAreReported(doc: Document)
    requires doc.expenses.Some? && doc.categories.Some?
    ensures CategoryTotals(doc).Some?
    ensures forall k :: 0 <= k < |Home.TopCategories(doc)| ==>
              exists i :: 0 <= i < |CategoryTotals(doc).value|
                          && CategoryTotals(doc).value[i].name == Home.TopCategories(doc)[k].name
                          && CategoryTotals(doc).value[i].total == Home.TopCategories(doc)[k].total
  {
    var top := Home.TopCategories(doc);
    var ts := CategoryTotals(doc).value;
    forall k | 0 <= k < |top|
      ensures exists i :: 0 <= i < |ts| && ts[i].name == top[k].name && ts[i].total == top[k].total
    {
      var i := TopEntryReported(doc, k);
      assert i < |ts| && ts[i].name == top[k].name && ts[i].total == top[k].total;
    }
    assert forall k :: 0 <= k < |top| ==> exists i :: 0 <= i < |ts| && ts[i].name == top[k].name && ts[i].total == top[k].total;
  }

  lemma TopEntryReported(doc: Document, k: nat) returns (i: nat)
    requires doc.expenses.Some? && doc.categories.Some?
    requires k < |Home.TopCategories(doc)|
    ensures CategoryTotals(doc).Some?
    ensures var ts := CategoryTotals(doc).value;
            var t := Home.TopCategories(doc)[k];
            i < |ts| && ts[i].name == t.name && ts[i].total == t.total
  {
    var es, cats := doc.expenses.value, doc.categories.value;
    var bs := Buckets(es, CategoryNameOf(cats));
    var ranked := Home.Ranked(es, cats);
    Home.TopIsRankedPrefix(doc);
    assert CategoryTotals(doc).value == Entries(cats, bs);
    assert ranked[k] in multiset(bs);
    i :| 0 <= i < |bs| && bs[i] == ranked[k];
  }
}
