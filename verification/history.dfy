/** The history screen: the filters it applies to the stored expenses
    (period, categories, search text) and the month grouping it shows,
    newest month first. */
module History {
  import opened Common
  import opened Strings
  import opened Records
  import opened Sorting
  import opened Grouping
  import opened Calendar

  /** A local reading of a valid `Date`. */
  type Reading = t: Moment | Valid(t) witness Moment(1970, 1, 1, 0)

  /** `new Date(text)` read in local time: `None` when the text does not
      parse (an invalid date, whose every getter yields NaN). */
  type DateParser = string -> Option<Reading>

  // ---------------------------------------------------------------------
  // Month grouping

  /** `${n}` for an integer. */
  function YearText(y: int): string {
    if y < 0 then "-" + Decimal(-y) else Decimal(y)
  }

  /** The group key `YYYY-MM` of an expense date; an invalid date gives
      `NaN-NaN`. */
  function MonthKey(t: Option<Reading>): string {
    match t
    case None => "NaN-NaN"
    case Some(m) => YearText(m.year) + "-" + Pad2(m.month)
  }

  function MonthKeyOf(parse: DateParser): Expense -> Option<string> {
    (e: Expense) => Some(MonthKey(parse(e.date)))
  }

  /** A four-digit year's key splits into its year digits and the rest. */
  lemma MonthKeyParts(a: Reading)
    requires 1000 <= a.year <= 9999
    ensures MonthKey(Some(a)) == Decimal(a.year) + ("-" + Pad2(a.month))
    ensures |Decimal(a.year)| == 4 && |Pad2(a.month)| == 2
  {
    FourDigitYear(a.year);
  }

  /** On four-digit years, equal keys mean the same month. */
  lemma MonthKeySame(a: Reading, b: Reading)
    requires 1000 <= a.year <= 9999 && 1000 <= b.year <= 9999
    ensures MonthKey(Some(a)) == MonthKey(Some(b)) <==> a.year == b.year && a.month == b.month
  {
    var p, q := Decimal(a.year), Decimal(b.year);
    var x, y := Pad2(a.month), Pad2(b.month);
    MonthKeyParts(a);
    MonthKeyParts(b);
    DigitOrderIsNumeric(p, q);
    DigitOrderIsNumeric(x, y);
    if p + ("-" + x) == q + ("-" + y) {
      assert p == (p + ("-" + x))[..4] == (q + ("-" + y))[..4] == q;
      assert x == (p + ("-" + x))[5..] == (q + ("-" + y))[5..] == y;
    }
  }

  /** On four-digit years, comparing keys as text is comparing months in time. */
  lemma MonthKeyOrder(a: Reading, b: Reading)
    requires 1000 <= a.year <= 9999 && 1000 <= b.year <= 9999
    ensures LexLess(MonthKey(Some(a)), MonthKey(Some(b))) <==>
              a.year < b.year || (a.year == b.year && a.month < b.month)
  {
    var p, q := Decimal(a.year), Decimal(b.year);
    var x, y := Pad2(a.month), Pad2(b.month);
    MonthKeyParts(a);
    MonthKeyParts(b);
    LexConcat(p, "-" + x, q, "-" + y);
    LexConcat("-", x, "-", y);
    LexIrreflexive("-");
    DigitOrderIsNumeric(p, q);
    DigitOrderIsNumeric(x, y);
  }

  /** `b.key.localeCompare(a.key)` as a "ranks no lower" relation: a group
      may precede another whose key is not greater. */
  function LaterKey(a: Bucket, b: Bucket): bool {
    !LexLess(a.key, b.key)
  }

  lemma LaterKeyOrders()
    ensures Total(LaterKey) && Transitive(LaterKey)
  {
    forall a: Bucket, b: Bucket ensures LaterKey(a, b) || LaterKey(b, a) {
      if LexLess(a.key, b.key) {
        LexAsymmetric(a.key, b.key);
      }
    }
    forall a: Bucket, b: Bucket, c: Bucket | LaterKey(a, b) && LaterKey(b, c)
      ensures LaterKey(a, c)
    {
      if a.key != b.key && b.key != c.key {
        LexConnected(a.key, b.key);
        LexConnected(b.key, c.key);
        LexTransitive(c.key, b.key, a.key);
        LexAsymmetric(c.key, a.key);
      }
    }
  }

  /** `groupByMonth`: one group per month, newest first. */
  function GroupByMonth(es: seq<Expense>, parse: DateParser): (r: seq<Bucket>)
    ensures |r| <= |es|
  {
    LaterKeyOrders();
    var bs := Buckets(es, MonthKeyOf(parse));
    BucketsAtMost(es, MonthKeyOf(parse));
    Sort(bs, LaterKey)
  }

  /** The sorted groups are a rearrangement of the loop's groups. */
  lemma GroupByMonthPermutes(es: seq<Expense>, parse: DateParser)
    ensures multiset(GroupByMonth(es, parse)) == multiset(Buckets(es, MonthKeyOf(parse)))
    ensures SortedBy(GroupByMonth(es, parse), LaterKey)
  {
    LaterKeyOrders();
  }

  /** Month keys strictly descend: newest month first, no month twice. */
  lemma GroupByMonthDescending(es: seq<Expense>, parse: DateParser)
    ensures var r := GroupByMonth(es, parse);
            forall i, j :: 0 <= i < j < |r| ==> LexLess(r[j].key, r[i].key)
  {
    var keyOf := MonthKeyOf(parse);
    var bs := Buckets(es, keyOf);
    var r := GroupByMonth(es, parse);
    GroupByMonthPermutes(es, parse);
    BucketsDescribe(es, keyOf);
    assert NoDup(bs);
    NoDupPermutation(r, bs);
    forall i, j | 0 <= i < j < |r| ensures LexLess(r[j].key, r[i].key) {
      assert LaterKey(r[i], r[j]);
      assert r[i] in multiset(bs) && r[j] in multiset(bs);
      var a :| 0 <= a < |bs| && bs[a] == r[i];
      var b :| 0 <= b < |bs| && bs[b] == r[j];
      assert a != b;
      LexConnected(r[i].key, r[j].key);
    }
  }

  /** Each month group holds exactly that month's expenses, in stored
      order, and their sum; every expense's month has a group. */
  lemma GroupByMonthExact(es: seq<Expense>, parse: DateParser)
    ensures var r := GroupByMonth(es, parse);
            && (forall i :: 0 <= i < |r| ==> r[i].items == Select(es, MonthKeyOf(parse), r[i].key))
            && (forall i :: 0 <= i < |r| ==> r[i].items != [] && r[i].total == SumAmounts(r[i].items))
            && (forall j :: 0 <= j < |es| ==> exists i :: 0 <= i < |r| && r[i].key == MonthKey(parse(es[j].date)))
  {
    var keyOf := MonthKeyOf(parse);
    var bs := Buckets(es, keyOf);
    var r := GroupByMonth(es, parse);
    GroupByMonthPermutes(es, parse);
    BucketsDescribe(es, keyOf);
    PermutedGroups(r, bs, es, keyOf);
    forall j | 0 <= j < |es| ensures exists i :: 0 <= i < |r| && r[i].key == MonthKey(parse(es[j].date)) {
      MonthHasGroup(es, parse, j);
    }
  }

  /** The month of the `j`-th expense heads one of the month groups. */
  lemma MonthHasGroup(es: seq<Expense>, parse: DateParser, j: nat)
    requires j < |es|
    ensures exists i :: 0 <= i < |GroupByMonth(es, parse)| && GroupByMonth(es, parse)[i].key == MonthKey(parse(es[j].date))
  {
    var bs := Buckets(es, MonthKeyOf(parse));
    var r := GroupByMonth(es, parse);
    GroupByMonthPermutes(es, parse);
    BucketsDescribe(es, MonthKeyOf(parse));
    assert MonthKeyOf(parse)(es[j]).Some?;
    var k := KeyIndex(bs, MonthKey(parse(es[j].date))).value;
    assert bs[k] in multiset(r);
    var i :| 0 <= i < |r| && r[i] == bs[k];
  }

  /** The month totals add up to the sum of all the expenses. */
  lemma GroupByMonthTotal(es: seq<Expense>, parse: DateParser)
    ensures TotalOf(GroupByMonth(es, parse)) == SumAmounts(es)
  {
    var keyOf := MonthKeyOf(parse);
    GroupByMonthPermutes(es, parse);
    TotalOfPermutation(GroupByMonth(es, parse), Buckets(es, keyOf));
    BucketsTotal(es, keyOf);
    FilterAll(es, IsKeyed(keyOf));
  }

  // ---------------------------------------------------------------------
  // Filters

  datatype Period = All | ThisMonth | LastMonth | ThisWeek

  /** `PERIODS`, in the order the filter sheet lists them. */
  const Periods: seq<Period> := [All, ThisMonth, LastMonth, ThisWeek]

  function Label(p: Period): string {
    match p
    case All => "All"
    case ThisMonth => "This Month"
    case LastMonth => "Last Month"
    case ThisWeek => "This Week"
  }

  /** Every period is offered once, under its own label. */
  lemma PeriodsListed()
    ensures forall p: Period :: p in Periods
    ensures NoDup(Periods)
    ensures forall p: Period, q: Period :: Label(p) == Label(q) ==> p == q
  {
    forall p: Period ensures p in Periods {
      match p
      case All => assert Periods[0] == p;
      case ThisMonth => assert Periods[1] == p;
      case LastMonth => assert Periods[2] == p;
      case ThisWeek => assert Periods[3] == p;
    }
  }

  /** The instants the period filters compare against. */
  datatype Bounds = Bounds(weekStart: Moment, monthStart: Moment, lastMonthStart: Moment, lastMonthEnd: Moment)

  /** The bounds as the screen builds them: the week starts on Sunday at
      the current time of day, and last month ends at midnight at the start
      of its last day. */
  function SourceBounds(now: Reading): (b: Bounds)
    ensures var i := IntendedBounds(now);
            b == i.(weekStart := i.weekStart.(millis := now.millis), lastMonthEnd := i.lastMonthEnd.(millis := 0))
  {
    var (sy, sm, sd) := SundayOf(now.year, now.month, now.day);
    var (py, pm) := PreviousMonth(now.year, now.month);
    Bounds(Moment(sy, sm, sd, now.millis), Moment(now.year, now.month, 1, 0),
           Moment(py, pm, 1, 0), Moment(py, pm, DaysInMonth(py, pm), 0))
  }

  /** The bounds the periods call for: the week starts on Sunday at
      midnight, and last month ends at the last millisecond of its last day. */
  function IntendedBounds(now: Reading): Bounds {
    var (sy, sm, sd) := SundayOf(now.year, now.month, now.day);
    var (py, pm) := PreviousMonth(now.year, now.month);
    Bounds(Moment(sy, sm, sd, 0), Moment(now.year, now.month, 1, 0),
           Moment(py, pm, 1, 0), Moment(py, pm, DaysInMonth(py, pm), DayMillis - 1))
  }

  /** Whether an expense dated `t` survives the period filter; an invalid
      date fails every comparison. */
  predicate InPeriod(b: Bounds, p: Period, t: Option<Reading>) {
    match p
    case All => true
    case ThisWeek => t.Some? && NotBefore(t.value, b.weekStart)
    case ThisMonth => t.Some? && NotBefore(t.value, b.monthStart)
    case LastMonth => t.Some? && NotBefore(t.value, b.lastMonthStart) && NotBefore(b.lastMonthEnd, t.value)
  }

  /** Calendar order of the dates alone, ignoring the time of day. */
  predicate DateBefore(t: Moment, y: int, m: int, d: int) {
    t.year < y || (t.year == y && t.month < m) || (t.year == y && t.month == m && t.day < d)
  }

  /** With the intended bounds, this week holds exactly the dates from this
      week's Sunday on, whatever their time of day, and that Sunday is a
      Sunday no more than six days back. */
  lemma ThisWeekIsFromSunday(now: Reading, t: Reading)
    ensures var (sy, sm, sd) := SundayOf(now.year, now.month, now.day);
            && (InPeriod(IntendedBounds(now), ThisWeek, Some(t)) <==> !DateBefore(t, sy, sm, sd))
            && Weekday(sy, sm, sd) == 0
            && DayNumber(now.year, now.month, now.day) - 6 <= DayNumber(sy, sm, sd) <= DayNumber(now.year, now.month, now.day)
  {
    SundayIsSunday(now.year, now.month, now.day);
  }

  /** With the intended bounds, last month holds exactly the dates of the
      calendar month before the current one. */
  lemma LastMonthIsPreviousMonth(now: Reading, t: Reading)
    ensures InPeriod(IntendedBounds(now), LastMonth, Some(t)) <==>
              (t.year, t.month) == PreviousMonth(now.year, now.month)
  {
  }

  /** This month holds the dates from the first of the current month on. */
  lemma ThisMonthIsFromFirst(now: Reading, t: Reading)
    ensures InPeriod(IntendedBounds(now), ThisMonth, Some(t)) <==>
              t.year > now.year || (t.year == now.year && t.month >= now.month)
  {
  }

  /** As written, an expense made this Sunday before the current time of day
      falls outside "This Week": on Wednesday 2024-01-17 at 14:00, one from
      Sunday 2024-01-14 at 05:30 is dropped. */
  lemma SourceWeekMissesEarlySunday()
    ensures var now := Moment(2024, 1, 17, 14 * 3_600_000);
            var t := Moment(2024, 1, 14, 5 * 3_600_000 + 30 * 60_000);
            && Valid(now) && Valid(t)
            && SundayOf(2024, 1, 17) == (2024, 1, 14)
            && !InPeriod(SourceBounds(now), ThisWeek, Some(t))
            && InPeriod(IntendedBounds(now), ThisWeek, Some(t))
  {
    assert DayNumber(2024, 1, 17) == 19739;
    assert Weekday(2024, 1, 17) == 3;
  }

  /** As written, an expense on the last day of last month after midnight
      falls outside "Last Month": on 2024-02-10, one from 2024-01-31 at
      05:30 (a `YYYY-MM-DD` date read at UTC+05:30) is dropped. */
  lemma SourceLastMonthMissesLastDay()
    ensures var now := Moment(2024, 2, 10, 12 * 3_600_000);
            var t := Moment(2024, 1, 31, 5 * 3_600_000 + 30 * 60_000);
            && Valid(now) && Valid(t)
            && !InPeriod(SourceBounds(now), LastMonth, Some(t))
            && InPeriod(IntendedBounds(now), LastMonth, Some(t))
  {
  }

  /** The filter state of the screen. */
  datatype Filters = Filters(period: Period, cats: seq<string>, search: string)

  const Unfiltered: Filters := Filters(All, [], "")

  function PeriodTest(b: Bounds, p: Period, parse: DateParser): Expense -> bool {
    (e: Expense) => InPeriod(b, p, parse(e.date))
  }

  function CategoryTest(cats: seq<string>): Expense -> bool {
    (e: Expense) => e.categoryId in cats
  }

  /** The search test with the already lower-cased query `q`: the
      description, or the name of the expense's category, contains it. */
  predicate Matches(categories: Option<seq<Category>>, q: string, e: Expense) {
    || Contains(ToLower(e.description), q)
    || (categories.Some? && FindCategory(categories.value, e.categoryId).Some?
        && Contains(ToLower(FindCategory(categories.value, e.categoryId).value.name), q))
  }

  function SearchTest(categories: Option<seq<Category>>, q: string): Expense -> bool {
    (e: Expense) => Matches(categories, q, e)
  }

  function PeriodStage(es: seq<Expense>, b: Bounds, p: Period, parse: DateParser): seq<Expense> {
    if p == All then es else Filter(es, PeriodTest(b, p, parse))
  }

  function CategoryStage(es: seq<Expense>, cats: seq<string>): seq<Expense> {
    if |cats| > 0 then Filter(es, CategoryTest(cats)) else es
  }

  /** The query is lower-cased but not trimmed; only the decision to search
      looks at the trimmed text. */
  function SearchStage(es: seq<Expense>, categories: Option<seq<Category>>, search: string): seq<Expense> {
    if Trim(search) != [] then Filter(es, SearchTest(categories, ToLower(search))) else es
  }

  /** `filterExpenses` against the period bounds `b`: period, then
      categories, then search. */
  function FilterExpenses(doc: Document, f: Filters, b: Bounds, parse: DateParser): seq<Expense> {
    match doc.expenses
    case None => []
    case Some(es) =>
      var byPeriod := PeriodStage(es, b, f.period, parse);
      SearchStage(CategoryStage(byPeriod, f.cats), doc.categories, f.search)
  }

  /** The list the screen shows, with the bounds built as the code builds them. */
  function ScreenList(doc: Document, f: Filters, now: Reading, parse: DateParser): seq<Expense> {
    FilterExpenses(doc, f, SourceBounds(now), parse)
  }

  /** The list with the corrected bounds. */
  function CorrectedList(doc: Document, f: Filters, now: Reading, parse: DateParser): seq<Expense> {
    FilterExpenses(doc, f, IntendedBounds(now), parse)
  }

  /** Whether one expense is shown: it passes every active filter. */
  predicate Shown(doc: Document, f: Filters, b: Bounds, parse: DateParser, e: Expense) {
    && InPeriod(b, f.period, parse(e.date))
    && (|f.cats| == 0 || e.categoryId in f.cats)
    && (Trim(f.search) == [] || Matches(doc.categories, ToLower(f.search), e))
  }

  /** Each stage keeps the stored order, and keeps every passing expense as
      often as it is stored and no other. */
  lemma PeriodStageSpec(es: seq<Expense>, b: Bounds, p: Period, parse: DateParser)
    ensures IsSubseq(PeriodStage(es, b, p, parse), es)
    ensures forall e :: multiset(PeriodStage(es, b, p, parse))[e] ==
                          if InPeriod(b, p, parse(e.date)) then multiset(es)[e] else 0
  {
    if p == All {
      SubseqRefl(es);
    } else {
      FilterSubseq(es, PeriodTest(b, p, parse));
      FilterCount(es, PeriodTest(b, p, parse));
    }
  }

  lemma CategoryStageSpec(es: seq<Expense>, cats: seq<string>)
    ensures IsSubseq(CategoryStage(es, cats), es)
    ensures forall e :: multiset(CategoryStage(es, cats))[e] ==
                          if |cats| == 0 || e.categoryId in cats then multiset(es)[e] else 0
  {
    if |cats| > 0 {
      FilterSubseq(es, CategoryTest(cats));
      FilterCount(es, CategoryTest(cats));
    } else {
      SubseqRefl(es);
    }
  }

  lemma SearchStageSpec(es: seq<Expense>, categories: Option<seq<Category>>, search: string)
    ensures IsSubseq(SearchStage(es, categories, search), es)
    ensures forall e :: multiset(SearchStage(es, categories, search))[e] ==
                          if Trim(search) == [] || Matches(categories, ToLower(search), e) then multiset(es)[e] else 0
  {
    if Trim(search) != [] {
      FilterSubseq(es, SearchTest(categories, ToLower(search)));
      FilterCount(es, SearchTest(categories, ToLower(search)));
    } else {
      SubseqRefl(es);
    }
  }

  /** The filtered list keeps the stored order and holds every stored
      expense that passes every active filter, as often as it is stored, and
      nothing else; with no stored list it is empty. */
  lemma FilterExpensesSpec(doc: Document, f: Filters, b: Bounds, parse: DateParser)
    ensures doc.expenses.None? ==> FilterExpenses(doc, f, b, parse) == []
    ensures doc.expenses.Some? ==>
              && IsSubseq(FilterExpenses(doc, f, b, parse), doc.expenses.value)
              && forall e :: multiset(FilterExpenses(doc, f, b, parse))[e] ==
                               if Shown(doc, f, b, parse, e) then multiset(doc.expenses.value)[e] else 0
  {
    if doc.expenses.Some? {
      var es := doc.expenses.value;
      var s1 := PeriodStage(es, b, f.period, parse);
      var s2 := CategoryStage(s1, f.cats);
      PeriodStageSpec(es, b, f.period, parse);
      CategoryStageSpec(s1, f.cats);
      SearchStageSpec(s2, doc.categories, f.search);
      SubseqTrans(s2, s1, es);
      SubseqTrans(SearchStage(s2, doc.categories, f.search), s2, es);
    }
  }

  /** With no period, no category and a blank search, everything stored is shown. */
  lemma UnfilteredShowsAll(doc: Document, search: string, b: Bounds, parse: DateParser)
    requires doc.expenses.Some? && AllWhitespace(search)
    ensures FilterExpenses(doc, Filters(All, [], search), b, parse) == doc.expenses.value
  {
    TrimBlank(search);
  }

  /** An expense the screen shows is one the corrected bounds show too: the
      written week starts later on the same Sunday, and the written end of
      last month comes earlier on the same last day. */
  lemma ScreenShowsNoMore(doc: Document, f: Filters, now: Reading, parse: DateParser, e: Expense)
    ensures Shown(doc, f, SourceBounds(now), parse, e) ==> Shown(doc, f, IntendedBounds(now), parse, e)
  {
  }

  /** The screen's list never holds an expense more often than the corrected
      one does. */
  lemma ScreenListWithinCorrected(doc: Document, f: Filters, now: Reading, parse: DateParser)
    ensures forall e :: multiset(ScreenList(doc, f, now, parse))[e] <= multiset(CorrectedList(doc, f, now, parse))[e]
  {
    FilterExpensesSpec(doc, f, SourceBounds(now), parse);
    FilterExpensesSpec(doc, f, IntendedBounds(now), parse);
    forall e {
      ScreenShowsNoMore(doc, f, now, parse, e);
    }
  }

  /** For "All" and "This Month" the written bounds are the corrected ones,
      so the screen's list is the corrected list. */
  lemma ScreenListCorrectOnMonth(doc: Document, f: Filters, now: Reading, parse: DateParser)
    requires f.period == All || f.period == ThisMonth
    ensures ScreenList(doc, f, now, parse) == CorrectedList(doc, f, now, parse)
  {
    if doc.expenses.Some? && f.period == ThisMonth {
      var es := doc.expenses.value;
      var p, q := PeriodTest(SourceBounds(now), ThisMonth, parse), PeriodTest(IntendedBounds(now), ThisMonth, parse);
      forall i | 0 <= i < |es| ensures p(es[i]) == q(es[i]) {
        var t := parse(es[i].date);
        assert SourceBounds(now).monthStart == IntendedBounds(now).monthStart;
        assert p(es[i]) == InPeriod(SourceBounds(now), ThisMonth, t);
        assert q(es[i]) == InPeriod(IntendedBounds(now), ThisMonth, t);
      }
      FilterAgree(es, PeriodTest(SourceBounds(now), ThisMonth, parse), PeriodTest(IntendedBounds(now), ThisMonth, parse));
    }
  }

  /** The query keeps its spaces: searching "food " finds no "Food" expense
      outside a category named with a trailing space. */
  lemma SearchUsesUntrimmedQuery()
    ensures var e := Expense("1", 10.0, "food", "Cash", "Food", "", "2024-01-01", "");
            !Matches(None, ToLower("food "), e) && Matches(None, ToLower("food"), e)
  {
    var d := ToLower("Food");
    assert d == "food";
    assert "food" <= d;
    assert !Contains(d, "food ") by {
      assert !("food " <= d);
      NotContainsLonger(d, "food ");
    }
  }

  lemma {:induction false} NotContainsLonger(hay: string, needle: string)
    requires |needle| > |hay|
    ensures !Contains(hay, needle)
    decreases |hay|
  {
    if |hay| > 0 {
      NotContainsLonger(hay[1..], needle);
    }
  }

  // ---------------------------------------------------------------------
  // Category chips and the filter sheet

  /** `toggleCat`: remove the id when selected, append it otherwise. */
  function ToggleCat(cats: seq<string>, id: string): seq<string> {
    if id in cats then Filter(cats, c => c != id) else cats + [id]
  }

  /** Toggling flips the one chip and leaves every other chip alone. */
  lemma ToggleCatFlips(cats: seq<string>, id: string)
    ensures id in ToggleCat(cats, id) <==> id !in cats
    ensures forall c :: c != id ==> (c in ToggleCat(cats, id) <==> c in cats)
  {
    FilterMembers(cats, c => c != id);
  }

  /** Toggling a chip that was off twice restores the selection exactly. */
  lemma ToggleTwice(cats: seq<string>, id: string)
    requires id !in cats
    ensures ToggleCat(ToggleCat(cats, id), id) == cats
  {
    var p := (c: string) => c != id;
    FilterSnoc(cats, id, p);
    FilterAll(cats, p);
  }

  /** `clearFilters`: period back to all and no categories; the search
      text stays. */
  function ClearFilters(f: Filters): (r: Filters)
    ensures r.search == f.search
  {
    Filters(All, [], f.search)
  }

  /** `activeFilters`: whether the filter badge shows. */
  predicate ActiveFilters(f: Filters) {
    f.period != All || |f.cats| > 0
  }

  /** After clearing, the badge is off, and only the search can still hide
      an expense. */
  lemma ClearFiltersDeactivates(doc: Document, f: Filters, b: Bounds, parse: DateParser, e: Expense)
    ensures !ActiveFilters(ClearFilters(f))
    ensures Shown(doc, ClearFilters(f), b, parse, e) <==>
              Trim(f.search) == [] || Matches(doc.categories, ToLower(f.search), e)
  {
  }
}
